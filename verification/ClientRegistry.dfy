/** The client registry: a record of every client id a host ever had configured, and the
    merge by which each Exchanger build brings its configuration into it. */
module ClientRegistry {

  /** present: in the configuration last merged. removedAt: the cutoff, in unix seconds. */
  datatype Record = Record(present: bool, removedAt: int)
  type Registry = map<string, Record>

  function Max(a: int, b: int): int { if a < b then b else a }

  /** What a merge makes of one id. */
  function MergedRecord(have: Registry, configured: set<string>, now: int, id: string): Record {
    if id !in have then Record(true, 0)
    else if have[id].present == (id in configured) then have[id]
    else Record(id in configured, Max(have[id].removedAt, now))
  }

  function Merged(have: Registry, configured: set<string>, now: int): Registry {
    map id | id in have.Keys + configured :: MergedRecord(have, configured, now, id)
  }

  const DCR_PREFIX: string := "dcr_"

  /** The configured ids a build records: the empty id and the ids named like dynamically
      registered clients are left out. */
  function Tracked(clients: set<string>): set<string> {
    set id | id in clients && id != "" && !(DCR_PREFIX <= id)
  }

  function PresentIds(reg: Registry): set<string> {
    set id | id in reg && reg[id].present
  }

  function Ids(configured: seq<string>): set<string> {
    set i | 0 <= i < |configured| :: configured[i]
  }

  /** No record of a is missing from b, and no cutoff of b is earlier. */
  predicate NothingForgotten(a: Registry, b: Registry) {
    forall id :: id in a ==> id in b && a[id].removedAt <= b[id].removedAt
  }

  datatype Merge = Merge(registry: Registry, recorded: seq<string>, readded: seq<string>, removed: seq<string>, changed: bool)

  /** mergeClientRegistry: copy the records, bring the configured ids in, mark the rest
      removed. have is not modified. */
  method MergeClientRegistry(have: Registry, configured: seq<string>, now: int) returns (m: Merge)
    ensures m.registry == Merged(have, Ids(configured), now)
    ensures m.changed <==> m.registry != have
    ensures forall id :: id in m.recorded <==> id in configured && id !in have
    ensures forall id :: id in m.readded <==> id in configured && id in have && !have[id].present
    ensures forall id :: id in m.removed <==> id in have && have[id].present && id !in configured
  {
    var added, recorded, readded := AddConfigured(have, configured, now);
    var registry, removed := MarkRemoved(added, configured, now);
    m := Merge(registry, recorded, readded, removed, |recorded| > 0 || |readded| > 0 || |removed| > 0);
    forall id ensures id in removed <==> id in have && have[id].present && id !in configured {
      assert id in Ids(configured) <==> id in configured;
    }
    assert registry == Merged(have, Ids(configured), now);
    ListsEmptyIffUnchanged(have, configured, now, recorded, readded, removed);
  }

  /** The loop over the records. */
  method MarkRemoved(added: Registry, configured: seq<string>, now: int)
    returns (registry: Registry, removed: seq<string>)
    ensures registry.Keys == added.Keys
    ensures forall id :: id in added ==>
      registry[id] == if added[id].present && id !in configured then Record(false, Max(added[id].removedAt, now)) else added[id]
    ensures forall id :: id in removed <==> id in added && added[id].present && id !in configured
  {
    registry, removed := added, [];
    var left := registry.Keys;
    while left != {}
      invariant left <= registry.Keys == added.Keys
      invariant forall id :: id in left ==> registry[id] == added[id]
      invariant forall id :: id in added && id !in left ==>
        registry[id] == if added[id].present && id !in configured then Record(false, Max(added[id].removedAt, now)) else added[id]
      invariant forall id :: id in removed <==> id in added && id !in left && added[id].present && id !in configured
      decreases |left|
    {
      var id :| id in left;
      if registry[id].present && id !in configured {
        registry := registry[id := Record(false, Max(registry[id].removedAt, now))];
        removed := removed + [id];
      }
      left := left - {id};
    }
  }

  /** The loop over the configured ids. */
  method AddConfigured(have: Registry, configured: seq<string>, now: int)
    returns (registry: Registry, recorded: seq<string>, readded: seq<string>)
    ensures registry.Keys == have.Keys + Ids(configured)
    ensures forall id :: id in registry ==>
      registry[id] == if id in configured then MergedRecord(have, Ids(configured), now, id) else have[id]
    ensures forall id :: id in recorded <==> id in configured && id !in have
    ensures forall id :: id in readded <==> id in configured && id in have && !have[id].present
  {
    registry, recorded, readded := have, [], [];
    for i := 0 to |configured|
      invariant forall id :: id in registry <==> id in have || id in configured[..i]
      invariant forall id :: id in registry && id !in configured[..i] ==> registry[id] == have[id]
      invariant forall id :: id in configured[..i] ==> registry[id] == MergedRecord(have, Ids(configured), now, id)
      invariant forall id :: id in recorded <==> id in configured[..i] && id !in have
      invariant forall id :: id in readded <==> id in configured[..i] && id in have && !have[id].present
    {
      var id := configured[i];
      assert configured[..i + 1] == configured[..i] + [id];
      assert id in Ids(configured);
      if id !in registry {
        registry := registry[id := Record(true, 0)];
        recorded := recorded + [id];
      } else if !registry[id].present {
        registry := registry[id := Record(true, Max(registry[id].removedAt, now))];
        readded := readded + [id];
      }
    }
    assert configured[..|configured|] == configured;
  }

  lemma ListsEmptyIffUnchanged(have: Registry, configured: seq<string>, now: int,
                               recorded: seq<string>, readded: seq<string>, removed: seq<string>)
    requires forall id :: id in recorded <==> id in configured && id !in have
    requires forall id :: id in readded <==> id in configured && id in have && !have[id].present
    requires forall id :: id in removed <==> id in have && have[id].present && id !in configured
    ensures recorded == [] && readded == [] && removed == [] <==> Merged(have, Ids(configured), now) == have
  {
    var merged := Merged(have, Ids(configured), now);
    if recorded != [] { assert recorded[0] in merged && recorded[0] !in have; }
    if readded != [] { assert readded[0] in have && merged[readded[0]].present; }
    if removed != [] { assert removed[0] in have && !merged[removed[0]].present; }
    if recorded == [] && readded == [] && removed == [] {
      forall id | id in merged ensures id in have && merged[id] == have[id] {
        assert id !in have ==> id in recorded;
        assert id in have && id in configured && !have[id].present ==> id in readded;
        assert id in have && id !in configured && have[id].present ==> id in removed;
      }
      assert merged.Keys == have.Keys;
    }
  }

  /** A merge changes nothing exactly when the registry already reflects the configuration,
      so a build that then skips the write skips nothing. No clock enters into it. */
  lemma UnchangedIffReflected(have: Registry, configured: set<string>, now: int)
    ensures Merged(have, configured, now) == have <==> PresentIds(have) == configured
  {
  }

  /** Whatever the clock: present is membership in the configuration merged, nothing is
      forgotten, and merging the same configuration again, at any time, changes nothing. */
  lemma MergeKeeps(have: Registry, configured: set<string>, now: int, later: int)
    ensures PresentIds(Merged(have, configured, now)) == configured
    ensures NothingForgotten(have, Merged(have, configured, now))
    ensures Merged(Merged(have, configured, now), configured, later) == Merged(have, configured, now)
  {
    var merged := Merged(have, configured, now);
    forall id ensures id in PresentIds(merged) <==> id in configured {
      if id in configured { assert id in merged; }
    }
    UnchangedIffReflected(merged, configured, later);
  }
}
