/** What a built Exchanger makes of a credential: the classification of its subject and the
    veto that current configuration holds over its kind. */
module ClientVeto {
  import opened ClientRegistry
  import opened RegistryBuilds

  datatype Exchanger = Exchanger(registry: Registry, clients: set<string>)

  const CLIENT: string := "Client"
  const USER: string := "User"

  predicate NamesClient(e: Exchanger, key: string) {
    key != "" && (key in e.registry || DCR_PREFIX <= key)
  }

  function SubjectKindOf(e: Exchanger, sub: string): string {
    if NamesClient(e, sub) then CLIENT else USER
  }

  /** The kind a credential recorded, or for one that recorded none the kind of its sub. */
  function KindOrLegacy(e: Exchanger, recorded: string, sub: string): string {
    if recorded != "" then recorded else SubjectKindOf(e, sub)
  }

  function RemovedAt(e: Exchanger, id: string): int {
    if id in e.registry then e.registry[id].removedAt else 0
  }

  /** VetoCredential's answer: whether a credential of kind for sub, issued at iat, passes. */
  predicate Passes(e: Exchanger, sub: string, kind: string, iat: int) {
    if kind == CLIENT then sub in e.clients && !(RemovedAt(e, sub) > 0 && iat <= RemovedAt(e, sub))
    else if kind == USER then !NamesClient(e, sub)
    else true
  }

  // --------------------------------------------- the history of configurations

  /** Some configuration merged before the k-th named id. */
  ghost predicate WasConfigured(log: seq<Entry>, k: nat, id: string)
    requires k <= |log|
  {
    exists i | 0 <= i < k :: id in log[i].ids
  }

  /** The k-th merge saw id leave the configuration, or come back to it. */
  ghost predicate Moved(log: seq<Entry>, k: nat, id: string)
    requires k < |log|
  {
    WasConfigured(log, k, id) && (id in log[k - 1].ids) != (id in log[k].ids)
  }

  lemma {:induction false} RecordedIffWasConfigured(log: seq<Entry>, id: string)
    ensures id in Sequential(map[], log) <==> WasConfigured(log, |log|, id)
    ensures id in Sequential(map[], log) ==> Sequential(map[], log)[id].present == (id in log[|log| - 1].ids)
    decreases |log|
  {
    if log != [] {
      var n := |log| - 1;
      RecordedIffWasConfigured(log[..n], id);
      if WasConfigured(log, |log|, id) && id !in log[n].ids {
        var i :| 0 <= i < |log| && id in log[i].ids;
        assert id in log[..n][i].ids;
      }
      if WasConfigured(log[..n], n, id) {
        var i :| 0 <= i < n && id in log[..n][i].ids;
        assert id in log[i].ids;
      }
      MergeKeeps(Sequential(map[], log[..n]), log[n].ids, log[n].now, 0);
      assert id in PresentIds(Sequential(map[], log)) <==> id in log[n].ids;
    }
  }

  /** No move of id before the n-th merge is stamped with a positive clock at or after iat. */
  ghost predicate NotCutOff(log: seq<Entry>, n: nat, id: string, iat: int)
    requires n <= |log|
  {
    forall k {:trigger Moved(log, k, id)} :: 0 <= k < n && Moved(log, k, id) ==> log[k].now <= 0 || log[k].now < iat
  }

  lemma MovedPrefix(log: seq<Entry>, n: nat, k: nat, id: string)
    requires k < n <= |log|
    ensures Moved(log[..n], k, id) <==> Moved(log, k, id)
  {
  }

  lemma NeverConfigured(log: seq<Entry>, id: string, iat: int)
    requires !WasConfigured(log, |log|, id)
    ensures NotCutOff(log, |log|, id, iat)
  {
  }

  lemma NotCutOffSplit(log: seq<Entry>, id: string, iat: int)
    requires log != []
    ensures NotCutOff(log, |log|, id, iat) <==>
      && NotCutOff(log[..|log| - 1], |log| - 1, id, iat)
      && (Moved(log, |log| - 1, id) ==> log[|log| - 1].now <= 0 || log[|log| - 1].now < iat)
  {
    var n := |log| - 1;
    forall k | 0 <= k < n ensures Moved(log[..n], k, id) <==> Moved(log, k, id) {
      MovedPrefix(log, n, k, id);
    }
  }

  /** The stored cutoff is the latest of the clocks stamped at id's moves, zero without a
      positive one. */
  lemma {:induction false} CutoffIsLatestMove(log: seq<Entry>, id: string, iat: int)
    requires id in Sequential(map[], log)
    ensures Sequential(map[], log)[id].removedAt >= 0
    ensures NotCutOff(log, |log|, id, iat) <==>
      Sequential(map[], log)[id].removedAt == 0 || Sequential(map[], log)[id].removedAt < iat
    decreases |log|
  {
    var n := |log| - 1;
    var earlier := log[..n];
    NotCutOffSplit(log, id, iat);
    RecordedIffWasConfigured(earlier, id);
    MovedIff(log, id);
    if id in Sequential(map[], earlier) {
      CutoffIsLatestMove(earlier, id, iat);
    } else {
      NeverConfigured(earlier, id, iat);
    }
  }

  /** A move is a merge that finds a record and turns its present around. */
  lemma MovedIff(log: seq<Entry>, id: string)
    requires log != []
    ensures var have := Sequential(map[], log[..|log| - 1]);
      Moved(log, |log| - 1, id) <==> id in have && have[id].present != (id in log[|log| - 1].ids)
  {
    var n := |log| - 1;
    RecordedIffWasConfigured(log[..n], id);
    if WasConfigured(log, n, id) {
      var i :| 0 <= i < n && id in log[i].ids;
      assert id in log[..n][i].ids;
    }
    if WasConfigured(log[..n], n, id) {
      var i :| 0 <= i < n && id in log[..n][i].ids;
      assert id in log[i].ids;
    }
  }

  // ------------------------------------------------------------ theorems

  /** The Exchanger of a build that succeeded. */
  function ExchangerOf(b: Build): Exchanger
    requires b.phase.Built?
  {
    Exchanger(b.phase.registry, b.clients)
  }

  /** A host's whole life: any interleaving of builds over a store that began empty. */
  ghost predicate Alive(s: State, acts: seq<Action>, n: nat) {
    s == Run(Start(Absent), acts) && n in s.builds && s.builds[n].phase.Built?
  }

  lemma BuiltRegistry(s: State, acts: seq<Action>, n: nat)
    requires Alive(s, acts, n)
    ensures s.builds[n].phase.at <= |s.log|
    ensures s.builds[n].phase.registry == Sequential(map[], s.log[..s.builds[n].phase.at])
    ensures forall i :: 0 <= i < |s.log| ==> "" !in s.log[i].ids
  {
    BuildsAreSequential(Absent, acts);
    KeepRun(Absent, Start(Absent), acts);
    forall i | 0 <= i < |s.log| ensures "" !in s.log[i].ids {
      var e := s.log[i];
      assert EntryOk(s.builds, e, i);
      assert BuildOk(Absent, s.stored, s.version, s.log, s.builds[e.build]);
    }
  }

  /** No revival, exactly. A Client credential passes the Exchanger of any build if and only
      if its client is configured there and every merge up to that build's that saw the
      client leave or come back was stamped with a clock earlier than the credential's issue
      time, or with none after the epoch. */
  lemma ClientPassesIff(s: State, acts: seq<Action>, n: nat, id: string, iat: int)
    requires Alive(s, acts, n)
    ensures s.builds[n].phase.at <= |s.log|
    ensures Passes(ExchangerOf(s.builds[n]), id, CLIENT, iat) <==>
      id in s.builds[n].clients && NotCutOff(s.log, s.builds[n].phase.at, id, iat)
  {
    BuiltRegistry(s, acts, n);
    var at := s.builds[n].phase.at;
    var log := s.log[..at];
    forall k | 0 <= k < at ensures Moved(log, k, id) <==> Moved(s.log, k, id) {
      MovedPrefix(s.log, at, k, id);
    }
    assert NotCutOff(s.log, at, id, iat) <==> NotCutOff(log, at, id, iat);
    if id in Sequential(map[], log) {
      CutoffIsLatestMove(log, id, iat);
    } else {
      RecordedIffWasConfigured(log, id);
      NeverConfigured(log, id, iat);
    }
  }

  /** For positive clocks: a credential issued at or before a removal or re-add is refused
      by every Exchanger built from then on, whatever is removed and re-added later. */
  lemma NoRevival(s: State, acts: seq<Action>, n: nat, id: string, iat: int, k: nat)
    requires Alive(s, acts, n)
    requires k < s.builds[n].phase.at && k < |s.log| && Moved(s.log, k, id)
    requires iat <= s.log[k].now && 0 < s.log[k].now
    ensures !Passes(ExchangerOf(s.builds[n]), id, CLIENT, iat)
  {
    ClientPassesIff(s, acts, n, id, iat);
  }

  /** An id names a client exactly when it carries the dynamic prefix or some merge so far
      had it configured; it then never classifies as a user again, and a User credential for
      it is refused. */
  lemma OnceAClient(s: State, acts: seq<Action>, n: nat, id: string)
    requires Alive(s, acts, n)
    ensures s.builds[n].phase.at <= |s.log|
    ensures var e := ExchangerOf(s.builds[n]);
      var client := DCR_PREFIX <= id || WasConfigured(s.log, s.builds[n].phase.at, id);
      && SubjectKindOf(e, id) == (if client then CLIENT else USER)
      && (forall recorded :: KindOrLegacy(e, recorded, id) == if recorded != "" then recorded else if client then CLIENT else USER)
      && (forall iat :: Passes(e, id, USER, iat) <==> !client)
      && (forall kind, iat :: kind != CLIENT && kind != USER ==> Passes(e, id, kind, iat))
  {
    BuiltRegistry(s, acts, n);
    var at := s.builds[n].phase.at;
    var log := s.log[..at];
    RecordedIffWasConfigured(log, id);
    if WasConfigured(log, at, id) {
      var i :| 0 <= i < at && id in log[i].ids;
      assert id in s.log[i].ids;
    }
    if WasConfigured(s.log, at, id) {
      var i :| 0 <= i < at && id in s.log[i].ids;
      assert id in log[i].ids;
    }
  }

  /** Configured clients named with the dynamic prefix are never recorded, so removing one
      and adding it back cuts nothing off: their credentials pass wherever they are
      configured. */
  lemma DynamicNamesAreNotCutOff(s: State, acts: seq<Action>, n: nat, id: string, iat: int)
    requires Alive(s, acts, n) && DCR_PREFIX <= id
    ensures Passes(ExchangerOf(s.builds[n]), id, CLIENT, iat) <==> id in s.builds[n].clients
  {
    ClientPassesIff(s, acts, n, id, iat);
    KeepRun(Absent, Start(Absent), acts);
    forall i | 0 <= i < |s.log| ensures id !in s.log[i].ids {
      assert EntryOk(s.builds, s.log[i], i);
      assert BuildOk(Absent, s.stored, s.version, s.log, s.builds[s.log[i].build]);
    }
  }

  // ------------------------------------------------------------ where it fails

  lemma Extend(acts: seq<Action>, s: State, a: Action) returns (acts': seq<Action>, s': State)
    requires s == Run(Start(Absent), acts)
    ensures s' == Apply(s, a) == Run(Start(Absent), acts')
  {
    RunSnoc(Start(Absent), acts, a);
    acts', s' := acts + [a], Apply(s, a);
  }

  /** A whole build at clock 0 whose configuration the registry does not reflect yet. */
  lemma Rebuild(acts: seq<Action>, s: State, n: nat, clients: set<string>) returns (acts': seq<Action>, s': State)
    requires s == Run(Start(Absent), acts) && n !in s.builds && Tracked(clients) == clients
    requires s.stored.Absent? || (s.stored.Good? && PresentIds(s.stored.reg) != clients)
    ensures s' == Run(Start(Absent), acts') && s'.builds.Keys == s.builds.Keys + {n}
    ensures s'.log == s.log + [Entry(n, clients, 0)]
    ensures s'.builds[n].clients == clients && s'.builds[n].phase.Built? && s'.builds[n].phase.at == |s'.log|
    ensures s'.stored.Good? && PresentIds(s'.stored.reg) == clients
  {
    UnchangedIffReflected(Contents(s.stored), clients, 0);
    MergeKeeps(Contents(s.stored), clients, 0, 0);
    acts', s' := Extend(acts, s, Begin(n, clients, 0));
    acts', s' := Extend(acts', s', Command(n, Answered));
    assert s'.builds[n].phase == Watch(0);
    acts', s' := Extend(acts', s', LockedUpdate(n));
  }

  /** With clocks at the epoch a revival goes through: a client is configured, removed and
      added back, three builds in turn, and the last one's Exchanger passes a credential
      issued before the removal. */
  lemma EpochClocksRevive()
    ensures exists acts, s, n: nat, k: nat ::
      && Alive(s, acts, n) && k < s.builds[n].phase.at <= |s.log|
      && Moved(s.log, k, "app") && s.log[k].now == 0
      && Passes(ExchangerOf(s.builds[n]), "app", CLIENT, -5)
  {
    var app := {"app"};
    assert Tracked(app) == app && Tracked({}) == {};
    var acts, s: State := [], Start(Absent);
    acts, s := Rebuild(acts, s, 0, app);
    assert "app" in PresentIds(s.stored.reg);
    acts, s := Rebuild(acts, s, 1, {});
    acts, s := Rebuild(acts, s, 2, app);
    assert s.log == [Entry(0, app, 0), Entry(1, {}, 0), Entry(2, app, 0)];
    assert "app" in s.log[0].ids;
    assert Alive(s, acts, 2) && Moved(s.log, 2, "app");
    ClientPassesIff(s, acts, 2, "app", -5);
  }
}
