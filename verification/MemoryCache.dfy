/** The in-memory cache: two generations of entries over one shared LRU list. */
module MemoryCache {
  import opened Decimal
  import TtlMap

  const SURVIVING_GENERATION: string := "0"

  /** One list element; id is its identity. */
  datatype Element = Element(id: nat, key: string)
  datatype Entry = Entry(value: string, expiry: int, element: nat)
  type Segment = map<string, Entry>
  type Segments = map<string, Segment>

  // ------------------------------------------------------------ the LRU list

  /** The list without the elements in ids. */
  function Drop(lru: seq<Element>, ids: set<nat>): (r: seq<Element>)
    ensures |r| <= |lru|
    ensures forall e :: e in r <==> e in lru && e.id !in ids
  {
    if lru == [] then []
    else if lru[0].id in ids then Drop(lru[1..], ids)
    else [lru[0]] + Drop(lru[1..], ids)
  }

  predicate Distinct(lru: seq<Element>) {
    forall i, j | 0 <= i < j < |lru| :: lru[i].id != lru[j].id
  }

  lemma {:induction false} DropDistinct(lru: seq<Element>, ids: set<nat>)
    requires Distinct(lru)
    ensures Distinct(Drop(lru, ids))
  {
    if lru != [] {
      DropDistinct(lru[1..], ids);
      var rest := Drop(lru[1..], ids);
      forall j | 0 <= j < |rest| ensures rest[j].id != lru[0].id { assert rest[j] in lru[1..]; }
    }
  }

  lemma {:induction false} DropTwice(lru: seq<Element>, a: set<nat>, b: set<nat>)
    ensures Drop(Drop(lru, a), b) == Drop(lru, a + b)
  {
    if lru != [] {
      DropTwice(lru[1..], a, b);
      if lru[0].id !in a {
        assert ([lru[0]] + Drop(lru[1..], a))[1..] == Drop(lru[1..], a);
      }
    }
  }

  lemma {:induction false} DropNothing(lru: seq<Element>)
    ensures Drop(lru, {}) == lru
  {
    if lru != [] { DropNothing(lru[1..]); }
  }

  lemma {:induction false} DropShortens(lru: seq<Element>, e: Element)
    requires e in lru
    ensures |Drop(lru, {e.id})| < |lru|
  {
    if lru[0] != e { DropShortens(lru[1..], e); }
  }

  /** list.MoveToFront. */
  function ToFront(lru: seq<Element>, e: Element): seq<Element> {
    if e in lru then [e] + Drop(lru, {e.id}) else lru
  }

  lemma ToFrontKeeps(lru: seq<Element>, e: Element)
    requires Distinct(lru)
    ensures Distinct(ToFront(lru, e)) && |ToFront(lru, e)| <= |lru|
    ensures forall x :: x in ToFront(lru, e) <==> x in lru
  {
    if e in lru {
      DropDistinct(lru, {e.id});
      DropShortens(lru, e);
      forall x | x in lru && x.id == e.id ensures x == e { }
    }
  }

  // ------------------------------------------------------------ the invariant

  predicate Stored(segments: Segments, g: string, k: string) {
    g in segments && k in segments[g]
  }

  /** Every stored entry has a list element of its own, carrying its key. */
  ghost predicate Owned(segments: Segments, lru: seq<Element>) {
    && (forall g, k | Stored(segments, g, k) :: Element(segments[g][k].element, k) in lru)
    && (forall g, k, g', k' | Stored(segments, g, k) && Stored(segments, g', k')
                              && segments[g][k].element == segments[g'][k'].element :: g == g' && k == k')
  }

  /** At most the current generation and one other. */
  ghost predicate TwoGenerations(segments: Segments, current: string) {
    forall g, g' | g in segments && g' in segments && g != current && g' != current :: g == g'
  }

  lemma DropOwned(segments: Segments, lru: seq<Element>, segments': Segments, ids: set<nat>)
    requires Owned(segments, lru)
    requires forall g, k | Stored(segments', g, k) ::
      Stored(segments, g, k) && segments'[g][k].element == segments[g][k].element && segments[g][k].element !in ids
    ensures Owned(segments', Drop(lru, ids))
  {
  }

  // ---------------------------------------------------- counting the entries

  function Slots(segments: Segments): set<(string, string)> {
    set g, k | g in segments && k in segments[g] :: (g, k)
  }

  function Ids(lru: seq<Element>): set<nat> {
    set e | e in lru :: e.id
  }

  lemma {:induction false} IdsCount(lru: seq<Element>)
    ensures |Ids(lru)| <= |lru|
  {
    if lru == [] {
      assert Ids(lru) == {};
    } else {
      assert Ids(lru) == Ids(lru[1..]) + {lru[0].id};
      IdsCount(lru[1..]);
    }
  }

  lemma {:induction false} InjectionCount(slots: set<(string, string)>, segments: Segments, ids: set<nat>)
    requires forall s | s in slots :: Stored(segments, s.0, s.1) && segments[s.0][s.1].element in ids
    requires forall s, t | s in slots && t in slots && Stored(segments, s.0, s.1) && Stored(segments, t.0, t.1)
                           && segments[s.0][s.1].element == segments[t.0][t.1].element :: s == t
    ensures |slots| <= |ids|
    decreases |slots|
  {
    if slots != {} {
      var s :| s in slots;
      InjectionCount(slots - {s}, segments, ids - {segments[s.0][s.1].element});
    }
  }

  /** Entries across all generations never outnumber the list's elements. */
  lemma EntriesAtMostElements(segments: Segments, lru: seq<Element>)
    requires Owned(segments, lru)
    ensures |Slots(segments)| <= |lru|
  {
    IdsCount(lru);
    InjectionCount(Slots(segments), segments, Ids(lru));
  }

  // ------------------------------------------------- the cache and its operations

  datatype Option<+T> = None | Some(value: T)
  datatype SetOptions = SetOptions(ttl: Option<int>, noExpiry: bool)

  datatype Mem = Mem(segments: Segments, current: string, lru: seq<Element>, nextId: nat,
                     maxItems: int, ttl: int, uncycled: bool)

  ghost predicate Valid(m: Mem) {
    && Distinct(m.lru) && (forall e | e in m.lru :: e.id < m.nextId)
    && Owned(m.segments, m.lru)
    && TwoGenerations(m.segments, m.current)
    && (m.maxItems > 0 ==> |m.lru| <= m.maxItems)
    && (m.uncycled ==> m.current == SURVIVING_GENERATION && m.segments.Keys <= {SURVIVING_GENERATION})
  }

  function Empty(maxItems: int, ttl: int, uncycled: bool, managerChecksum: string): Mem {
    Mem(map[], if uncycled then SURVIVING_GENERATION else managerChecksum, [], 0, maxItems, ttl, uncycled)
  }

  function Expiry(m: Mem, options: SetOptions, now: int): int {
    if options.noExpiry then TtlMap.NEVER
    else now + (if options.ttl.Some? then options.ttl.value else m.ttl)
  }

  function WithoutKey(segments: Segments, key: string): Segments {
    map g | g in segments :: segments[g] - {key}
  }

  /** The list's last element goes, and with it every generation's entry for its key. */
  function EvictedBack(m: Mem): Mem
    requires m.lru != []
  {
    m.(lru := m.lru[..|m.lru| - 1], segments := WithoutKey(m.segments, m.lru[|m.lru| - 1].key))
  }

  function WithCurrent(m: Mem): Mem {
    if m.current in m.segments then m else m.(segments := m.segments[m.current := map[]])
  }

  function Refreshed(m: Mem, key: string, value: string, expiry: int): Mem
    requires Stored(m.segments, m.current, key)
  {
    var entry := m.segments[m.current][key];
    m.(lru := ToFront(m.lru, Element(entry.element, key)),
       segments := m.segments[m.current := m.segments[m.current][key := entry.(value := value, expiry := expiry)]])
  }

  function Inserted(m: Mem, key: string, value: string, expiry: int): Mem
    requires m.current in m.segments
  {
    m.(lru := [Element(m.nextId, key)] + m.lru,
       segments := m.segments[m.current := m.segments[m.current][key := Entry(value, expiry, m.nextId)]],
       nextId := m.nextId + 1)
  }

  /** setLocked. */
  function SetTo(m: Mem, key: string, value: string, expiry: int): Mem {
    var m1 := WithCurrent(m);
    if key in m1.segments[m.current] then Refreshed(m1, key, value, expiry)
    else Inserted(if m.maxItems > 0 && |m.lru| >= m.maxItems && m.lru != [] then EvictedBack(m1) else m1,
                  key, value, expiry)
  }

  /** The generation a read of key answers from: the current one if it has the key at
      all, else another that has it. */
  ghost predicate Home(m: Mem, g: string, key: string) {
    Stored(m.segments, g, key) && (g == m.current || !Stored(m.segments, m.current, key))
  }

  function Removed(m: Mem, g: string, key: string): Mem
    requires Stored(m.segments, g, key)
  {
    m.(segments := m.segments[g := m.segments[g] - {key}], lru := Drop(m.lru, {m.segments[g][key].element}))
  }

  function Touched(m: Mem, g: string, key: string): Mem
    requires Stored(m.segments, g, key)
  {
    m.(lru := ToFront(m.lru, Element(m.segments[g][key].element, key)))
  }

  function Rewritten(m: Mem, g: string, key: string, value: string): Mem
    requires Stored(m.segments, g, key)
  {
    Touched(m.(segments := m.segments[g := m.segments[g][key := m.segments[g][key].(value := value)]]), g, key)
  }

  /** The elements of key's entries. */
  ghost function ElementsOf(segments: Segments, key: string): set<nat> {
    set g | g in segments && key in segments[g] :: segments[g][key].element
  }

  ghost function Deleted(m: Mem, key: string): Mem {
    m.(segments := WithoutKey(m.segments, key), lru := Drop(m.lru, ElementsOf(m.segments, key)))
  }

  function Alive(seg: Segment, now: int): Segment {
    map k | k in seg && now <= seg[k].expiry :: seg[k]
  }

  ghost function ExpiredElements(segments: Segments, now: int): set<nat> {
    set g, k | g in segments && k in segments[g] && now > segments[g][k].expiry :: segments[g][k].element
  }

  ghost function Reaped(m: Mem, now: int): Mem {
    m.(segments := map g | g in m.segments :: Alive(m.segments[g], now),
       lru := Drop(m.lru, ExpiredElements(m.segments, now)))
  }

  /** One cache's part of a manager's Cycle. */
  function Cycled(m: Mem, checksum: string, force: bool): Mem {
    if m.uncycled || (!force && m.current == checksum) then m
    else
      var segments := if checksum in m.segments then m.segments else m.segments[checksum := map[]];
      m.(current := checksum,
         segments := map g | g in segments && (g == checksum || (!force && g == m.current)) :: segments[g])
  }

  // ------------------------------------------------------- key by key

  /** Nothing is left to insert into without evicting. */
  predicate Full(m: Mem, key: string) {
    m.maxItems > 0 && |m.lru| >= m.maxItems && m.lru != [] && !Stored(m.segments, m.current, key)
  }

  /** A Set stores the value under the key in the current generation, and takes nothing else
      but, of a full cache, what is stored under the list's last key. */
  lemma SetKeyByKey(m: Mem, key: string, value: string, expiry: int, g: string, k: string)
    ensures var m' := SetTo(m, key, value, expiry);
      && (g == m.current && k == key ==>
            Stored(m'.segments, g, k) && m'.segments[g][k].value == value && m'.segments[g][k].expiry == expiry)
      && (!(g == m.current && k == key) ==>
            && (Stored(m'.segments, g, k) <==> Stored(m.segments, g, k) && !(Full(m, key) && k == m.lru[|m.lru| - 1].key))
            && (Stored(m'.segments, g, k) ==> m'.segments[g][k] == m.segments[g][k]))
  {
  }

  /** A delete takes the key from every generation, a reap exactly what has expired. */
  lemma RemovalKeyByKey(m: Mem, key: string, now: int, g: string, k: string)
    ensures Stored(Deleted(m, key).segments, g, k) <==> Stored(m.segments, g, k) && k != key
    ensures Stored(Deleted(m, key).segments, g, k) ==> Deleted(m, key).segments[g][k] == m.segments[g][k]
    ensures Stored(Reaped(m, now).segments, g, k) <==> Stored(m.segments, g, k) && now <= m.segments[g][k].expiry
    ensures Stored(Reaped(m, now).segments, g, k) ==> Reaped(m, now).segments[g][k] == m.segments[g][k]
  {
  }

  /** What is read becomes the last to be evicted. */
  lemma TouchedIsFirst(m: Mem, g: string, key: string)
    requires Valid(m) && Stored(m.segments, g, key)
    ensures Touched(m, g, key).segments == m.segments
    ensures Touched(m, g, key).lru != [] && Touched(m, g, key).lru[0] == Element(m.segments[g][key].element, key)
  {
  }

  /** An unforced Cycle to a new checksum keeps the generation that was current, and every entry
      of it is still the one a read finds, unless the new generation has the key; a forced one
      keeps nothing but what the new checksum's generation had. */
  lemma CycleKeyByKey(m: Mem, checksum: string, force: bool, k: string)
    requires !m.uncycled && checksum != m.current
    ensures var m' := Cycled(m, checksum, force);
      && m'.current == checksum
      && (!force && Stored(m.segments, m.current, k) ==>
            && Stored(m'.segments, m.current, k) && m'.segments[m.current][k] == m.segments[m.current][k]
            && (Home(m', m.current, k) <==> !Stored(m.segments, checksum, k)))
      && (Stored(m.segments, checksum, k) ==> Home(m', checksum, k) && m'.segments[checksum][k] == m.segments[checksum][k])
      && (force ==> forall g | Home(m', g, k) :: g == checksum && Stored(m.segments, checksum, k))
  {
  }

  // ------------------------------------------------------- what each one keeps

  lemma OwnedSubset(segments: Segments, lru: seq<Element>, segments': Segments, lru': seq<Element>)
    requires Owned(segments, lru)
    requires forall g, k | Stored(segments', g, k) ::
      Stored(segments, g, k) && segments'[g][k].element == segments[g][k].element
    requires forall g, k | Stored(segments', g, k) :: Element(segments'[g][k].element, k) in lru'
    ensures Owned(segments', lru')
  {
  }

  lemma KeepEvictedBack(m: Mem)
    requires Valid(m) && m.lru != []
    ensures Valid(EvictedBack(m))
  {
    var m' := EvictedBack(m);
    var back := m.lru[|m.lru| - 1];
    forall g, k | Stored(m'.segments, g, k) ensures Element(m'.segments[g][k].element, k) in m'.lru {
      assert Stored(m.segments, g, k);
      var e := Element(m.segments[g][k].element, k);
      assert e in m.lru && e != back;
    }
    OwnedSubset(m.segments, m.lru, m'.segments, m'.lru);
  }

  lemma KeepWithCurrent(m: Mem)
    requires Valid(m)
    ensures Valid(WithCurrent(m))
  {
    var m' := WithCurrent(m);
    assert forall g, k :: Stored(m'.segments, g, k) == Stored(m.segments, g, k);
  }

  lemma KeepRewrite(m: Mem, g: string, key: string, value: string, expiry: int)
    requires Valid(m) && Stored(m.segments, g, key)
    ensures var entry := m.segments[g][key];
      Valid(m.(lru := ToFront(m.lru, Element(entry.element, key)),
               segments := m.segments[g := m.segments[g][key := entry.(value := value, expiry := expiry)]]))
  {
    var entry := m.segments[g][key];
    ToFrontKeeps(m.lru, Element(entry.element, key));
    var segments' := m.segments[g := m.segments[g][key := entry.(value := value, expiry := expiry)]];
    OwnedSubset(m.segments, m.lru, segments', ToFront(m.lru, Element(entry.element, key)));
  }

  /** A new element at the front, for one new entry, keeps the injection. */
  lemma InsertedOwned(m: Mem, key: string, value: string, expiry: int)
    requires Owned(m.segments, m.lru) && (forall e | e in m.lru :: e.id < m.nextId)
    requires m.current in m.segments && key !in m.segments[m.current]
    ensures Owned(Inserted(m, key, value, expiry).segments, Inserted(m, key, value, expiry).lru)
  {
    var m' := Inserted(m, key, value, expiry);
    forall g, k | Stored(m'.segments, g, k) && (g, k) != (m.current, key)
      ensures Stored(m.segments, g, k) && m'.segments[g][k] == m.segments[g][k]
      ensures m'.segments[g][k].element < m.nextId && Element(m'.segments[g][k].element, k) in m'.lru
    {
      assert Element(m.segments[g][k].element, k) in m.lru;
    }
  }

  lemma InsertedDistinct(lru: seq<Element>, e: Element)
    requires Distinct(lru) && forall x | x in lru :: x.id < e.id
    ensures Distinct([e] + lru)
  {
  }

  lemma KeepInserted(m: Mem, key: string, value: string, expiry: int)
    requires Valid(m) && m.current in m.segments && key !in m.segments[m.current]
    requires m.maxItems > 0 ==> |m.lru| < m.maxItems
    ensures Valid(Inserted(m, key, value, expiry))
  {
    InsertedOwned(m, key, value, expiry);
    InsertedDistinct(m.lru, Element(m.nextId, key));
  }

  lemma KeepSetTo(m: Mem, key: string, value: string, expiry: int)
    requires Valid(m)
    ensures Valid(SetTo(m, key, value, expiry))
  {
    var m1 := WithCurrent(m);
    KeepWithCurrent(m);
    if key in m1.segments[m.current] {
      KeepRewrite(m1, m.current, key, value, expiry);
    } else if m.maxItems > 0 && |m.lru| >= m.maxItems && m.lru != [] {
      KeepEvictedBack(m1);
      KeepInserted(EvictedBack(m1), key, value, expiry);
    } else {
      KeepInserted(m1, key, value, expiry);
    }
  }

  lemma KeepTouched(m: Mem, g: string, key: string)
    requires Valid(m) && Stored(m.segments, g, key)
    ensures Valid(Touched(m, g, key))
  {
    ToFrontKeeps(m.lru, Element(m.segments[g][key].element, key));
  }

  lemma KeepDropped(m: Mem, segments': Segments, ids: set<nat>)
    requires Valid(m) && segments'.Keys == m.segments.Keys
    requires forall g, k | Stored(segments', g, k) ::
      Stored(m.segments, g, k) && segments'[g][k] == m.segments[g][k] && m.segments[g][k].element !in ids
    ensures Valid(m.(segments := segments', lru := Drop(m.lru, ids)))
  {
    DropDistinct(m.lru, ids);
    DropOwned(m.segments, m.lru, segments', ids);
  }

  lemma KeepRemoved(m: Mem, g: string, key: string)
    requires Valid(m) && Stored(m.segments, g, key)
    ensures Valid(Removed(m, g, key))
  {
    KeepDropped(m, m.segments[g := m.segments[g] - {key}], {m.segments[g][key].element});
  }

  lemma KeepDeleted(m: Mem, key: string)
    requires Valid(m)
    ensures Valid(Deleted(m, key))
  {
    var segments' := WithoutKey(m.segments, key);
    forall g, k | Stored(segments', g, k)
      ensures Stored(m.segments, g, k) && m.segments[g][k].element !in ElementsOf(m.segments, key)
    {
      assert Stored(m.segments, g, k);
      forall h | h in m.segments && key in m.segments[h] ensures m.segments[h][key].element != m.segments[g][k].element {
        assert Stored(m.segments, h, key);
      }
    }
    KeepDropped(m, segments', ElementsOf(m.segments, key));
  }

  lemma KeepReaped(m: Mem, now: int)
    requires Valid(m)
    ensures Valid(Reaped(m, now))
  {
    var segments' := map g | g in m.segments :: Alive(m.segments[g], now);
    var ids := ExpiredElements(m.segments, now);
    forall g, k | Stored(segments', g, k)
      ensures Stored(m.segments, g, k) && m.segments[g][k].element !in ids
    {
      assert Stored(m.segments, g, k);
      forall h, j | h in m.segments && j in m.segments[h] && now > m.segments[h][j].expiry
        ensures m.segments[h][j].element != m.segments[g][k].element
      {
        assert Stored(m.segments, h, j);
      }
    }
    KeepDropped(m, segments', ids);
  }

  lemma KeepCycled(m: Mem, checksum: string, force: bool)
    requires Valid(m)
    ensures Valid(Cycled(m, checksum, force))
  {
    var m' := Cycled(m, checksum, force);
    forall g, k | Stored(m'.segments, g, k) ensures Stored(m.segments, g, k) && m'.segments[g][k] == m.segments[g][k] { }
    OwnedSubset(m.segments, m.lru, m'.segments, m'.lru);
  }
}
