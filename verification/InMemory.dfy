/** InMemoryCache as it runs: fields updated in place, each method proved against the
    operation it performs and, for a surviving class without an item bound, against the
    plain TTL map its callers see. */
module InMemory {
  import opened Decimal
  import opened MemoryCache
  import TtlMap

  function Plain(seg: Segment): TtlMap.Map {
    map k | k in seg :: TtlMap.Item(seg[k].value, seg[k].expiry)
  }

  /** The one map a surviving class is. */
  function Flat(m: Mem): TtlMap.Map {
    if SURVIVING_GENERATION in m.segments then Plain(m.segments[SURVIVING_GENERATION]) else map[]
  }

  /** A class in the surviving scope that evicts nothing. */
  ghost predicate Surviving(m: Mem) { Valid(m) && m.uncycled && m.maxItems <= 0 }

  lemma FlatSetTo(m: Mem, key: string, value: string, expiry: int)
    requires Surviving(m)
    ensures Flat(SetTo(m, key, value, expiry)) == TtlMap.Put(Flat(m), key, value, expiry)
  {
  }

  lemma FlatRemoved(m: Mem, key: string)
    requires Surviving(m) && Stored(m.segments, m.current, key)
    ensures Flat(Removed(m, m.current, key)) == TtlMap.Remove(Flat(m), key)
  {
  }

  lemma FlatRewritten(m: Mem, key: string, value: string)
    requires Surviving(m) && Stored(m.segments, m.current, key)
    ensures Flat(Rewritten(m, m.current, key, value)) == Flat(m)[key := Flat(m)[key].(value := value)]
  {
  }

  lemma FlatDeleted(m: Mem, key: string)
    requires Surviving(m)
    ensures Flat(Deleted(m, key)) == TtlMap.Remove(Flat(m), key)
  {
  }

  lemma FlatReaped(m: Mem, now: int)
    requires Surviving(m)
    ensures Flat(Reaped(m, now)) == TtlMap.Reap(Flat(m), now)
  {
  }

  lemma OnlyHome(m: Mem, g: string, key: string)
    requires Surviving(m) && Stored(m.segments, g, key)
    ensures g == m.current == SURVIVING_GENERATION && key in Flat(m)
    ensures Flat(m)[key] == TtlMap.Item(m.segments[g][key].value, m.segments[g][key].expiry)
  {
  }

  /** Where a decrement of key lands: unlike a read, it passes over an expired entry of
      the current generation. */
  ghost predicate CounterHome(m: Mem, g: string, key: string, now: int) {
    && Stored(m.segments, g, key) && now <= m.segments[g][key].expiry
    && (g == m.current || !(Stored(m.segments, m.current, key) && now <= m.segments[m.current][key].expiry))
  }

  lemma SoleCounterHome(m: Mem, g: string, key: string, now: int)
    requires Valid(m) && CounterHome(m, g, key, now)
    ensures forall h | CounterHome(m, h, key, now) :: h == g
  {
  }

  lemma FlatDecrement(m: Mem, home: Option<string>, key: string, now: int)
    requires Surviving(m)
    requires home.Some? ==> CounterHome(m, home.value, key, now)
    requires home.None? ==> forall g :: !CounterHome(m, g, key, now)
    ensures TtlMap.Live(Flat(m), now, key) <==> home.Some?
    ensures home.Some? ==>
      && TtlMap.Decremented(Flat(m), now, key)
         == (if Positive(m.segments[home.value][key].value) then Parse(m.segments[home.value][key].value).value - 1 else -1)
      && forall v :: Flat(Rewritten(m, home.value, key, v)) == Flat(m)[key := Flat(m)[key].(value := v)]
  {
    if home.Some? {
      OnlyHome(m, home.value, key);
      forall v ensures Flat(Rewritten(m, home.value, key, v)) == Flat(m)[key := Flat(m)[key].(value := v)] {
        FlatRewritten(m, key, v);
      }
    } else if TtlMap.Live(Flat(m), now, key) {
      assert CounterHome(m, m.current, key, now);
    }
  }

  /** Taking one of key's entries leaves the rest of its deletion to do, and no more. */
  lemma DeletedAbsorbs(m: Mem, g: string, key: string)
    requires Stored(m.segments, g, key)
    ensures Deleted(Removed(m, g, key), key) == Deleted(m, key)
  {
    var m1 := Removed(m, g, key);
    var e := m.segments[g][key].element;
    forall h | h in m.segments ensures m1.segments[h] - {key} == m.segments[h] - {key} { }
    assert WithoutKey(m1.segments, key) == WithoutKey(m.segments, key);
    assert ElementsOf(m.segments, key) == {e} + ElementsOf(m1.segments, key) by {
      forall id | id in ElementsOf(m.segments, key) ensures id in {e} + ElementsOf(m1.segments, key) {
        var h :| h in m.segments && key in m.segments[h] && m.segments[h][key].element == id;
        assert h != g ==> m1.segments[h] == m.segments[h];
      }
    }
    DropTwice(m.lru, {e}, ElementsOf(m1.segments, key));
  }

  lemma DeletedNothing(m: Mem, key: string)
    requires forall g | g in m.segments :: key !in m.segments[g]
    ensures Deleted(m, key) == m
  {
    DropNothing(m.lru);
    assert ElementsOf(m.segments, key) == {};
    assert forall g | g in m.segments :: m.segments[g] - {key} == m.segments[g];
    assert WithoutKey(m.segments, key) == m.segments;
  }

  lemma ExpiredAbsorbs(m: Mem, g: string, key: string, now: int)
    requires Stored(m.segments, g, key) && now > m.segments[g][key].expiry
    ensures ExpiredElements(m.segments, now)
      == {m.segments[g][key].element} + ExpiredElements(Removed(m, g, key).segments, now)
  {
    var m1 := Removed(m, g, key);
    var e := m.segments[g][key].element;
    forall id | id in ExpiredElements(m.segments, now) ensures id in {e} + ExpiredElements(m1.segments, now) {
      var h, k :| h in m.segments && k in m.segments[h] && now > m.segments[h][k].expiry && m.segments[h][k].element == id;
      assert (h, k) != (g, key) ==> k in m1.segments[h] && m1.segments[h][k] == m.segments[h][k];
    }
  }

  lemma ReapedAbsorbs(m: Mem, g: string, key: string, now: int)
    requires Stored(m.segments, g, key) && now > m.segments[g][key].expiry
    ensures Reaped(Removed(m, g, key), now) == Reaped(m, now)
  {
    var m1 := Removed(m, g, key);
    assert Alive(m1.segments[g], now) == Alive(m.segments[g], now);
    assert Reaped(m1, now).segments == Reaped(m, now).segments;
    ExpiredAbsorbs(m, g, key, now);
    DropTwice(m.lru, {m.segments[g][key].element}, ExpiredElements(m1.segments, now));
  }

  lemma ReapedNothing(m: Mem, now: int)
    requires forall g, k | g in m.segments && k in m.segments[g] :: now <= m.segments[g][k].expiry
    ensures Reaped(m, now) == m
  {
    DropNothing(m.lru);
    assert ExpiredElements(m.segments, now) == {};
    assert forall g | g in m.segments :: Alive(m.segments[g], now) == m.segments[g];
    assert Reaped(m, now).segments == m.segments;
  }

  // ------------------------------------------------------------------ runs

  datatype Op =
    | OpSet(key: string, value: string, options: SetOptions, now: int)
    | OpGet(key: string, now: int)
    | OpGetAndDelete(key: string, now: int)
    | OpDecrement(key: string, now: int)
    | OpDelete(key: string)
    | OpReap(now: int)
    | OpCycle(checksum: string, force: bool)

  /** The generation a successful read of key answers from. */
  ghost function LiveHome(m: Mem, k: string, now: int): (r: Option<string>)
    ensures r.Some? ==> Home(m, r.value, k) && now <= m.segments[r.value][k].expiry
    ensures r.None? ==> forall g | Home(m, g, k) :: now > m.segments[g][k].expiry
  {
    if g :| Home(m, g, k) && now <= m.segments[g][k].expiry then Some(g) else None
  }

  ghost function LiveCounter(m: Mem, k: string, now: int): (r: Option<string>)
    ensures r.Some? ==> CounterHome(m, r.value, k, now) && Positive(m.segments[r.value][k].value)
    ensures r.None? ==> forall g | CounterHome(m, g, k, now) :: !Positive(m.segments[g][k].value)
  {
    if g :| CounterHome(m, g, k, now) && Positive(m.segments[g][k].value) then Some(g) else None
  }

  ghost function ApplyOp(m: Mem, op: Op): Mem {
    match op
    case OpSet(k, v, o, now) => SetTo(m, k, v, Expiry(m, o, now))
    case OpGet(k, now) =>
      var g := LiveHome(m, k, now); if g.Some? then Touched(m, g.value, k) else m
    case OpGetAndDelete(k, now) =>
      var g := LiveHome(m, k, now); if g.Some? then Removed(m, g.value, k) else m
    case OpDecrement(k, now) =>
      var g := LiveCounter(m, k, now);
      if g.Some? then Rewritten(m, g.value, k, Format(Parse(m.segments[g.value][k].value).value - 1)) else m
    case OpDelete(k) => Deleted(m, k)
    case OpReap(now) => Reaped(m, now)
    case OpCycle(checksum, force) => Cycled(m, checksum, force)
  }

  ghost function RunOps(m: Mem, ops: seq<Op>): Mem
    decreases |ops|
  {
    if ops == [] then m else RunOps(ApplyOp(m, ops[0]), ops[1..])
  }

  lemma KeepRead(m: Mem, k: string, now: int)
    requires Valid(m)
    ensures Valid(ApplyOp(m, OpGet(k, now))) && Valid(ApplyOp(m, OpGetAndDelete(k, now)))
  {
    var g := LiveHome(m, k, now);
    if g.Some? {
      KeepTouched(m, g.value, k);
      KeepRemoved(m, g.value, k);
    }
  }

  lemma KeepDecrementOp(m: Mem, k: string, now: int)
    requires Valid(m)
    ensures Valid(ApplyOp(m, OpDecrement(k, now)))
  {
    var g := LiveCounter(m, k, now);
    if g.Some? {
      var entry := m.segments[g.value][k];
      KeepRewrite(m, g.value, k, Format(Parse(entry.value).value - 1), entry.expiry);
    }
  }

  lemma KeepOp(m: Mem, op: Op)
    requires Valid(m)
    ensures Valid(ApplyOp(m, op))
  {
    match op
    case OpSet(k, v, o, now) => KeepSetTo(m, k, v, Expiry(m, o, now));
    case OpGet(k, now) => KeepRead(m, k, now);
    case OpGetAndDelete(k, now) => KeepRead(m, k, now);
    case OpDecrement(k, now) => KeepDecrementOp(m, k, now);
    case OpDelete(k) => KeepDeleted(m, k);
    case OpReap(now) => KeepReaped(m, now);
    case OpCycle(checksum, force) => KeepCycled(m, checksum, force);
  }

  /** No operation changes what a cache was made with. */
  lemma KeepMake(m: Mem, op: Op)
    ensures var m' := ApplyOp(m, op); m'.maxItems == m.maxItems && m'.ttl == m.ttl && m'.uncycled == m.uncycled
  {
  }

  lemma {:induction false} KeepOps(m: Mem, ops: seq<Op>)
    requires Valid(m)
    ensures Valid(RunOps(m, ops))
    ensures RunOps(m, ops).maxItems == m.maxItems && RunOps(m, ops).uncycled == m.uncycled
    decreases |ops|
  {
    if ops != [] {
      KeepOp(m, ops[0]);
      KeepMake(m, ops[0]);
      KeepOps(ApplyOp(m, ops[0]), ops[1..]);
    }
  }

  lemma AtMostTwoGenerations(m: Mem)
    requires TwoGenerations(m.segments, m.current)
    ensures |m.segments| <= 2
  {
    var others := m.segments.Keys - {m.current};
    if g :| g in others { assert others == {g}; }
    assert m.segments.Keys <= others + {m.current};
    Cardinality(m.segments.Keys, others + {m.current});
  }

  lemma {:induction false} Cardinality<T>(a: set<T>, b: set<T>)
    requires a <= b
    ensures |a| <= |b|
  {
    if x :| x in a { Cardinality(a - {x}, b - {x}); }
  }

  /** Over every run, orphaned list elements and all: entries across generations never
      outnumber the list, the list never exceeds the item bound, and there are never more
      than two generations. */
  lemma AlwaysBounded(maxItems: int, ttl: int, uncycled: bool, checksum: string, ops: seq<Op>)
    ensures var m := RunOps(Empty(maxItems, ttl, uncycled, checksum), ops);
      && |Slots(m.segments)| <= |m.lru|
      && (maxItems > 0 ==> |m.lru| <= maxItems)
      && |m.segments| <= 2
      && (uncycled ==> |m.segments| <= 1)
  {
    var m0 := Empty(maxItems, ttl, uncycled, checksum);
    KeepOps(m0, ops);
    var m := RunOps(m0, ops);
    EntriesAtMostElements(m.segments, m.lru);
    AtMostTwoGenerations(m);
    if uncycled { Cardinality(m.segments.Keys, {SURVIVING_GENERATION}); }
  }

  // ------------------------------------------------- what a surviving class is

  /** An operation as the plain map performs it. A Cycle is nothing to it. */
  function PlainOp(ttl: int, op: Op): TtlMap.Op {
    match op
    case OpSet(k, v, o, now) =>
      TtlMap.DoPut(k, v, if o.noExpiry then TtlMap.NEVER else now + (if o.ttl.Some? then o.ttl.value else ttl))
    case OpGet(k, now) => TtlMap.DoGet(k, now)
    case OpGetAndDelete(k, now) => TtlMap.DoTake(k, now)
    case OpDecrement(k, now) => TtlMap.DoDecrement(k, now)
    case OpDelete(k) => TtlMap.DoRemove(k)
    case OpReap(now) => TtlMap.DoReap(now)
    case OpCycle(_, _) => TtlMap.DoCycle
  }

  function PlainOps(ttl: int, ops: seq<Op>): (plain: seq<TtlMap.Op>)
    ensures |plain| == |ops| && forall i :: 0 <= i < |ops| ==> plain[i] == PlainOp(ttl, ops[i])
  {
    if ops == [] then [] else [PlainOp(ttl, ops[0])] + PlainOps(ttl, ops[1..])
  }

  lemma RefinesRead(m: Mem, k: string, now: int)
    requires Surviving(m)
    ensures Flat(ApplyOp(m, OpGet(k, now))) == Flat(m)
    ensures Flat(ApplyOp(m, OpGetAndDelete(k, now))) == TtlMap.Take(Flat(m), now, k)
  {
    var g := LiveHome(m, k, now);
    if g.Some? {
      OnlyHome(m, g.value, k);
      FlatRemoved(m, k);
    } else if k in Flat(m) {
      assert Home(m, m.current, k);
    }
  }

  lemma RefinesDecrement(m: Mem, k: string, now: int)
    requires Surviving(m)
    ensures Flat(ApplyOp(m, OpDecrement(k, now))) == TtlMap.Decrement(Flat(m), now, k)
    ensures LiveCounter(m, k, now).Some? <==> TtlMap.Decremented(Flat(m), now, k) >= 0
  {
    var g := LiveCounter(m, k, now);
    if g.Some? {
      FlatDecrement(m, g, k, now);
    } else if TtlMap.Live(Flat(m), now, k) {
      assert CounterHome(m, m.current, k, now);
      FlatDecrement(m, Some(m.current), k, now);
    }
  }

  lemma Refines(m: Mem, op: Op)
    requires Surviving(m)
    ensures Flat(ApplyOp(m, op)) == TtlMap.Apply(Flat(m), PlainOp(m.ttl, op))
  {
    match op
    case OpSet(k, v, o, now) => FlatSetTo(m, k, v, Expiry(m, o, now));
    case OpGet(k, now) => RefinesRead(m, k, now);
    case OpGetAndDelete(k, now) => RefinesRead(m, k, now);
    case OpDecrement(k, now) => RefinesDecrement(m, k, now);
    case OpDelete(k) => FlatDeleted(m, k);
    case OpReap(now) => FlatReaped(m, now);
    case OpCycle(checksum, force) =>
  }

  /** How many decrements of key succeed along ops. */
  ghost function Spent(m: Mem, ops: seq<Op>, key: string): nat
    decreases |ops|
  {
    if ops == [] then 0
    else
      (if ops[0].OpDecrement? && ops[0].key == key && LiveCounter(m, key, ops[0].now).Some? then 1 else 0)
      + Spent(ApplyOp(m, ops[0]), ops[1..], key)
  }

  /** Over every run of operations, Cycles forced and unforced among them, a surviving class
      without an item bound is the plain map: the same contents, and the same decrements
      succeed. */
  lemma {:induction false} RunRefinesPlainMap(m: Mem, ops: seq<Op>, key: string)
    requires Surviving(m)
    ensures Flat(RunOps(m, ops)) == TtlMap.Run(Flat(m), PlainOps(m.ttl, ops))
    ensures Spent(m, ops, key) == TtlMap.Spent(Flat(m), PlainOps(m.ttl, ops), key)
    decreases |ops|
  {
    if ops != [] {
      var m' := ApplyOp(m, ops[0]);
      KeepOp(m, ops[0]);
      KeepMake(m, ops[0]);
      Refines(m, ops[0]);
      if ops[0].OpDecrement? { RefinesDecrement(m, ops[0].key, ops[0].now); }
      RunRefinesPlainMap(m', ops[1..], key);
      assert PlainOps(m.ttl, ops)[1..] == PlainOps(m.ttl, ops[1..]);
    }
  }

  /** So a counter in memory that was set to budget is decremented successfully at most that
      often until it is set again. */
  lemma MemoryBudget(m: Mem, ops: seq<Op>, key: string, budget: nat)
    requires Surviving(m) && budget <= MAX_INT64
    requires key in Flat(m) ==> Flat(m)[key].value == Format(budget)
    requires forall i | 0 <= i < |ops| :: ops[i].OpSet? ==> ops[i].key != key
    ensures Spent(m, ops, key) <= if key in Flat(m) then budget else 0
  {
    RunRefinesPlainMap(m, ops, key);
    TtlMap.BudgetHolds(Flat(m), PlainOps(m.ttl, ops), key, budget);
  }

  class InMemoryCache {
    const maxItems: int
    const ttl: int
    const uncycled: bool
    var segments: Segments
    var currentChecksum: string
    var lru: seq<Element>
    var nextId: nat

    ghost function Value(): Mem
      reads this
    {
      Mem(segments, currentChecksum, lru, nextId, maxItems, ttl, uncycled)
    }

    constructor (maxItems: int, ttl: int, uncycled: bool, managerChecksum: string)
      ensures Valid(Value()) && Value() == Empty(maxItems, ttl, uncycled, managerChecksum)
      ensures Flat(Value()) == map[]
    {
      this.maxItems, this.ttl, this.uncycled := maxItems, ttl, uncycled;
      segments, lru, nextId := map[], [], 0;
      currentChecksum := if uncycled then SURVIVING_GENERATION else managerChecksum;
    }

    /** Set stores key in the current generation; when the class is full, one old key goes. */
    method Set(key: string, value: string, options: SetOptions, now: int)
      requires Valid(Value())
      modifies this
      ensures Valid(Value())
      ensures Value() == SetTo(old(Value()), key, value, Expiry(old(Value()), options, now))
      ensures Stored(segments, currentChecksum, key) && segments[currentChecksum][key].value == value
      ensures segments[currentChecksum][key].expiry ==
        if options.noExpiry then TtlMap.NEVER else now + if options.ttl.Some? then options.ttl.value else ttl
      ensures Surviving(Value()) ==>
        Flat(Value()) == TtlMap.Put(old(Flat(Value())), key, value, Expiry(old(Value()), options, now))
    {
      ghost var m := Value();
      SetLocked(key, value, options, now);
      SetKeyByKey(m, key, value, Expiry(m, options, now), m.current, key);
      KeepSetTo(m, key, value, Expiry(m, options, now));
      if uncycled && maxItems <= 0 { FlatSetTo(m, key, value, Expiry(m, options, now)); }
    }

    method SetLocked(key: string, value: string, options: SetOptions, now: int)
      modifies this
      ensures Value() == SetTo(old(Value()), key, value, Expiry(old(Value()), options, now))
    {
      if currentChecksum !in segments {
        segments := segments[currentChecksum := map[]];
      }
      assert Value() == WithCurrent(old(Value()));
      var life := if options.ttl.Some? then options.ttl.value else ttl;
      var expiry := if options.noExpiry then TtlMap.NEVER else now + life;
      var seg := segments[currentChecksum];
      if key in seg {
        var entry := seg[key].(value := value, expiry := expiry);
        lru := ToFront(lru, Element(entry.element, key));
        segments := segments[currentChecksum := seg[key := entry]];
      } else {
        if maxItems > 0 && |lru| >= maxItems && |lru| > 0 {
          EvictBack();
        }
        lru := [Element(nextId, key)] + lru;
        segments := segments[currentChecksum := segments[currentChecksum][key := Entry(value, expiry, nextId)]];
        nextId := nextId + 1;
      }
    }

    method EvictBack()
      requires lru != []
      modifies this
      ensures Value() == EvictedBack(old(Value()))
    {
      var back := lru[|lru| - 1];
      lru := lru[..|lru| - 1];
      var rest := segments.Keys;
      ghost var was := segments;
      while rest != {}
        invariant rest <= was.Keys
        invariant segments == map g | g in was :: if g in rest then was[g] else was[g] - {back.key}
        invariant Value() == old(EvictedBack(Value())).(segments := segments)
        decreases |rest|
      {
        var g :| g in rest;
        rest := rest - {g};
        segments := segments[g := segments[g] - {back.key}];
      }
    }

    /** Update: fn sees the current generation's live entry only, and nothing interleaves. */
    method Update(key: string, fn: (string, bool) -> (string, bool), options: SetOptions, now: int)
      returns (wrote: bool)
      requires Valid(Value())
      modifies this
      ensures Valid(Value())
      ensures var m := old(Value());
        var found := Stored(m.segments, m.current, key) && now <= m.segments[m.current][key].expiry;
        var next := fn(if found then m.segments[m.current][key].value else "", found);
        wrote == next.1 && Value() == if wrote then SetTo(m, key, next.0, Expiry(m, options, now)) else m
    {
      var found := currentChecksum in segments && key in segments[currentChecksum]
                   && now <= segments[currentChecksum][key].expiry;
      var next := fn(if found then segments[currentChecksum][key].value else "", found);
      wrote := next.1;
      if wrote { Set(key, next.0, options, now); }
    }

    /** lookupLocked: the two-generation walk of Get and GetAndDelete. */
    method Lookup(key: string, evict: bool, now: int) returns (value: string, found: bool, isCurrent: bool)
      requires Valid(Value())
      modifies this
      ensures Valid(Value())
      ensures forall g | Home(old(Value()), g, key) ::
        var m := old(Value());
        && found == (now <= m.segments[g][key].expiry)
        && (found ==> value == m.segments[g][key].value && isCurrent == (g == m.current))
        && Value() == if !found then m else if evict then Removed(m, g, key) else Touched(m, g, key)
      ensures (forall g :: !Home(old(Value()), g, key)) ==> !found && Value() == old(Value())
      ensures !found ==> value == "" && isCurrent
      ensures Surviving(Value()) ==>
        && TtlMap.Get(old(Flat(Value())), now, key) == (if found then TtlMap.Found(value) else TtlMap.Missing)
        && Flat(Value()) == if evict then TtlMap.Take(old(Flat(Value())), now, key) else old(Flat(Value()))
    {
      ghost var m := Value();
      if currentChecksum in segments && key in segments[currentChecksum] {
        assert Home(m, currentChecksum, key);
        value, found, isCurrent := Answer(currentChecksum, key, evict, now);
        return;
      }
      var rest := segments.Keys;
      while rest != {}
        invariant rest <= segments.Keys && Value() == m
        invariant forall g | g in segments && g !in rest :: key !in segments[g]
        decreases |rest|
      {
        var g :| g in rest;
        rest := rest - {g};
        if g != currentChecksum && key in segments[g] {
          assert Home(m, g, key);
          value, found, isCurrent := Answer(g, key, evict, now);
          return;
        }
      }
      value, found, isCurrent := "", false, true;
    }

    /** The answer from the generation that has the key. */
    method Answer(g: string, key: string, evict: bool, now: int) returns (value: string, found: bool, isCurrent: bool)
      requires Valid(Value()) && Home(Value(), g, key)
      modifies this
      ensures Valid(Value())
      ensures found == (now <= old(segments)[g][key].expiry)
      ensures found ==> value == old(segments)[g][key].value && isCurrent == (g == old(currentChecksum))
      ensures !found ==> value == "" && isCurrent
      ensures Value() == if !found then old(Value())
                         else if evict then Removed(old(Value()), g, key) else Touched(old(Value()), g, key)
      ensures Surviving(Value()) ==>
        && TtlMap.Get(old(Flat(Value())), now, key) == (if found then TtlMap.Found(value) else TtlMap.Missing)
        && Flat(Value()) == if evict then TtlMap.Take(old(Flat(Value())), now, key) else old(Flat(Value()))
    {
      ghost var m := Value();
      KeepRemoved(m, g, key);
      KeepTouched(m, g, key);
      if uncycled && maxItems <= 0 { OnlyHome(m, g, key); FlatRemoved(m, key); }
      var entry := segments[g][key];
      if now > entry.expiry {
        return "", false, true;
      }
      if evict {
        lru := Drop(lru, {entry.element});
        segments := segments[g := segments[g] - {key}];
      } else {
        lru := ToFront(lru, Element(entry.element, key));
      }
      return entry.value, true, g == currentChecksum;
    }

    /** DecrementIfPositive, in whichever generation holds a live counter. */
    method DecrementIfPositive(key: string, now: int) returns (left: int, ok: bool)
      requires Valid(Value())
      modifies this
      ensures Valid(Value())
      ensures forall g | CounterHome(old(Value()), g, key, now) ::
        var m := old(Value());
        var v := m.segments[g][key].value;
        && ok == Positive(v)
        && (ok ==> left == Parse(v).value - 1 && Value() == Rewritten(m, g, key, Format(left)))
      ensures (forall g :: !CounterHome(old(Value()), g, key, now)) ==> !ok
      ensures !ok ==> left == -1 && Value() == old(Value())
      ensures Surviving(Value()) ==>
        left == TtlMap.Decremented(old(Flat(Value())), now, key)
        && Flat(Value()) == TtlMap.Decrement(old(Flat(Value())), now, key)
    {
      ghost var m := Value();
      ghost var home: Option<string>;
      left, ok, home := WalkDecrement(key, now);
      if home.Some? { SoleCounterHome(m, home.value, key, now); }
      if ok { KeepRewrite(m, home.value, key, Format(left), m.segments[home.value][key].expiry); }
      if uncycled && maxItems <= 0 { FlatDecrement(m, home, key, now); }
    }

    method WalkDecrement(key: string, now: int) returns (left: int, ok: bool, ghost home: Option<string>)
      modifies this
      ensures home.Some? ==> CounterHome(old(Value()), home.value, key, now)
      ensures home.None? ==> forall g :: !CounterHome(old(Value()), g, key, now)
      ensures ok == (home.Some? && Positive(old(segments)[home.value][key].value))
      ensures ok ==> left == Parse(old(segments)[home.value][key].value).value - 1
                     && Value() == Rewritten(old(Value()), home.value, key, Format(left))
      ensures !ok ==> left == -1 && Value() == old(Value())
    {
      ghost var m := Value();
      var handled := false;
      if currentChecksum in segments {
        left, ok, handled := TryDecrement(currentChecksum, key, now);
        if handled { return left, ok, Some(m.current); }
      }
      var rest := segments.Keys;
      while rest != {}
        invariant rest <= segments.Keys && Value() == m
        invariant forall g | g in segments && (g !in rest || g == currentChecksum) :: !CounterHome(m, g, key, now)
        decreases |rest|
      {
        var g :| g in rest;
        rest := rest - {g};
        if g != currentChecksum {
          left, ok, handled := TryDecrement(g, key, now);
          if handled { return left, ok, Some(g); }
        }
      }
      return -1, false, None;
    }

    method TryDecrement(g: string, key: string, now: int) returns (left: int, ok: bool, handled: bool)
      requires g in segments
      requires g == currentChecksum || !CounterHome(Value(), currentChecksum, key, now)
      modifies this
      ensures handled == CounterHome(old(Value()), g, key, now)
      ensures ok == (handled && Positive(old(segments)[g][key].value))
      ensures ok ==> left == Parse(old(segments)[g][key].value).value - 1
                     && Value() == Rewritten(old(Value()), g, key, Format(left))
      ensures !ok ==> left == -1 && Value() == old(Value())
    {
      if key !in segments[g] || now > segments[g][key].expiry {
        return -1, false, false;
      }
      var entry := segments[g][key];
      if Parse(entry.value).NotANumber? || Parse(entry.value).value <= 0 {
        return -1, false, true;
      }
      left := Parse(entry.value).value - 1;
      segments := segments[g := segments[g][key := entry.(value := Format(left))]];
      lru := ToFront(lru, Element(entry.element, key));
      return left, true, true;
    }

    method Delete(key: string)
      requires Valid(Value())
      modifies this
      ensures Valid(Value()) && Value() == Deleted(old(Value()), key)
      ensures Surviving(Value()) ==> Flat(Value()) == TtlMap.Remove(old(Flat(Value())), key)
    {
      ghost var m := Value();
      KeepDeleted(m, key);
      if uncycled && maxItems <= 0 { FlatDeleted(m, key); }
      DeleteEverywhere(key);
    }

    method DeleteEverywhere(key: string)
      modifies this
      ensures Value() == Deleted(old(Value()), key)
    {
      var rest := segments.Keys;
      while rest != {}
        invariant rest <= segments.Keys
        invariant forall g | g in segments && g !in rest :: key !in segments[g]
        invariant Deleted(Value(), key) == old(Deleted(Value(), key))
        decreases |rest|
      {
        var g :| g in rest;
        rest := rest - {g};
        if key in segments[g] {
          DeletedAbsorbs(Value(), g, key);
          RemoveEntry(g, key);
        }
      }
      DeletedNothing(Value(), key);
    }

    method RemoveEntry(g: string, key: string)
      requires Stored(segments, g, key)
      modifies this
      ensures Value() == Removed(old(Value()), g, key)
    {
      lru := Drop(lru, {segments[g][key].element});
      segments := segments[g := segments[g] - {key}];
    }

    /** The reaper's sweep: exactly the expired entries go, with their elements. */
    method Reap(now: int)
      requires Valid(Value())
      modifies this
      ensures Valid(Value()) && Value() == Reaped(old(Value()), now)
      ensures Surviving(Value()) ==> Flat(Value()) == TtlMap.Reap(old(Flat(Value())), now)
    {
      ghost var m := Value();
      KeepReaped(m, now);
      if uncycled && maxItems <= 0 { FlatReaped(m, now); }
      ReapEverywhere(now);
    }

    method ReapEverywhere(now: int)
      modifies this
      ensures Value() == Reaped(old(Value()), now)
    {
      var rest := segments.Keys;
      while rest != {}
        invariant rest <= segments.Keys
        invariant forall g, k | g in segments && g !in rest && k in segments[g] :: now <= segments[g][k].expiry
        invariant Reaped(Value(), now) == old(Reaped(Value(), now))
        decreases |rest|
      {
        var g :| g in rest;
        rest := rest - {g};
        var keys := segments[g].Keys;
        while keys != {}
          invariant rest <= segments.Keys && g in segments && keys <= segments[g].Keys
          invariant forall h, k | h in segments && h !in rest && h != g && k in segments[h] :: now <= segments[h][k].expiry
          invariant forall k | k in segments[g] && k !in keys :: now <= segments[g][k].expiry
          invariant Reaped(Value(), now) == old(Reaped(Value(), now))
          decreases |keys|
        {
          var k :| k in keys;
          keys := keys - {k};
          if now > segments[g][k].expiry {
            ReapedAbsorbs(Value(), g, k, now);
            RemoveEntry(g, k);
          }
        }
      }
      ReapedNothing(Value(), now);
    }

    /** Cycle: the surviving scope has one generation, which nothing moves. */
    method Cycle(checksum: string, force: bool)
      requires Valid(Value())
      modifies this
      ensures Valid(Value()) && Value() == Cycled(old(Value()), checksum, force)
      ensures uncycled ==> Value() == old(Value())
    {
      KeepCycled(Value(), checksum, force);
      CycleLocked(checksum, force);
    }

    method CycleLocked(checksum: string, force: bool)
      modifies this
      ensures Value() == Cycled(old(Value()), checksum, force)
    {
      if uncycled || (!force && currentChecksum == checksum) { return; }
      var oldChecksum := currentChecksum;
      currentChecksum := checksum;
      if checksum !in segments { segments := segments[checksum := map[]]; }
      segments := KeptGenerations(segments, checksum, oldChecksum, force);
    }
  }

  /** The sweep over the generations: the current one stays, and unless forced the one before. */
  method KeptGenerations(all: Segments, checksum: string, oldChecksum: string, force: bool) returns (segments: Segments)
    ensures segments == map g | g in all && (g == checksum || (!force && g == oldChecksum)) :: all[g]
  {
    segments := all;
    var rest := all.Keys;
    while rest != {}
      invariant rest <= all.Keys
      invariant forall g :: g in segments <==> g in all && (g in rest || g == checksum || (!force && g == oldChecksum))
      invariant forall g | g in segments :: segments[g] == all[g]
      decreases |rest|
    {
      var g :| g in rest;
      rest := rest - {g};
      if g != checksum && (force || g != oldChecksum) {
        segments := segments - {g};
      }
    }
  }
}
