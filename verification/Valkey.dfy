/** The Valkey cache: every replica's handle on one shared server, which it reads and
    writes under a prefix naming host, class and generation. */
module Valkey {
  import opened Decimal
  import opened Text
  import TtlMap

  const SURVIVING_GENERATION: string := "0"

  datatype Option<+T> = None | Some(value: T)
  datatype VEntry = VEntry(value: string, px: Option<int>)

  class Server {
    var store: map<string, VEntry>
    constructor () ensures store == map[] { store := map[]; }
  }

  function Prefix(host: string, cacheClass: string, generation: string): string {
    "{" + host + ":" + cacheClass + ":" + generation + "}:"
  }

  /** No two classes, hosts or generations share a key, where their names hold none of the
      characters the prefix is put together with. */
  lemma PrefixesAreDisjoint(h1: string, c1: string, g1: string, k1: string, h2: string, c2: string, g2: string, k2: string)
    requires ':' !in h1 && ':' !in h2 && ':' !in c1 && ':' !in c2 && '}' !in g1 && '}' !in g2
    ensures Prefix(h1, c1, g1) + k1 == Prefix(h2, c2, g2) + k2 <==> h1 == h2 && c1 == c2 && g1 == g2 && k1 == k2
  {
    if Prefix(h1, c1, g1) + k1 == Prefix(h2, c2, g2) + k2 {
      var r1, r2 := g1 + ['}'] + (":" + k1), g2 + ['}'] + (":" + k2);
      var s1, s2 := c1 + [':'] + r1, c2 + [':'] + r2;
      assert Prefix(h1, c1, g1) + k1 == "{" + (h1 + [':'] + s1) && Prefix(h2, c2, g2) + k2 == "{" + (h2 + [':'] + s2);
      assert ("{" + (h1 + [':'] + s1))[1..] == h1 + [':'] + s1 && ("{" + (h2 + [':'] + s2))[1..] == h2 + [':'] + s2;
      SplitOnce(':', h1, s1, h2, s2);
      SplitOnce(':', c1, r1, c2, r2);
      SplitOnce('}', g1, ":" + k1, g2, ":" + k2);
      assert (":" + k1)[1..] == k1 && (":" + k2)[1..] == k2;
    }
  }

  /** A key past its PX is gone to every command. */
  predicate Live(store: map<string, VEntry>, fullKey: string, now: int) {
    fullKey in store && (store[fullKey].px.None? || now <= store[fullKey].px.value)
  }

  function Expires(e: VEntry): int {
    if e.px.None? then TtlMap.NEVER else e.px.value
  }

  /** The keys stored under a prefix, without it. */
  function KeysUnder(store: map<string, VEntry>, prefix: string): set<string> {
    set fullKey | fullKey in store && prefix <= fullKey :: fullKey[|prefix|..]
  }

  lemma UnderPrefix(store: map<string, VEntry>, prefix: string)
    ensures forall k :: k in KeysUnder(store, prefix) <==> prefix + k in store
  {
    forall k ensures k in KeysUnder(store, prefix) <==> prefix + k in store {
      assert (prefix + k)[|prefix|..] == k;
      if k in KeysUnder(store, prefix) {
        var f :| f in store && prefix <= f && f[|prefix|..] == k;
        assert f == prefix + k;
      }
    }
  }

  /** The one map a surviving class is: what the server holds under its prefix. */
  function Flat(store: map<string, VEntry>, prefix: string): TtlMap.Map {
    map k | k in KeysUnder(store, prefix) && prefix + k in store ::
      TtlMap.Item(store[prefix + k].value, Expires(store[prefix + k]))
  }

  lemma FlatAt(store: map<string, VEntry>, prefix: string, key: string)
    ensures key in Flat(store, prefix) <==> prefix + key in store
    ensures prefix + key in store ==>
      Flat(store, prefix)[key] == TtlMap.Item(store[prefix + key].value, Expires(store[prefix + key]))
  {
    UnderPrefix(store, prefix);
  }

  lemma PrefixInjective(prefix: string, k: string, key: string)
    ensures prefix + k == prefix + key <==> k == key
  {
    assert (prefix + k)[|prefix|..] == k && (prefix + key)[|prefix|..] == key;
  }

  lemma FlatPut(store: map<string, VEntry>, prefix: string, key: string, e: VEntry)
    ensures Flat(store[prefix + key := e], prefix) == TtlMap.Put(Flat(store, prefix), key, e.value, Expires(e))
  {
    var store' := store[prefix + key := e];
    forall k ensures k in Flat(store', prefix) <==> k in TtlMap.Put(Flat(store, prefix), key, e.value, Expires(e)) {
      FlatAt(store, prefix, k);
      FlatAt(store', prefix, k);
      PrefixInjective(prefix, k, key);
    }
    forall k | k in Flat(store', prefix) && k != key ensures Flat(store', prefix)[k] == Flat(store, prefix)[k] {
      PrefixInjective(prefix, k, key);
      FlatAt(store, prefix, k);
      FlatAt(store', prefix, k);
    }
  }

  lemma FlatRemove(store: map<string, VEntry>, prefix: string, key: string)
    ensures Flat(store - {prefix + key}, prefix) == TtlMap.Remove(Flat(store, prefix), key)
  {
    var store' := store - {prefix + key};
    forall k ensures k in Flat(store', prefix) <==> k in TtlMap.Remove(Flat(store, prefix), key) {
      FlatAt(store, prefix, k);
      FlatAt(store', prefix, k);
      PrefixInjective(prefix, k, key);
    }
    forall k | k in Flat(store', prefix) ensures Flat(store', prefix)[k] == Flat(store, prefix)[k] {
      PrefixInjective(prefix, k, key);
      FlatAt(store, prefix, k);
      FlatAt(store', prefix, k);
    }
  }

  /** Exactly the text FormatInt writes, which is what the server's DECR accepts. */
  predicate Canonical(v: string) {
    Parse(v).Parsed? && Format(Parse(v).value) == v
  }

  /** Counters as the host writes them stay in the text both backends decrement. */
  lemma FormatIsCanonical(n: int)
    requires -MAX_INT64 - 1 <= n <= MAX_INT64
    ensures Canonical(Format(n))
  {
    ParseOfFormat(n);
  }

  /** A counter the script decrements. */
  predicate Counts(store: map<string, VEntry>, fullKey: string, now: int) {
    Live(store, fullKey, now) && Canonical(store[fullKey].value) && Positive(store[fullKey].value)
  }

  /** A text on which the script and the in-memory decrement agree. */
  predicate Agrees(v: string) { Positive(v) ==> Canonical(v) }

  // ------------------------------------------------------------------ runs

  /** The commands of a surviving class, the server's own expiry of a key, and what others
      write outside the class's prefix. */
  datatype Op =
    | OpSet(key: string, value: string, px: Option<int>)
    | OpGet(key: string, now: int)
    | OpGetAndDelete(key: string, now: int)
    | OpDelete(key: string)
    | OpDecrement(key: string, now: int)
    | OpExpire(key: string, now: int)
    | OpCycle
    | Foreign(fullKey: string, entry: Option<VEntry>)

  function ApplyOp(prefix: string, store: map<string, VEntry>, op: Op): map<string, VEntry> {
    match op
    case OpSet(k, v, px) => store[prefix + k := VEntry(v, px)]
    case OpGet(_, _) => store
    case OpGetAndDelete(k, now) => if Live(store, prefix + k, now) then store - {prefix + k} else store
    case OpDelete(k) => store - {prefix + k}
    case OpDecrement(k, now) =>
      if Counts(store, prefix + k, now)
      then store[prefix + k := store[prefix + k].(value := Format(Parse(store[prefix + k].value).value - 1))] else store
    case OpExpire(k, now) => if prefix + k in store && !Live(store, prefix + k, now) then store - {prefix + k} else store
    case OpCycle => store
    case Foreign(f, e) => if prefix <= f then store else if e.Some? then store[f := e.value] else store - {f}
  }

  function RunOps(prefix: string, store: map<string, VEntry>, ops: seq<Op>): map<string, VEntry>
    decreases |ops|
  {
    if ops == [] then store else RunOps(prefix, ApplyOp(prefix, store, ops[0]), ops[1..])
  }

  function PlainOp(op: Op): TtlMap.Op {
    match op
    case OpSet(k, v, px) => TtlMap.DoPut(k, v, Expires(VEntry(v, px)))
    case OpGet(k, now) => TtlMap.DoGet(k, now)
    case OpGetAndDelete(k, now) => TtlMap.DoTake(k, now)
    case OpDelete(k) => TtlMap.DoRemove(k)
    case OpDecrement(k, now) => TtlMap.DoDecrement(k, now)
    case OpExpire(k, now) => TtlMap.DoExpire(k, now)
    case OpCycle => TtlMap.DoCycle
    case Foreign(_, _) => TtlMap.DoCycle
  }

  function PlainOps(ops: seq<Op>): (plain: seq<TtlMap.Op>)
    ensures |plain| == |ops| && forall i :: 0 <= i < |ops| ==> plain[i] == PlainOp(ops[i])
  {
    if ops == [] then [] else [PlainOp(ops[0])] + PlainOps(ops[1..])
  }

  /** Before the year 9999, which stands for no expiry. */
  predicate InTime(op: Op) {
    (op.OpGet? || op.OpGetAndDelete? || op.OpDecrement? || op.OpExpire?) ==> op.now <= TtlMap.NEVER
  }

  /** Every value under the prefix is one both decrements agree on. */
  predicate AllAgree(prefix: string, store: map<string, VEntry>) {
    forall f | f in store && prefix <= f :: Agrees(store[f].value)
  }

  lemma KeepAgree(prefix: string, store: map<string, VEntry>, op: Op)
    requires AllAgree(prefix, store) && (op.OpSet? ==> Agrees(op.value))
    ensures AllAgree(prefix, ApplyOp(prefix, store, op))
  {
    if op.OpDecrement? && Counts(store, prefix + op.key, op.now) {
      FormatIsCanonical(Parse(store[prefix + op.key].value).value - 1);
    }
  }

  /** m is what the class holds: key by key, what the store holds under the prefix. */
  ghost predicate Shows(prefix: string, store: map<string, VEntry>, m: TtlMap.Map) {
    forall k {:trigger k in m} :: ShowsAt(prefix, store, m, k)
  }

  predicate ShowsAt(prefix: string, store: map<string, VEntry>, m: TtlMap.Map, k: string) {
    && (k in m <==> prefix + k in store)
    && (k in m ==> m[k] == TtlMap.Item(store[prefix + k].value, Expires(store[prefix + k])))
  }

  lemma FlatShows(prefix: string, store: map<string, VEntry>)
    ensures Shows(prefix, store, Flat(store, prefix))
  {
    forall k ensures ShowsAt(prefix, store, Flat(store, prefix), k) { FlatAt(store, prefix, k); }
  }

  lemma ShownIsFlat(prefix: string, store: map<string, VEntry>, m: TtlMap.Map)
    requires Shows(prefix, store, m)
    ensures m == Flat(store, prefix)
  {
    FlatShows(prefix, store);
    forall k ensures k in m <==> k in Flat(store, prefix) {
      assert ShowsAt(prefix, store, m, k) && ShowsAt(prefix, store, Flat(store, prefix), k);
    }
    forall k | k in m ensures m[k] == Flat(store, prefix)[k] {
      assert ShowsAt(prefix, store, m, k) && ShowsAt(prefix, store, Flat(store, prefix), k);
    }
  }

  lemma ShowsPut(prefix: string, store: map<string, VEntry>, m: TtlMap.Map, key: string, e: VEntry)
    requires Shows(prefix, store, m)
    ensures Shows(prefix, store[prefix + key := e], m[key := TtlMap.Item(e.value, Expires(e))])
  {
    var store', m' := store[prefix + key := e], m[key := TtlMap.Item(e.value, Expires(e))];
    forall k ensures ShowsAt(prefix, store', m', k) {
      PrefixInjective(prefix, k, key);
      assert ShowsAt(prefix, store, m, k);
    }
  }

  lemma ShowsRemove(prefix: string, store: map<string, VEntry>, m: TtlMap.Map, key: string)
    requires Shows(prefix, store, m)
    ensures Shows(prefix, store - {prefix + key}, m - {key})
  {
    var store', m' := store - {prefix + key}, m - {key};
    forall k ensures ShowsAt(prefix, store', m', k) {
      PrefixInjective(prefix, k, key);
      assert ShowsAt(prefix, store, m, k);
    }
  }

  lemma ShowsForeign(prefix: string, store: map<string, VEntry>, m: TtlMap.Map, op: Op)
    requires Shows(prefix, store, m) && op.Foreign?
    ensures Shows(prefix, ApplyOp(prefix, store, op), m)
  {
    forall k ensures ShowsAt(prefix, ApplyOp(prefix, store, op), m, k) {
      assert prefix <= prefix + k && ShowsAt(prefix, store, m, k);
    }
  }

  /** A command of the class is the plain map's operation. */
  lemma Refines(prefix: string, store: map<string, VEntry>, m: TtlMap.Map, op: Op)
    requires Shows(prefix, store, m) && InTime(op)
    requires op.OpDecrement? && prefix + op.key in store ==> Agrees(store[prefix + op.key].value)
    ensures Shows(prefix, ApplyOp(prefix, store, op), TtlMap.Apply(m, PlainOp(op)))
    ensures op.OpDecrement? ==> (Counts(store, prefix + op.key, op.now) <==> TtlMap.Decremented(m, op.now, op.key) >= 0)
  {
    if op.Foreign? {
      ShowsForeign(prefix, store, m, op);
    } else if !op.OpCycle? {
      var k := op.key;
      assert ShowsAt(prefix, store, m, k);
      match op
      case OpSet(_, v, px) => ShowsPut(prefix, store, m, k, VEntry(v, px));
      case OpDecrement(_, now) =>
        if Counts(store, prefix + k, now) {
          var e := store[prefix + k];
          ShowsPut(prefix, store, m, k, e.(value := Format(Parse(e.value).value - 1)));
        }
      case _ => ShowsRemove(prefix, store, m, k);
    }
  }

  /** How many decrements of key succeed along ops. */
  function Spent(prefix: string, store: map<string, VEntry>, ops: seq<Op>, key: string): nat
    decreases |ops|
  {
    if ops == [] then 0
    else
      (if ops[0].OpDecrement? && ops[0].key == key && Counts(store, prefix + key, ops[0].now) then 1 else 0)
      + Spent(prefix, ApplyOp(prefix, store, ops[0]), ops[1..], key)
  }

  /** Over every run of commands, Cycles, server expiries and others' writes, a surviving class
      is the plain map the memory backend is, wherever its values are ones both decrements
      agree on: the same contents, and the same decrements succeed. */
  lemma RunRefinesPlainMap(prefix: string, store: map<string, VEntry>, ops: seq<Op>, key: string)
    requires AllAgree(prefix, store)
    requires forall i | 0 <= i < |ops| :: InTime(ops[i]) && (ops[i].OpSet? ==> Agrees(ops[i].value))
    ensures Flat(RunOps(prefix, store, ops), prefix) == TtlMap.Run(Flat(store, prefix), PlainOps(ops))
    ensures Spent(prefix, store, ops, key) == TtlMap.Spent(Flat(store, prefix), PlainOps(ops), key)
  {
    FlatShows(prefix, store);
    RunShows(prefix, store, Flat(store, prefix), ops, key);
    ShownIsFlat(prefix, RunOps(prefix, store, ops), TtlMap.Run(Flat(store, prefix), PlainOps(ops)));
  }

  lemma {:induction false} RunShows(prefix: string, store: map<string, VEntry>, m: TtlMap.Map, ops: seq<Op>, key: string)
    requires AllAgree(prefix, store) && Shows(prefix, store, m)
    requires forall i | 0 <= i < |ops| :: InTime(ops[i]) && (ops[i].OpSet? ==> Agrees(ops[i].value))
    ensures Shows(prefix, RunOps(prefix, store, ops), TtlMap.Run(m, PlainOps(ops)))
    ensures Spent(prefix, store, ops, key) == TtlMap.Spent(m, PlainOps(ops), key)
    decreases |ops|
  {
    if ops != [] {
      KeepAgree(prefix, store, ops[0]);
      Refines(prefix, store, m, ops[0]);
      RunShows(prefix, ApplyOp(prefix, store, ops[0]), TtlMap.Apply(m, PlainOp(ops[0])), ops[1..], key);
      assert PlainOps(ops)[1..] == PlainOps(ops[1..]);
    }
  }

  /** A counter on the server that was set to budget is decremented successfully at most that
      often until it is set again, whatever text other keys hold. */
  lemma {:induction false} ServerBudget(prefix: string, store: map<string, VEntry>, ops: seq<Op>, key: string, budget: nat)
    requires budget <= MAX_INT64
    requires prefix + key in store ==> store[prefix + key].value == Format(budget)
    requires forall i | 0 <= i < |ops| :: ops[i].OpSet? ==> ops[i].key != key
    ensures Spent(prefix, store, ops, key) <= if prefix + key in store then budget else 0
    decreases |ops|
  {
    if ops != [] {
      ParseOfFormat(budget);
      var spends := ops[0].OpDecrement? && ops[0].key == key && Counts(store, prefix + key, ops[0].now);
      BudgetStep(prefix, store, ops[0], key);
      ServerBudget(prefix, ApplyOp(prefix, store, ops[0]), ops[1..], key, if spends then budget - 1 else budget);
    }
  }

  /** Other operations do not change the value of key. */
  lemma BudgetStep(prefix: string, store: map<string, VEntry>, op: Op, key: string)
    requires op.OpSet? ==> op.key != key
    ensures var store' := ApplyOp(prefix, store, op);
      prefix + key in store' ==>
        && prefix + key in store
        && store'[prefix + key].value ==
           if op.OpDecrement? && op.key == key && Counts(store, prefix + key, op.now)
           then Format(Parse(store[prefix + key].value).value - 1) else store[prefix + key].value
  {
    if op.OpSet? || op.OpDecrement? { PrefixInjective(prefix, op.key, key); }
  }

  class ValkeyCache {
    const server: Server
    const host: string
    const cacheClass: string
    const uncycled: bool
    const ttl: int
    var prefix: string
    var prevPrefix: string
    var currentChecksum: string

    ghost predicate Valid()
      reads this
    {
      uncycled ==> prefix == Prefix(host, cacheClass, SURVIVING_GENERATION) && prevPrefix == ""
    }

    /** What a caller of a surviving class sees. */
    ghost function View(): TtlMap.Map
      reads this, server
    {
      Flat(server.store, prefix)
    }

    constructor (server: Server, host: string, cacheClass: string, uncycled: bool, ttl: int, managerChecksum: string)
      ensures Valid() && this.server == server && this.uncycled == uncycled && this.ttl == ttl
      ensures prefix == Prefix(host, cacheClass, if uncycled then SURVIVING_GENERATION else managerChecksum)
      ensures prevPrefix == ""
    {
      this.server, this.host, this.cacheClass := server, host, cacheClass;
      this.uncycled, this.ttl := uncycled, ttl;
      var generation := if uncycled then SURVIVING_GENERATION else managerChecksum;
      currentChecksum := generation;
      prefix := Prefix(host, cacheClass, generation);
      prevPrefix := "";
    }

    /** The expiry a write asks for: none, its own TTL or the class default. */
    function Px(withTtl: Option<int>, noExpiry: bool, now: int): Option<int> {
      if noExpiry then None else Some(now + if withTtl.Some? then withTtl.value else ttl)
    }

    method Get(key: string, now: int) returns (value: string, found: bool, isCurrent: bool)
      requires Valid()
      ensures isCurrent <==> !found || Live(server.store, prefix + key, now)
      ensures found <==> Live(server.store, prefix + key, now)
                         || (prevPrefix != "" && Live(server.store, prevPrefix + key, now))
      ensures found ==> value == server.store[(if isCurrent then prefix else prevPrefix) + key].value
      ensures uncycled && now <= TtlMap.NEVER ==>
        TtlMap.Get(View(), now, key) == if found then TtlMap.Found(value) else TtlMap.Missing
    {
      FlatAt(server.store, prefix, key);
      if Live(server.store, prefix + key, now) {
        return server.store[prefix + key].value, true, true;
      }
      if prevPrefix != "" && Live(server.store, prevPrefix + key, now) {
        return server.store[prevPrefix + key].value, true, false;
      }
      return "", false, true;
    }

    /** GetAndDelete: one GETDEL per generation, so an entry has one taker. */
    method GetAndDelete(key: string, now: int) returns (value: string, found: bool, isCurrent: bool)
      requires Valid()
      modifies server
      ensures isCurrent <==> !found || Live(old(server.store), prefix + key, now)
      ensures found <==> Live(old(server.store), prefix + key, now)
                         || (prevPrefix != "" && Live(old(server.store), prevPrefix + key, now))
      ensures found ==> value == old(server.store)[(if isCurrent then prefix else prevPrefix) + key].value
      ensures server.store == if found then old(server.store) - {(if isCurrent then prefix else prevPrefix) + key}
                              else old(server.store)
      ensures uncycled ==> server.store == ApplyOp(prefix, old(server.store), OpGetAndDelete(key, now))
      ensures uncycled && now <= TtlMap.NEVER ==>
        && TtlMap.Get(old(View()), now, key) == (if found then TtlMap.Found(value) else TtlMap.Missing)
        && View() == TtlMap.Take(old(View()), now, key)
    {
      FlatAt(server.store, prefix, key);
      FlatRemove(server.store, prefix, key);
      if Live(server.store, prefix + key, now) {
        value := server.store[prefix + key].value;
        server.store := server.store - {prefix + key};
        return value, true, true;
      }
      if prevPrefix != "" && Live(server.store, prevPrefix + key, now) {
        value := server.store[prevPrefix + key].value;
        server.store := server.store - {prevPrefix + key};
        return value, true, false;
      }
      return "", false, true;
    }

    method Set(key: string, value: string, withTtl: Option<int>, noExpiry: bool, now: int)
      requires Valid()
      modifies server
      ensures server.store == old(server.store)[prefix + key := VEntry(value, Px(withTtl, noExpiry, now))]
      ensures server.store == ApplyOp(prefix, old(server.store), OpSet(key, value, Px(withTtl, noExpiry, now)))
      ensures forall t :: Live(server.store, prefix + key, t) <==>
        noExpiry || t <= now + if withTtl.Some? then withTtl.value else ttl
      ensures View() == TtlMap.Put(old(View()), key, value, Expires(VEntry(value, Px(withTtl, noExpiry, now))))
    {
      var e := VEntry(value, Px(withTtl, noExpiry, now));
      FlatPut(server.store, prefix, key, e);
      server.store := server.store[prefix + key := e];
    }

    method Delete(key: string)
      requires Valid()
      modifies server
      ensures server.store == old(server.store) - {prefix + key} - (if prevPrefix != "" then {prevPrefix + key} else {})
      ensures uncycled ==> server.store == ApplyOp(prefix, old(server.store), OpDelete(key))
      ensures uncycled ==> View() == TtlMap.Remove(old(View()), key)
    {
      FlatRemove(server.store, prefix, key);
      server.store := server.store - {prefix + key};
      if prevPrefix != "" {
        server.store := server.store - {prevPrefix + key};
      }
    }

    /** The decrement script, in one EVAL. On a counter as FormatInt writes it, it is the
        map's decrement; on any other text it writes nothing. */
    method DecrementIfPositive(key: string, now: int) returns (left: int, ok: bool)
      requires Valid()
      modifies server
      ensures ok <==> Counts(old(server.store), prefix + key, now)
      ensures !ok ==> left == -1
      ensures server.store == ApplyOp(prefix, old(server.store), OpDecrement(key, now))
      ensures now <= TtlMap.NEVER && (prefix + key in old(server.store) ==> Agrees(old(server.store)[prefix + key].value)) ==>
        left == TtlMap.Decremented(old(View()), now, key) && View() == TtlMap.Decrement(old(View()), now, key)
    {
      FlatAt(server.store, prefix, key);
      if !Live(server.store, prefix + key, now) { return -1, false; }
      var e := server.store[prefix + key];
      if !Canonical(e.value) || !Positive(e.value) { return -1, false; }
      left := Parse(e.value).value - 1;
      FlatPut(server.store, prefix, key, e.(value := Format(left)));
      server.store := server.store[prefix + key := e.(value := Format(left))];
      return left, true;
    }

    /** Cycle: forced or not, the surviving scope does not move. */
    method Cycle(checksum: string, force: bool)
      requires Valid()
      modifies this
      ensures Valid()
      ensures uncycled ==> prefix == old(prefix) && prevPrefix == old(prevPrefix) && View() == old(View())
      ensures !uncycled && (force || old(currentChecksum) != checksum) ==>
        && currentChecksum == checksum && prefix == Prefix(host, cacheClass, checksum)
        && prevPrefix == if force then "" else old(prefix)
      ensures !uncycled && !force && old(currentChecksum) == checksum ==> prefix == old(prefix) && prevPrefix == old(prevPrefix)
    {
      if uncycled { return; }
      if force {
        prevPrefix, currentChecksum, prefix := "", checksum, Prefix(host, cacheClass, checksum);
      } else if currentChecksum != checksum {
        prevPrefix, currentChecksum, prefix := prefix, checksum, Prefix(host, cacheClass, checksum);
      }
    }
  }

  /** Where the backends part: memory decrements a counter written "+5", the server's
      script does not. */
  lemma BackendsDifferOnNonCanonical()
    ensures Positive("+5") && !Canonical("+5") && !Canonical("007") && Positive("007")
  {
    assert Digits("5") == 5 by { assert "5"[..0] == ""; }
    assert "+5"[1..] == "5";
    assert Parse("+5") == Parsed(5);
    assert Format(5) == "5";
    assert Digits("0") == 0 by { assert "0"[..0] == ""; }
    assert Digits("00") == 0 by { assert "00"[..1] == "0"; }
    assert Digits("007") == 7 by { assert "007"[..2] == "00"; }
    assert Parse("007") == Parsed(7);
    assert Format(7) == "7";
  }
}
