/** What a surviving (Uncycled) cache class without an item bound is to its callers: one
    map whose entries expire. Both backends are proved against it. */
module TtlMap {
  import opened Decimal

  /** The expiry of an entry written without one: year 9999. */
  const NEVER: int := 253_370_764_800_000_000_000

  datatype Item = Item(value: string, expiry: int)
  type Map = map<string, Item>

  datatype Found = Found(value: string) | Missing

  predicate Live(m: Map, now: int, key: string) {
    key in m && now <= m[key].expiry
  }

  function Get(m: Map, now: int, key: string): Found {
    if Live(m, now, key) then Found(m[key].value) else Missing
  }

  function Put(m: Map, key: string, value: string, expiry: int): Map {
    m[key := Item(value, expiry)]
  }

  function Remove(m: Map, key: string): Map { m - {key} }

  /** Taking a live entry; an expired one is left for the reaper. */
  function Take(m: Map, now: int, key: string): Map {
    if Live(m, now, key) then m - {key} else m
  }

  /** The count left at a live, positive decimal counter after one decrement. */
  function Decremented(m: Map, now: int, key: string): (r: int)
    ensures r >= -1
    ensures r >= 0 <==> Live(m, now, key) && Positive(m[key].value)
  {
    if Live(m, now, key) && Positive(m[key].value) then Parse(m[key].value).value - 1 else -1
  }

  function Decrement(m: Map, now: int, key: string): Map {
    var n := Decremented(m, now, key);
    if n >= 0 then m[key := m[key].(value := Format(n))] else m
  }

  function Reap(m: Map, now: int): Map {
    map k | k in m && now <= m[k].expiry :: m[k]
  }

  /** One expired entry goes; a live one does not. */
  function Expire(m: Map, now: int, key: string): Map {
    if key in m && !Live(m, now, key) then m - {key} else m
  }

  // ------------------------------------------------------------ runs and budgets

  /** The operations of a class, each at the time its caller's clock shows. */
  datatype Op =
    | DoGet(key: string, now: int)
    | DoPut(key: string, value: string, expiry: int)
    | DoRemove(key: string)
    | DoTake(key: string, now: int)
    | DoDecrement(key: string, now: int)
    | DoReap(now: int)
    | DoExpire(key: string, now: int)
    | DoCycle

  function Apply(m: Map, op: Op): Map {
    match op
    case DoGet(_, _) => m
    case DoPut(k, v, e) => Put(m, k, v, e)
    case DoRemove(k) => Remove(m, k)
    case DoTake(k, now) => Take(m, now, k)
    case DoDecrement(k, now) => Decrement(m, now, k)
    case DoReap(now) => Reap(m, now)
    case DoExpire(k, now) => Expire(m, now, k)
    case DoCycle => m
  }

  function Run(m: Map, ops: seq<Op>): Map
    decreases |ops|
  {
    if ops == [] then m else Run(Apply(m, ops[0]), ops[1..])
  }

  predicate Succeeds(m: Map, op: Op, key: string) {
    op.DoDecrement? && op.key == key && Decremented(m, op.now, key) >= 0
  }

  /** How many decrements of key succeed along ops. */
  function Spent(m: Map, ops: seq<Op>, key: string): nat
    decreases |ops|
  {
    if ops == [] then 0
    else (if Succeeds(m, ops[0], key) then 1 else 0) + Spent(Apply(m, ops[0]), ops[1..], key)
  }

  /** A counter set to budget is decremented successfully at most budget times, whatever
      else happens to the class and whatever the clocks show, until it is set again. */
  lemma {:induction false} BudgetHolds(m: Map, ops: seq<Op>, key: string, budget: nat)
    requires budget <= MAX_INT64
    requires key in m ==> m[key].value == Format(budget)
    requires forall i | 0 <= i < |ops| :: ops[i].DoPut? ==> ops[i].key != key
    ensures Spent(m, ops, key) <= if key in m then budget else 0
    decreases |ops|
  {
    if ops != [] {
      ParseOfFormat(budget);
      BudgetHolds(Apply(m, ops[0]), ops[1..], key, if Succeeds(m, ops[0], key) then budget - 1 else budget);
    }
  }
}
