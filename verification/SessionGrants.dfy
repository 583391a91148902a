/** The session-grant refresh: a shared generation key that every membership mutation
    bumps, a shared cache of projected grants keyed by generation and subject, and in each
    replica one coalesced resolve per key. Every cache call is a step of its own. */
module SessionGrants {
  import opened Decimal
  import opened Text

  const SECOND: int := 1_000_000_000
  const GRANT_TTL: int := 60 * SECOND
  const GENERATION_TTL: int := 24 * 3600 * SECOND

  /** The longest a cached grant can live: sixty seconds and fifteen percent. */
  const LONGEST_GRANT: int := 69 * SECOND

  /** The life of one grant, from a draw of the unit interval. */
  function JitteredTtl(draw: real): (ttl: int)
    requires 0.0 <= draw < 1.0
    ensures 51 * SECOND <= ttl <= LONGEST_GRANT
  {
    (GRANT_TTL as real * (1.0 + (draw * 2.0 - 1.0) * 0.15)).Floor
  }

  // ------------------------------------------------------------ keys

  /** A generation token: the process's nonce, a dash and its counter. */
  function Token(nonce: string, n: nat): string { nonce + "-" + FormatNat(n) }

  function CacheKey(generation: string, subject: string): string { generation + "|" + subject }

  /** Tokens of different bumps differ, and none is the empty generation; and a cache key
      names one generation and one subject, whatever the subject. */
  lemma KeysAreUnique(n1: string, c1: nat, s1: string, n2: string, c2: nat, s2: string)
    requires '-' !in n1 && '-' !in n2 && '|' !in n1 && '|' !in n2
    ensures Token(n1, c1) != ""
    ensures Token(n1, c1) == Token(n2, c2) <==> n1 == n2 && c1 == c2
    ensures CacheKey(Token(n1, c1), s1) == CacheKey(Token(n2, c2), s2) <==> n1 == n2 && c1 == c2 && s1 == s2
    ensures CacheKey(Token(n1, c1), s1) != CacheKey("", s2)
    ensures CacheKey("", s1) == CacheKey("", s2) <==> s1 == s2
  {
    if Token(n1, c1) == Token(n2, c2) {
      SplitOnce('-', n1, FormatNat(c1), n2, FormatNat(c2));
      DigitsOfFormat(c1);
      DigitsOfFormat(c2);
    }
    assert '|' !in Token(n1, c1) && '|' !in Token(n2, c2);
    if CacheKey(Token(n1, c1), s1) == CacheKey(Token(n2, c2), s2) {
      SplitOnce('|', Token(n1, c1), s1, Token(n2, c2), s2);
    }
    if CacheKey(Token(n1, c1), s1) == CacheKey("", s2) {
      SplitOnce('|', Token(n1, c1), s1, "", s2);
      assert false;
    }
    if CacheKey("", s1) == CacheKey("", s2) { SplitOnce('|', "", s1, "", s2); }
  }

  // ------------------------------------------------------------ state

  /** flightBound: the longest one resolve takes, from its first read to its last write. */
  datatype Config = Config(flightBound: nat)

  predicate Sound(c: Config) { c.flightBound + LONGEST_GRANT <= GENERATION_TTL }

  /** A generation as a reader sees it: none, or the token of the n-th bump. */
  datatype Gen = NoGen | Bumped(n: nat)

  datatype Key = Key(gen: Gen, subject: string)

  /** A grant: whose it is, and how many bumps were in force, and what time it was, when its
      resolve began. */
  datatype Grant = Grant(subject: string, epoch: nat, resolvedAt: int)

  datatype Cached = Cached(grant: Grant, expiry: int)

  datatype Stage = Resolving | Storing | Landed(ok: bool)

  datatype Flight = Flight(replica: nat, key: Key, grant: Grant, stage: Stage)

  /** Where an overlay came from. */
  datatype Origin = FromCache | FromFlight(flight: nat)

  /** A request. readOk: its generation read did not fail; floor: the bumps in force then. */
  datatype Phase =
    | Arrived
    | Looking(key: Key)
    | Missed(key: Key)
    | Waiting(flight: nat, joinedAt: int)
    | Overlaid(grant: Grant, decidedAt: int, from: Origin)
    | Frozen(flight: nat)

  datatype Request = Request(replica: nat, subject: string, readOk: bool, floor: nat, phase: Phase)

  /** bumps and lastBump: how many bumps reached the generation key, and when the last did. */
  datatype State = State(
    now: int, bumps: nat, lastBump: int,
    generation: Gen,
    grants: map<Key, Cached>,
    flights: map<nat, Flight>,
    requests: map<nat, Request>)

  datatype Action =
    | Tick(d: nat)
    | Bump
    | ExpireGeneration
    | DropGrant(key: Key)
    | Arrive(r: nat, replica: nat, subject: string)
    | ReadGeneration(r: nat, ok: bool)
    | LookUp(r: nat, ok: bool)
    | Lead(r: nat, f: nat)
    | Join(r: nat, f: nat)
    | Resolve(f: nat, ok: bool)
    | Store(f: nat, ok: bool, draw: real)
    | Take(r: nat)

  /** The generation key is written with its own TTL, counted from the last bump. */
  predicate GenerationLive(s: State) {
    s.generation.Bumped? && s.now <= s.lastBump + GENERATION_TTL
  }

  predicate InFlight(f: Flight) { !f.stage.Landed? }

  /** No resolve outlasts the bound. */
  ghost predicate MayTick(c: Config, s: State, d: nat) {
    forall f :: f in s.flights && InFlight(s.flights[f]) ==> s.now + d <= s.flights[f].grant.resolvedAt + c.flightBound
  }

  predicate Busy(s: State, replica: nat, key: Key) {
    exists f | f in s.flights :: InFlight(s.flights[f]) && s.flights[f].replica == replica && s.flights[f].key == key
  }

  function With(s: State, r: nat, phase: Phase): State
    requires r in s.requests
  {
    s.(requests := s.requests[r := s.requests[r].(phase := phase)])
  }

  function DoRead(s: State, r: nat, ok: bool): State
    requires r in s.requests
  {
    var q := s.requests[r];
    var gen := if ok && GenerationLive(s) then s.generation else NoGen;
    s.(requests := s.requests[r := q.(readOk := ok, floor := s.bumps, phase := Looking(Key(gen, q.subject)))])
  }

  function DoLookUp(s: State, r: nat, ok: bool): State
    requires r in s.requests && s.requests[r].phase.Looking?
  {
    var key := s.requests[r].phase.key;
    if ok && key in s.grants && s.now <= s.grants[key].expiry then With(s, r, Overlaid(s.grants[key].grant, s.now, FromCache))
    else With(s, r, Missed(key))
  }

  /** The first to miss resolves, from the bumps in force now. */
  function DoLead(s: State, r: nat, f: nat): State
    requires r in s.requests && s.requests[r].phase.Missed?
  {
    var q := s.requests[r];
    With(s, r, Waiting(f, s.now)).(
      flights := s.flights[f := Flight(q.replica, q.phase.key, Grant(q.phase.key.subject, s.bumps, s.now), Resolving)])
  }

  function DoStore(s: State, f: nat, ok: bool, draw: real): State
    requires f in s.flights && 0.0 <= draw < 1.0
  {
    var fl := s.flights[f];
    var landed := s.(flights := s.flights[f := fl.(stage := Landed(true))]);
    if ok then landed.(grants := s.grants[fl.key := Cached(fl.grant, s.now + JitteredTtl(draw))]) else landed
  }

  function DoTake(s: State, r: nat): State
    requires r in s.requests && s.requests[r].phase.Waiting?
  {
    var w := s.requests[r].phase;
    if w.flight !in s.flights || !s.flights[w.flight].stage.Landed? then s
    else if s.flights[w.flight].stage.ok then With(s, r, Overlaid(s.flights[w.flight].grant, w.joinedAt, FromFlight(w.flight)))
    else With(s, r, Frozen(w.flight))
  }

  /** One step; an action that is not enabled changes nothing. */
  ghost function Apply(c: Config, s: State, a: Action): State {
    match a
    case Tick(d) => if MayTick(c, s, d) then s.(now := s.now + d) else s
    case Bump => s.(bumps := s.bumps + 1, lastBump := s.now, generation := Bumped(s.bumps + 1))
    case ExpireGeneration => if GenerationLive(s) then s else s.(generation := NoGen)
    case DropGrant(key) => s.(grants := s.grants - {key})
    case Arrive(r, replica, subject) =>
      if r in s.requests then s else s.(requests := s.requests[r := Request(replica, subject, false, 0, Arrived)])
    case ReadGeneration(r, ok) =>
      if r in s.requests && s.requests[r].phase.Arrived? then DoRead(s, r, ok) else s
    case LookUp(r, ok) =>
      if r in s.requests && s.requests[r].phase.Looking? then DoLookUp(s, r, ok) else s
    case Lead(r, f) =>
      if r in s.requests && s.requests[r].phase.Missed? && f !in s.flights
         && !Busy(s, s.requests[r].replica, s.requests[r].phase.key)
      then DoLead(s, r, f) else s
    case Join(r, f) =>
      if r in s.requests && s.requests[r].phase.Missed? && f in s.flights && InFlight(s.flights[f])
         && s.flights[f].replica == s.requests[r].replica && s.flights[f].key == s.requests[r].phase.key
      then With(s, r, Waiting(f, s.now)) else s
    case Resolve(f, ok) =>
      if f in s.flights && s.flights[f].stage.Resolving?
      then s.(flights := s.flights[f := s.flights[f].(stage := if ok then Storing else Landed(false))]) else s
    case Store(f, ok, draw) =>
      if f in s.flights && s.flights[f].stage.Storing? && 0.0 <= draw < 1.0 then DoStore(s, f, ok, draw) else s
    case Take(r) =>
      if r in s.requests && s.requests[r].phase.Waiting? then DoTake(s, r) else s
  }

  ghost function Run(c: Config, s: State, acts: seq<Action>): State
    decreases |acts|
  {
    if acts == [] then s else Run(c, Apply(c, s, acts[0]), acts[1..])
  }

  function Start(now: int): State { State(now, 0, now, NoGen, map[], map[], map[]) }

  // ------------------------------------------------------------ invariant

  /** A key written under the n-th bump's token holds what was resolved since, for its own
      subject. */
  predicate SinceKey(key: Key, g: Grant) {
    g.subject == key.subject && (key.gen.Bumped? ==> key.gen.n <= g.epoch)
  }

  predicate FlightOk(c: Config, now: int, bumps: nat, lastBump: int, f: Flight) {
    && SinceKey(f.key, f.grant) && f.grant.epoch <= bumps && f.grant.resolvedAt <= now
    && (f.grant.epoch < bumps ==> f.grant.resolvedAt <= lastBump)
    && (InFlight(f) ==> now <= f.grant.resolvedAt + c.flightBound)
  }

  predicate CachedOk(c: Config, now: int, bumps: nat, lastBump: int, key: Key, e: Cached) {
    && SinceKey(key, e.grant) && e.grant.epoch <= bumps && e.grant.resolvedAt <= now
    && (e.grant.epoch < bumps ==> e.grant.resolvedAt <= lastBump)
    && e.expiry <= e.grant.resolvedAt + c.flightBound + LONGEST_GRANT
  }

  predicate ClockOk(s: State) {
    && s.lastBump <= s.now
    && (s.generation.Bumped? ==> s.generation.n == s.bumps)
    && (s.generation.NoGen? ==> s.bumps == 0 || s.lastBump + GENERATION_TTL < s.now)
  }

  ghost predicate FlightsOk(c: Config, s: State) {
    forall f {:trigger s.flights[f]} :: f in s.flights ==> FlightOk(c, s.now, s.bumps, s.lastBump, s.flights[f])
  }

  ghost predicate GrantsOk(c: Config, s: State) {
    forall k {:trigger s.grants[k]} :: k in s.grants ==> CachedOk(c, s.now, s.bumps, s.lastBump, k, s.grants[k])
  }

  /** Nothing a request could still pick up under key was resolved before floor. */
  ghost predicate Covers(now: int, grants: map<Key, Cached>, flights: map<nat, Flight>, key: Key, floor: nat) {
    && (key in grants && now <= grants[key].expiry ==> floor <= grants[key].grant.epoch)
    && forall f {:trigger flights[f]} :: f in flights && InFlight(flights[f]) && flights[f].key == key ==> floor <= flights[f].grant.epoch
  }

  predicate Issued(bumps: nat, key: Key) { key.gen.Bumped? ==> key.gen.n <= bumps }

  ghost predicate RequestOk(c: Config, now: int, bumps: nat, grants: map<Key, Cached>, flights: map<nat, Flight>, q: Request) {
    && q.floor <= bumps
    && match q.phase
       case Arrived => true
       case Looking(key) => Asks(bumps, q, key) && (q.readOk ==> Covers(now, grants, flights, key, q.floor))
       case Missed(key) => Asks(bumps, q, key) && (q.readOk ==> Covers(now, grants, flights, key, q.floor))
       case Waiting(f, joinedAt) =>
         && Boarded(flights, q, f) && (q.readOk ==> q.floor <= flights[f].grant.epoch)
         && joinedAt <= flights[f].grant.resolvedAt + c.flightBound
       case Frozen(f) => Boarded(flights, q, f) && flights[f].stage == Landed(false)
       case Overlaid(g, decidedAt, from) =>
         && g.subject == q.subject && (q.readOk ==> q.floor <= g.epoch)
         && decidedAt <= g.resolvedAt + c.flightBound + LONGEST_GRANT
         && (from.FromFlight? ==> Boarded(flights, q, from.flight) && flights[from.flight].stage == Landed(true) && g == flights[from.flight].grant)
  }

  /** A request asks for its own subject, under a generation there has been. */
  predicate Asks(bumps: nat, q: Request, key: Key) { key.subject == q.subject && Issued(bumps, key) }

  /** A request waits for, or was answered by, a resolve of its own replica and subject. */
  predicate Boarded(flights: map<nat, Flight>, q: Request, f: nat) {
    f in flights && flights[f].replica == q.replica && flights[f].key.subject == q.subject
  }

  ghost predicate RequestsOk(c: Config, s: State) {
    forall r {:trigger s.requests[r]} :: r in s.requests ==>
      RequestOk(c, s.now, s.bumps, s.grants, s.flights, s.requests[r])
  }

  /** One resolve at a time per replica and key. */
  ghost predicate Coalesced(flights: map<nat, Flight>) {
    forall f, g | f in flights && g in flights && InFlight(flights[f]) && InFlight(flights[g]) ::
      flights[f].replica == flights[g].replica && flights[f].key == flights[g].key ==> f == g
  }

  ghost predicate Inv(c: Config, s: State) {
    Sound(c) && ClockOk(s) && FlightsOk(c, s) && GrantsOk(c, s) && RequestsOk(c, s) && Coalesced(s.flights)
  }

  /** What an error-free read of the generation promises. This is where the generation's
      life has to exceed a resolve and the longest grant. */
  lemma ReadCovers(c: Config, s: State, subject: string)
    requires Inv(c, s)
    ensures Covers(s.now, s.grants, s.flights, Key(if GenerationLive(s) then s.generation else NoGen, subject), s.bumps)
  {
  }

  lemma KeepTick(c: Config, s: State, d: nat)
    requires Inv(c, s) && MayTick(c, s, d)
    ensures Inv(c, s.(now := s.now + d))
  {
  }

  lemma KeepBump(c: Config, s: State)
    requires Inv(c, s)
    ensures Inv(c, Apply(c, s, Bump))
  {
  }

  /** A step that only moves one request. */
  lemma KeepRequest(c: Config, s: State, r: nat, q: Request)
    requires Inv(c, s) && RequestOk(c, s.now, s.bumps, s.grants, s.flights, q)
    ensures Inv(c, s.(requests := s.requests[r := q]))
  {
  }

  /** A step that only moves one flight forward. */
  lemma KeepStage(c: Config, s: State, f: nat, stage: Stage)
    requires Inv(c, s) && f in s.flights && InFlight(s.flights[f])
    ensures Inv(c, s.(flights := s.flights[f := s.flights[f].(stage := stage)]))
  {
  }

  /** A new resolve starts from the bumps in force, so it breaks nobody's floor. */
  lemma KeepNewFlight(c: Config, s: State, f: nat, replica: nat, key: Key)
    requires Inv(c, s) && f !in s.flights && !Busy(s, replica, key)
    requires Issued(s.bumps, key)
    ensures Inv(c, s.(flights := s.flights[f := Flight(replica, key, Grant(key.subject, s.bumps, s.now), Resolving)]))
  {
  }

  /** Storing what a resolve still in flight found. */
  lemma KeepStored(c: Config, s: State, f: nat, ttl: int)
    requires Inv(c, s) && f in s.flights && InFlight(s.flights[f]) && ttl <= LONGEST_GRANT
    ensures Inv(c, s.(grants := s.grants[s.flights[f].key := Cached(s.flights[f].grant, s.now + ttl)]))
  {
  }

  lemma KeepDrop(c: Config, s: State, key: Key)
    requires Inv(c, s)
    ensures Inv(c, s.(grants := s.grants - {key}))
  {
  }

  lemma KeepReadAndLookUp(c: Config, s: State, r: nat, ok: bool)
    requires Inv(c, s) && r in s.requests
    ensures s.requests[r].phase.Arrived? ==> Inv(c, DoRead(s, r, ok))
    ensures s.requests[r].phase.Looking? ==> Inv(c, DoLookUp(s, r, ok))
  {
    var q := s.requests[r];
    assert RequestOk(c, s.now, s.bumps, s.grants, s.flights, q);
    if q.phase.Arrived? {
      ReadCovers(c, s, q.subject);
      KeepRequest(c, s, r, DoRead(s, r, ok).requests[r]);
    } else if q.phase.Looking? {
      assert q.phase.key in s.grants ==> CachedOk(c, s.now, s.bumps, s.lastBump, q.phase.key, s.grants[q.phase.key]);
      KeepRequest(c, s, r, DoLookUp(s, r, ok).requests[r]);
    }
  }

  lemma KeepLead(c: Config, s: State, r: nat, f: nat)
    requires Inv(c, s) && r in s.requests && s.requests[r].phase.Missed? && f !in s.flights
    requires !Busy(s, s.requests[r].replica, s.requests[r].phase.key)
    ensures Inv(c, DoLead(s, r, f))
  {
    var q := s.requests[r];
    assert RequestOk(c, s.now, s.bumps, s.grants, s.flights, q);
    KeepNewFlight(c, s, f, q.replica, q.phase.key);
    var s1 := s.(flights := s.flights[f := Flight(q.replica, q.phase.key, Grant(q.phase.key.subject, s.bumps, s.now), Resolving)]);
    KeepRequest(c, s1, r, q.(phase := Waiting(f, s.now)));
    assert s1.(requests := s1.requests[r := q.(phase := Waiting(f, s.now))]) == DoLead(s, r, f);
  }

  lemma KeepJoinAndTake(c: Config, s: State, r: nat, f: nat)
    requires Inv(c, s) && r in s.requests
    ensures Inv(c, Apply(c, s, Join(r, f))) && Inv(c, Apply(c, s, Take(r)))
  {
    var q := s.requests[r];
    assert RequestOk(c, s.now, s.bumps, s.grants, s.flights, q);
    if q.phase.Missed? && f in s.flights && InFlight(s.flights[f]) && s.flights[f].replica == q.replica && s.flights[f].key == q.phase.key {
      assert FlightOk(c, s.now, s.bumps, s.lastBump, s.flights[f]);
      KeepRequest(c, s, r, q.(phase := Waiting(f, s.now)));
    }
    if q.phase.Waiting? && s.flights[q.phase.flight].stage.Landed? {
      KeepRequest(c, s, r, DoTake(s, r).requests[r]);
    }
  }

  lemma KeepStore(c: Config, s: State, f: nat, ok: bool, draw: real)
    requires Inv(c, s) && f in s.flights && InFlight(s.flights[f]) && 0.0 <= draw < 1.0
    ensures Inv(c, DoStore(s, f, ok, draw))
  {
    var s1 := if ok then s.(grants := s.grants[s.flights[f].key := Cached(s.flights[f].grant, s.now + JitteredTtl(draw))]) else s;
    KeepStored(c, s, f, JitteredTtl(draw));
    KeepStage(c, s1, f, Landed(true));
    assert s1.(flights := s1.flights[f := s1.flights[f].(stage := Landed(true))]) == DoStore(s, f, ok, draw);
  }

  lemma KeepApply(c: Config, s: State, a: Action)
    requires Inv(c, s)
    ensures Inv(c, Apply(c, s, a))
  {
    match a
    case Tick(d) => if MayTick(c, s, d) { KeepTick(c, s, d); }
    case Bump => KeepBump(c, s);
    case ExpireGeneration =>
    case DropGrant(key) => KeepDrop(c, s, key);
    case Arrive(r, replica, subject) =>
      if r !in s.requests { KeepRequest(c, s, r, Request(replica, subject, false, 0, Arrived)); }
    case ReadGeneration(r, ok) => if r in s.requests { KeepReadAndLookUp(c, s, r, ok); }
    case LookUp(r, ok) => if r in s.requests { KeepReadAndLookUp(c, s, r, ok); }
    case Lead(r, f) =>
      if r in s.requests && s.requests[r].phase.Missed? && f !in s.flights
         && !Busy(s, s.requests[r].replica, s.requests[r].phase.key) { KeepLead(c, s, r, f); }
    case Join(r, f) => if r in s.requests { KeepJoinAndTake(c, s, r, f); }
    case Resolve(f, ok) =>
      if f in s.flights && s.flights[f].stage.Resolving? { KeepStage(c, s, f, if ok then Storing else Landed(false)); }
    case Store(f, ok, draw) =>
      if f in s.flights && s.flights[f].stage.Storing? && 0.0 <= draw < 1.0 { KeepStore(c, s, f, ok, draw); }
    case Take(r) => if r in s.requests { KeepJoinAndTake(c, s, r, 0); }
  }

  lemma {:induction false} KeepRun(c: Config, s: State, acts: seq<Action>)
    requires Inv(c, s)
    ensures Inv(c, Run(c, s, acts))
    decreases |acts|
  {
    if acts != [] {
      KeepApply(c, s, acts[0]);
      KeepRun(c, Apply(c, s, acts[0]), acts[1..]);
    }
  }

  // ------------------------------------------------------------ theorems

  /** In every run, over any number of replicas: a request whose generation read did not fail
      is overlaid with a grant whose resolve began under at least the bumps in force at that
      read, though the generation key expire and though other requests' reads fail. Any
      request's overlay was resolved at most a resolve and the longest grant ago. And a
      replica runs one resolve at a time per key. */
  lemma OverlaysAreCurrent(c: Config, now: int, acts: seq<Action>)
    requires Sound(c)
    ensures var s := Run(c, Start(now), acts);
      && Coalesced(s.flights)
      && forall r :: r in s.requests && s.requests[r].phase.Overlaid? ==>
           var q := s.requests[r];
           && (q.readOk ==> q.floor <= q.phase.grant.epoch)
           && q.phase.decidedAt <= q.phase.grant.resolvedAt + c.flightBound + LONGEST_GRANT
  {
    KeepRun(c, Start(now), acts);
  }

  /** In every run: a request is left as its token was only if the resolve it waited for
      failed; one answered by a resolve has exactly that resolve's grant, and the resolve
      succeeded; and whatever a request is overlaid with is its own subject's. */
  lemma AnswersFollowResolves(c: Config, now: int, acts: seq<Action>, r: nat)
    requires Sound(c) && r in Run(c, Start(now), acts).requests
    ensures var s := Run(c, Start(now), acts);
      var q := s.requests[r];
      && (q.phase.Frozen? ==> Boarded(s.flights, q, q.phase.flight) && s.flights[q.phase.flight].stage == Landed(false))
      && (q.phase.Overlaid? ==> q.phase.grant.subject == q.subject)
      && (q.phase.Overlaid? && q.phase.from.FromFlight? ==>
            && Boarded(s.flights, q, q.phase.from.flight)
            && s.flights[q.phase.from.flight].stage == Landed(true) && q.phase.grant == s.flights[q.phase.from.flight].grant)
  {
    KeepRun(c, Start(now), acts);
  }

  /** And a request that waited for a resolve which has landed is overlaid with its grant if it
      succeeded, and left as it was if it failed. */
  lemma WaitingIsAnswered(c: Config, now: int, acts: seq<Action>, r: nat)
    requires Sound(c)
    requires var s := Run(c, Start(now), acts);
      r in s.requests && s.requests[r].phase.Waiting? && s.requests[r].phase.flight in s.flights
      && s.flights[s.requests[r].phase.flight].stage.Landed?
    ensures var s := Run(c, Start(now), acts);
      var f := s.requests[r].phase.flight;
      var q' := Apply(c, s, Take(r)).requests[r];
      && (q'.phase.Frozen? <==> s.flights[f].stage == Landed(false))
      && (q'.phase.Overlaid? <==> s.flights[f].stage == Landed(true))
      && (q'.phase.Overlaid? ==> q'.phase.grant == s.flights[f].grant && q'.phase.grant.subject == q'.subject)
  {
    KeepRun(c, Start(now), acts);
  }

  // ------------------------------------------------------- undisturbed requests

  lemma RunCons(c: Config, s: State, a: Action, rest: seq<Action>)
    ensures Run(c, s, [a] + rest) == Run(c, Apply(c, s, a), rest)
  {
    assert ([a] + rest)[1..] == rest;
  }

  /** The key a request of subject looks under when its generation read does not fail. */
  function KeyNow(s: State, subject: string): Key {
    Key(if s.generation.Bumped? && s.now <= s.lastBump + GENERATION_TTL then s.generation else NoGen, subject)
  }

  function Ask(r: nat, replica: nat, subject: string): seq<Action> {
    [Arrive(r, replica, subject)] + ([ReadGeneration(r, true)] + ([LookUp(r, true)] + []))
  }

  /** An arriving request whose reads do not fail looks under the generation in force and its
      own subject, and is overlaid from the cache if and only if a live grant is there. */
  lemma ArrivalLooksUp(c: Config, s: State, r: nat, replica: nat, subject: string)
    requires r !in s.requests
    ensures var key := KeyNow(s, subject);
      Run(c, s, Ask(r, replica, subject))
      == s.(requests := s.requests[r := Request(replica, subject, true, s.bumps,
           if key in s.grants && s.now <= s.grants[key].expiry then Overlaid(s.grants[key].grant, s.now, FromCache) else Missed(key))])
  {
    RunCons(c, s, Arrive(r, replica, subject), [ReadGeneration(r, true)] + ([LookUp(r, true)] + []));
    var s1 := Apply(c, s, Arrive(r, replica, subject));
    RunCons(c, s1, ReadGeneration(r, true), [LookUp(r, true)] + []);
    var s2 := Apply(c, s1, ReadGeneration(r, true));
    assert s2.requests == s.requests[r := Request(replica, subject, true, s.bumps, Looking(KeyNow(s, subject)))];
    RunCons(c, s2, LookUp(r, true), []);
    var s3 := Apply(c, s2, LookUp(r, true));
    assert s3.requests == s.requests[r := s3.requests[r]];
  }

  function Resolution(r: nat, f: nat, draw: real): seq<Action> {
    [Lead(r, f)] + ([Resolve(f, true)] + ([Store(f, true, draw)] + ([Take(r)] + [])))
  }

  /** A request that finds nothing cached and nobody resolving is overlaid with what is resolved
      for its subject now, under every bump in force; and the grant is cached for the others,
      for 51 to 69 seconds. */
  lemma ColdRequestIsResolved(c: Config, s: State, r: nat, f: nat, draw: real)
    requires r in s.requests && s.requests[r].phase.Missed? && f !in s.flights && 0.0 <= draw < 1.0
    requires !Busy(s, s.requests[r].replica, s.requests[r].phase.key)
    ensures var key := s.requests[r].phase.key;
      var s' := Run(c, s, Resolution(r, f, draw));
      && r in s'.requests && s'.requests[r].phase == Overlaid(Grant(key.subject, s.bumps, s.now), s.now, FromFlight(f))
      && key in s'.grants && s'.grants[key].grant == Grant(key.subject, s.bumps, s.now)
      && s.now + 51 * SECOND <= s'.grants[key].expiry <= s.now + 69 * SECOND
  {
    RunCons(c, s, Lead(r, f), [Resolve(f, true)] + ([Store(f, true, draw)] + ([Take(r)] + [])));
    var s1 := Apply(c, s, Lead(r, f));
    RunCons(c, s1, Resolve(f, true), [Store(f, true, draw)] + ([Take(r)] + []));
    var s2 := Apply(c, s1, Resolve(f, true));
    assert s2.flights[f].stage == Storing && s2.requests[r].phase == Waiting(f, s.now);
    RunCons(c, s2, Store(f, true, draw), [Take(r)] + []);
    var s3 := Apply(c, s2, Store(f, true, draw));
    assert s3.flights[f].stage == Landed(true);
    RunCons(c, s3, Take(r), []);
  }

  /** A request that finds a resolve of its key under way on its replica joins it; one whose
      resolve fails keeps its frozen token. */
  lemma BusyRequestJoins(c: Config, s: State, r: nat, f: nat)
    requires r in s.requests && s.requests[r].phase.Missed? && f in s.flights && InFlight(s.flights[f])
    requires s.flights[f].replica == s.requests[r].replica && s.flights[f].key == s.requests[r].phase.key
    ensures Apply(c, s, Join(r, f)).requests[r].phase == Waiting(f, s.now)
    ensures s.flights[f].stage.Resolving? ==>
      var s' := Run(c, s, [Join(r, f)] + ([Resolve(f, false)] + ([Take(r)] + [])));
      r in s'.requests && s'.requests[r].phase == Frozen(f)
  {
    RunCons(c, s, Join(r, f), [Resolve(f, false)] + ([Take(r)] + []));
    var s1 := Apply(c, s, Join(r, f));
    RunCons(c, s1, Resolve(f, false), [Take(r)] + []);
    var s2 := Apply(c, s1, Resolve(f, false));
    RunCons(c, s2, Take(r), []);
  }

  lemma {:induction false} RunSnoc(c: Config, s: State, acts: seq<Action>, a: Action)
    ensures Run(c, s, acts + [a]) == Apply(c, Run(c, s, acts), a)
    decreases |acts|
  {
    if acts == [] {
      assert Run(c, Apply(c, s, a), []) == Apply(c, s, a);
    } else {
      assert (acts + [a])[1..] == acts[1..] + [a];
      RunSnoc(c, Apply(c, s, acts[0]), acts[1..], a);
    }
  }

  lemma Extend(c: Config, acts: seq<Action>, s: State, a: Action) returns (acts': seq<Action>, s': State)
    requires s == Run(c, Start(0), acts)
    ensures s' == Apply(c, s, a) == Run(c, Start(0), acts')
  {
    RunSnoc(c, Start(0), acts, a);
    acts', s' := acts + [a], Apply(c, s, a);
  }

  /** One request has resolved and stored a grant under the empty generation. */
  lemma StoredBeforeAnyBump(c: Config, subject: string) returns (acts: seq<Action>, s: State)
    ensures s == Run(c, Start(0), acts)
    ensures s.now == 0 && s.bumps == 0 && s.requests.Keys == {0}
    ensures s.grants == map[Key(NoGen, subject) := Cached(Grant(subject, 0, 0), JitteredTtl(0.5))]
  {
    acts, s := [], Start(0);
    acts, s := Extend(c, acts, s, Arrive(0, 0, subject));
    acts, s := Extend(c, acts, s, ReadGeneration(0, true));
    acts, s := Extend(c, acts, s, LookUp(0, true));
    assert s.requests[0].phase == Missed(Key(NoGen, subject));
    acts, s := Extend(c, acts, s, Lead(0, 0));
    acts, s := Extend(c, acts, s, Resolve(0, true));
    assert s.flights[0] == Flight(0, Key(NoGen, subject), Grant(subject, 0, 0), Storing);
    acts, s := Extend(c, acts, s, Store(0, true, 0.5));
  }

  /** Where it fails: a request whose generation read failed looks under the empty generation
      and can be overlaid with a grant resolved before a bump in force at its read. */
  lemma FailedReadCanBeStale(c: Config, subject: string)
    ensures exists acts :: var s := Run(c, Start(0), acts);
      1 in s.requests && !s.requests[1].readOk && s.requests[1].phase.Overlaid?
      && s.requests[1].phase.grant.epoch < s.requests[1].floor
  {
    var acts, s := StoredBeforeAnyBump(c, subject);
    acts, s := Extend(c, acts, s, Bump);
    acts, s := Extend(c, acts, s, Arrive(1, 0, subject));
    acts, s := Extend(c, acts, s, ReadGeneration(1, false));
    assert s.requests[1] == Request(0, subject, false, 1, Looking(Key(NoGen, subject)));
    acts, s := Extend(c, acts, s, LookUp(1, true));
    assert s.requests[1].phase == Overlaid(Grant(subject, 0, 0), 0, FromCache);
  }

  // ------------------------------------------------------------ overlay

  const OVERLAID: seq<string> := ["roles", "entitlements"]

  /** What the refresh makes of one claim of a session. */
  function OverlaidClaim<V>(ac: map<string, V>, projected: map<string, V>, scopes: seq<string>, claim: string): map<string, V> {
    if claim in scopes && claim in projected then ac[claim := projected[claim]] else ac - {claim}
  }

  function OverlaidClaims<V>(ac: map<string, V>, projected: map<string, V>, scopes: seq<string>): map<string, V> {
    OverlaidClaim(OverlaidClaim(ac, projected, scopes, "roles"), projected, scopes, "entitlements")
  }

  /** A session's claims, which the refresh edits in place. */
  class Session<V> {
    var claims: map<string, V>

    constructor (claims: map<string, V>)
      ensures this.claims == claims
    {
      this.claims := claims;
    }

    /** overlayScopedClaims. */
    method OverlayScopedClaims(projected: map<string, V>, scopes: seq<string>)
      modifies this
      ensures claims == OverlaidClaims(old(claims), projected, scopes)
    {
      for i := 0 to |OVERLAID|
        invariant i == 0 ==> claims == old(claims)
        invariant i == 1 ==> claims == OverlaidClaim(old(claims), projected, scopes, "roles")
        invariant i == 2 ==> claims == OverlaidClaims(old(claims), projected, scopes)
      {
        var claim := OVERLAID[i];
        claims := claims - {claim};
        if claim in scopes && claim in projected { claims := claims[claim := projected[claim]]; }
      }
    }
  }

  /** The overlay touches roles and entitlements alone, shows them exactly when the token's
      scope covers them and the projection has them, and replaces rather than adds: the
      claims it found do not matter, and a later overlay erases an earlier one. */
  lemma OverlayNarrows<V>(ac: map<string, V>, stale: map<string, V>, projected: map<string, V>, scopes: seq<string>, claim: string)
    ensures var r := OverlaidClaims(ac, projected, scopes);
      && (claim !in OVERLAID ==> (claim in r <==> claim in ac) && (claim in ac ==> r[claim] == ac[claim]))
      && (claim in OVERLAID ==> (claim in r <==> claim in scopes && claim in projected)
                                && (claim in r ==> r[claim] == projected[claim]))
      && OverlaidClaims(OverlaidClaims(ac, stale, scopes), projected, scopes) == r
  {
  }
}
