/** Refresh-token rotation as a concurrent protocol over atomic caches.

    Any number of redemptions, revocations and code exchanges run at once, on any
    number of replicas sharing the caches. Each cache call is one atomic step; the
    process making it carries a program counter. Apply is total: an action that is
    not possible in a state leaves the state as it is, so a run is any sequence of
    actions. */
module RefreshProtocol {
  import Scopes
  import opened Text

  // Time is in nanoseconds since the epoch.
  const SECOND: int := 1_000_000_000
  const MAX_GRACE_WINDOW: int := 60 * SECOND
  const TOMBSTONE_TTL: int := 300 * SECOND
  const AUTH_CODE_TTL: int := 900 * SECOND
  const GRACE_REPLAY_ATTEMPTS: nat := 10
  const GRACE_FAST_BAILOUT_ATTEMPTS: nat := 3

  type TokenId = nat
  type Pid = nat

  datatype Option<+T> = None | Some(value: T)

  /** A key of the refresh-token cache. Every string a caller can present is some
      number of "revoked:" prefixes before an id rand.Text could have made. */
  datatype Key = Id(token: TokenId) | Tomb(of: Key)

  datatype Record = Record(
    subject: string, client: string, authMethod: string, scope: string,
    issuedAt: int, originalIssuedAt: int, expiresAt: int, predecessor: Option<TokenId>)

  datatype TokenSet = TokenSet(access: string, refresh: TokenId, scope: string, subject: string)

  datatype Value = Rec(rec: Record) | Mark
  datatype Entry = Entry(value: Value, expiry: int)
  datatype GraceEntry = GraceEntry(client: string, result: Option<TokenSet>, expiry: int)

  /** cacheTtl is the refresh class's entry life; graceWindow 0 means no grace cache;
      maxSessionAge 0 means no absolute session bound. */
  datatype Config = Config(refreshTtl: int, cacheTtl: int, graceWindow: int, maxSessionAge: int)

  datatype Outcome =
    | Ok(tokens: TokenSet, replayed: bool, at: int)
    | GrantFailure
    | ServerError
    | OtherError

  datatype RedeemPc =
    | Consume
    | MarkInFlight(rec: Record)
    | Validate(rec: Record)
    | Create(rec: Record, validatedAt: int, access: string)
    | RestoreCheck(rec: Record)
    | RestoreSet(rec: Record, remaining: int)
    | Publish(client: string, tokens: TokenSet)
    | Clear(outcome: Outcome)
    | Poll(attempt: nat, sawInFlight: bool)
    | Recheck
    | Finished(outcome: Outcome)

  datatype RevokePc =
    | RConsume
    | RTombstone(found: Option<Record>)
    | RGraceSelf(found: Option<Record>)
    | RGracePredecessor(found: Option<Record>, selfDeleted: bool)
    | RDone(found: Option<Record>, selfDeleted: bool, predecessorDeleted: bool)

  datatype ExchangePc = XConsume | XMint | XDone(token: Option<TokenId>)

  datatype Process =
    | Redeem(key: Key, client: string, pc: RedeemPc)
    | Revoke(key: Key, rpc: RevokePc)
    | Exchange(jti: nat, xpc: ExchangePc)

  // What was ever issued and minted: history, read by no step of the protocol.
  datatype Issue = Issue(rec: Record, lineage: TokenId)
  datatype Mint = Mint(tokens: TokenSet, minter: Pid, validatedAt: int, publishedAt: Option<int>)
  datatype Origin = ByLogin | ByCode(jti: nat)

  /** issued and minted hold what each token id was issued as and rotated into; tip is
      the newest token of each lineage. */
  datatype History = History(
    issued: map<TokenId, Issue>,
    tip: map<TokenId, TokenId>,
    minted: map<TokenId, Mint>)

  /** The authorization-code cache, with every code ever made and what opened each lineage. */
  datatype CodeBook = CodeBook(live: map<nat, int>, made: set<nat>, origin: map<TokenId, Origin>)

  datatype State = State(
    now: int,
    refresh: map<Key, Entry>,
    grace: map<Key, GraceEntry>,
    codes: CodeBook,
    procs: map<Pid, Process>,
    h: History)

  /** Who a new lineage is for and the scopes it asked for. */
  datatype Grant = Grant(subject: string, client: string, authMethod: string, requested: seq<string>)

  datatype Verdict = Pass | Refuse | Fault | Other

  /** Everything a step does not decide itself: whether its cache call failed, the
      answers of the subject-revocation check and of the other outside checks (client
      lookup, consent, upstream refresh, mint), and what the mint and the random
      source produced. */
  datatype Choice = Choice(fails: bool, revocation: Verdict, outside: Verdict, access: string,
                           newId: TokenId, grant: Grant)

  datatype Action =
    | Tick(d: nat)
    | EvictRefresh(key: Key)
    | EvictGrace(key: Key)
    | EvictCode(jti: nat)
    | Login(grant: Grant, newId: TokenId)
    | IssueCode(jti: nat)
    | BeginRedeem(pid: Pid, key: Key, client: string)
    | BeginRevoke(pid: Pid, key: Key)
    | BeginExchange(pid: Pid, jti: nat)
    | Step(pid: Pid, choice: Choice)

  // ---------------------------------------------------------------- helpers

  function Unix(t: int): int { t / SECOND }

  /** The window NewExchanger runs with: none for a non-positive request, and never
      longer than the ceiling. */
  function ClampGraceWindow(requested: int): (window: int)
    ensures 0 <= window <= MAX_GRACE_WINDOW
    ensures 0 < requested ==> window <= requested
    ensures window == 0 <==> requested <= 0
  {
    if requested <= 0 then 0 else if requested > MAX_GRACE_WINDOW then MAX_GRACE_WINDOW else requested
  }

  /** A cache read: an entry past its expiry is as good as absent. */
  predicate Visible(m: map<Key, Entry>, k: Key, now: int) {
    k in m && now <= m[k].expiry
  }

  predicate GraceVisible(m: map<Key, GraceEntry>, k: Key, now: int) {
    k in m && now <= m[k].expiry
  }

  function SetProc(s: State, p: Pid, pr: Process): State {
    s.(procs := s.procs[p := pr])
  }

  function SetPc(s: State, p: Pid, pr: Process, pc: RedeemPc): State
    requires pr.Redeem?
  {
    SetProc(s, p, pr.(pc := pc))
  }

  /** The record createRefreshToken stores for a rotation of rec, or for a new grant. */
  function Rotated(c: Config, now: int, rec: Record, from: TokenId): Record {
    rec.(issuedAt := Unix(now),
         originalIssuedAt := if rec.originalIssuedAt == 0 then Unix(now) else rec.originalIssuedAt,
         expiresAt := Unix(now + c.refreshTtl),
         predecessor := Some(from))
  }

  function FirstRecord(c: Config, now: int, g: Grant): Record {
    Record(g.subject, g.client, g.authMethod, JoinSpace(Scopes.Granted(g.requested)),
           Unix(now), Unix(now), Unix(now + c.refreshTtl), None)
  }

  /** A login or a code exchange stores the first token of a new lineage, named after it. */
  function OpenLineage(c: Config, s: State, g: Grant, newId: TokenId, o: Origin): State {
    var rec := FirstRecord(c, s.now, g);
    s.(refresh := s.refresh[Id(newId) := Entry(Rec(rec), s.now + c.cacheTtl)],
       h := s.h.(issued := s.h.issued[newId := Issue(rec, newId)],
                 tip := s.h.tip[newId := newId]),
       codes := s.codes.(origin := s.codes.origin[newId := o]))
  }

  // ------------------------------------------------- the steps of a redemption

  function DoConsume(c: Config, s: State, p: Pid, pr: Process, ch: Choice): State
    requires pr.Redeem? && pr.pc.Consume?
  {
    if ch.fails then SetPc(s, p, pr, Finished(ServerError))
    else if Visible(s.refresh, pr.key, s.now) then
      var v := s.refresh[pr.key].value;
      var s1 := s.(refresh := s.refresh - {pr.key});
      match v
      case Rec(rec) => SetPc(s1, p, pr, MarkInFlight(rec))
      case Mark => SetPc(s1, p, pr, Finished(ServerError))
    else SetPc(s, p, pr, if c.graceWindow > 0 then Poll(0, false) else Recheck)
  }

  function DoMark(c: Config, s: State, p: Pid, pr: Process, ch: Choice): State
    requires pr.Redeem? && pr.pc.MarkInFlight?
  {
    var rec := pr.pc.rec;
    var s1 := if c.graceWindow > 0 && !ch.fails
              then s.(grace := s.grace[pr.key := GraceEntry(rec.client, None, s.now + c.graceWindow)])
              else s;
    SetPc(s1, p, pr, Validate(rec))
  }

  function DoValidate(c: Config, s: State, p: Pid, pr: Process, ch: Choice): State
    requires pr.Redeem? && pr.pc.Validate?
  {
    var rec := pr.pc.rec;
    SetPc(s, p, pr,
          if Unix(s.now) > rec.expiresAt then Clear(GrantFailure)
          else if c.maxSessionAge > 0 && s.now - rec.originalIssuedAt * SECOND > c.maxSessionAge then Clear(GrantFailure)
          else if ch.revocation.Refuse? then Clear(GrantFailure)
          else if !ch.revocation.Pass? then RestoreCheck(rec)
          else if rec.client != pr.client then Clear(GrantFailure)
          else match ch.outside
            case Pass => Create(rec, s.now, ch.access)
            case Refuse => Clear(GrantFailure)
            case Fault => RestoreCheck(rec)
            case Other => Clear(OtherError))
  }

  function DoCreate(c: Config, s: State, p: Pid, pr: Process, ch: Choice): State
    requires pr.Redeem? && pr.pc.Create? && pr.key.Id?
  {
    var rec, t := pr.pc.rec, pr.key.token;
    if ch.fails then SetPc(s, p, pr, RestoreCheck(rec))
    else if ch.newId in s.h.issued || t !in s.h.issued then s
    else
      var next := Rotated(c, s.now, rec, t);
      var l := s.h.issued[t].lineage;
      var tokens := TokenSet(pr.pc.access, ch.newId, Scopes.GrantedScope(rec.scope), rec.subject);
      SetPc(s.(refresh := s.refresh[Id(ch.newId) := Entry(Rec(next), s.now + c.cacheTtl)],
               h := s.h.(issued := s.h.issued[ch.newId := Issue(next, l)],
                         tip := s.h.tip[l := ch.newId],
                         minted := s.h.minted[t := Mint(tokens, p, pr.pc.validatedAt, None)])),
            p, pr, Publish(rec.client, tokens))
  }

  function DoPublish(c: Config, s: State, p: Pid, pr: Process, ch: Choice): State
    requires pr.Redeem? && pr.pc.Publish? && pr.key.Id?
  {
    var tokens, t := pr.pc.tokens, pr.key.token;
    if c.graceWindow <= 0 then SetPc(s, p, pr, Finished(Ok(tokens, false, s.now)))
    else if ch.fails || t !in s.h.minted then SetPc(s, p, pr, Clear(Ok(tokens, false, s.now)))
    else
      SetPc(s.(grace := s.grace[pr.key := GraceEntry(pr.pc.client, Some(tokens), s.now + c.graceWindow)],
               h := s.h.(minted := s.h.minted[t := s.h.minted[t].(publishedAt := Some(s.now))])),
            p, pr, Finished(Ok(tokens, false, s.now)))
  }

  function DoRestoreCheck(c: Config, s: State, p: Pid, pr: Process, ch: Choice): State
    requires pr.Redeem? && pr.pc.RestoreCheck?
  {
    var rec := pr.pc.rec;
    var remaining := rec.expiresAt * SECOND - s.now;
    SetPc(s, p, pr,
          if !ch.fails && Visible(s.refresh, Tomb(pr.key), s.now) then Clear(ServerError)
          else if remaining <= 0 then Clear(ServerError)
          else RestoreSet(rec, remaining))
  }

  function DoRestoreSet(c: Config, s: State, p: Pid, pr: Process, ch: Choice): State
    requires pr.Redeem? && pr.pc.RestoreSet?
  {
    var s1 := if ch.fails then s
              else s.(refresh := s.refresh[pr.key := Entry(Rec(pr.pc.rec), s.now + pr.pc.remaining)]);
    SetPc(s1, p, pr, Clear(ServerError))
  }

  function DoClear(c: Config, s: State, p: Pid, pr: Process, ch: Choice): State
    requires pr.Redeem? && pr.pc.Clear?
  {
    var s1 := if c.graceWindow > 0 && !ch.fails then s.(grace := s.grace - {pr.key}) else s;
    SetPc(s1, p, pr, Finished(pr.pc.outcome))
  }

  /** What one read of the grace cache showed a polling caller. */
  datatype Sighting = ReadError | Missing | InFlight | Result(client: string, tokens: TokenSet)

  function Sight(s: State, k: Key, fails: bool): Sighting {
    if fails then ReadError
    else if !GraceVisible(s.grace, k, s.now) then Missing
    else match s.grace[k].result
      case None => InFlight
      case Some(ts) => Result(s.grace[k].client, ts)
  }

  /** What a polling caller does after one read: answer, give up or read again. */
  datatype PollNext = Answer(outcome: Outcome) | GiveUp | Again(sawInFlight: bool)

  function PollDecide(seen: Sighting, client: string, attempt: nat, saw: bool, now: int): PollNext {
    match seen
    case ReadError => Answer(ServerError)
    case Result(owner, tokens) => Answer(if owner == client then Ok(tokens, true, now) else GrantFailure)
    case InFlight => if attempt == GRACE_REPLAY_ATTEMPTS - 1 then GiveUp else Again(true)
    case Missing =>
      if saw || attempt == GRACE_FAST_BAILOUT_ATTEMPTS - 1 || attempt == GRACE_REPLAY_ATTEMPTS - 1
      then GiveUp else Again(saw)
  }

  function DoPoll(c: Config, s: State, p: Pid, pr: Process, ch: Choice): State
    requires pr.Redeem? && pr.pc.Poll?
  {
    SetPc(s, p, pr,
          match PollDecide(Sight(s, pr.key, ch.fails), pr.client, pr.pc.attempt, pr.pc.sawInFlight, s.now)
          case Answer(o) => Finished(o)
          case GiveUp => Recheck
          case Again(saw) => Poll(pr.pc.attempt + 1, saw))
  }

  function DoRecheck(c: Config, s: State, p: Pid, pr: Process, ch: Choice): State
    requires pr.Redeem? && pr.pc.Recheck?
  {
    SetPc(s, p, pr, Finished(if !ch.fails && Visible(s.refresh, pr.key, s.now) then ServerError else GrantFailure))
  }

  function StepRedeem(c: Config, s: State, p: Pid, pr: Process, ch: Choice): State
    requires pr.Redeem?
  {
    match pr.pc
    case Consume => DoConsume(c, s, p, pr, ch)
    case MarkInFlight(_) => DoMark(c, s, p, pr, ch)
    case Validate(_) => DoValidate(c, s, p, pr, ch)
    case Create(_, _, _) => if pr.key.Id? then DoCreate(c, s, p, pr, ch) else s
    case Publish(_, _) => if pr.key.Id? then DoPublish(c, s, p, pr, ch) else s
    case RestoreCheck(_) => DoRestoreCheck(c, s, p, pr, ch)
    case RestoreSet(_, _) => DoRestoreSet(c, s, p, pr, ch)
    case Clear(_) => DoClear(c, s, p, pr, ch)
    case Poll(_, _) => DoPoll(c, s, p, pr, ch)
    case Recheck => DoRecheck(c, s, p, pr, ch)
    case Finished(_) => s
  }

  // ------------------------------------------------- the steps of a revocation

  function RevokeConsume(c: Config, s: State, p: Pid, pr: Process, ch: Choice): State
    requires pr.Revoke? && pr.rpc.RConsume?
  {
    if !ch.fails && Visible(s.refresh, pr.key, s.now) then
      var v := s.refresh[pr.key].value;
      SetProc(s.(refresh := s.refresh - {pr.key}), p,
              pr.(rpc := RTombstone(if v.Rec? then Some(v.rec) else None)))
    else SetProc(s, p, pr.(rpc := RTombstone(None)))
  }

  function RevokeTombstone(c: Config, s: State, p: Pid, pr: Process, ch: Choice): State
    requires pr.Revoke? && pr.rpc.RTombstone?
  {
    var s1 := if ch.fails then s
              else s.(refresh := s.refresh[Tomb(pr.key) := Entry(Mark, s.now + TOMBSTONE_TTL)]);
    SetProc(s1, p, pr.(rpc := if c.graceWindow <= 0 then RDone(pr.rpc.found, true, true)
                              else RGraceSelf(pr.rpc.found)))
  }

  function RevokeGraceSelf(c: Config, s: State, p: Pid, pr: Process, ch: Choice): State
    requires pr.Revoke? && pr.rpc.RGraceSelf?
  {
    var found := pr.rpc.found;
    var s1 := if ch.fails then s else s.(grace := s.grace - {pr.key});
    SetProc(s1, p, pr.(rpc := if found.Some? && found.value.predecessor.Some?
                              then RGracePredecessor(found, !ch.fails) else RDone(found, !ch.fails, true)))
  }

  function RevokeGracePredecessor(c: Config, s: State, p: Pid, pr: Process, ch: Choice): State
    requires pr.Revoke? && pr.rpc.RGracePredecessor?
  {
    var found := pr.rpc.found;
    var s1 := if ch.fails || found.None? || found.value.predecessor.None? then s
              else s.(grace := s.grace - {Id(found.value.predecessor.value)});
    SetProc(s1, p, pr.(rpc := RDone(found, pr.rpc.selfDeleted, !ch.fails)))
  }

  function StepRevoke(c: Config, s: State, p: Pid, pr: Process, ch: Choice): State
    requires pr.Revoke?
  {
    match pr.rpc
    case RConsume => RevokeConsume(c, s, p, pr, ch)
    case RTombstone(_) => RevokeTombstone(c, s, p, pr, ch)
    case RGraceSelf(_) => RevokeGraceSelf(c, s, p, pr, ch)
    case RGracePredecessor(_, _) => RevokeGracePredecessor(c, s, p, pr, ch)
    case RDone(_, _, _) => s
  }

  // ----------------------------------------------- the steps of a code exchange

  function StepExchange(c: Config, s: State, p: Pid, pr: Process, ch: Choice): State
    requires pr.Exchange?
  {
    match pr.xpc
    case XConsume =>
      if !ch.fails && pr.jti in s.codes.live && s.now <= s.codes.live[pr.jti]
      then SetProc(s.(codes := s.codes.(live := s.codes.live - {pr.jti})), p, pr.(xpc := XMint))
      else SetProc(s, p, pr.(xpc := XDone(None)))
    case XMint =>
      if ch.fails || !ch.outside.Pass? then SetProc(s, p, pr.(xpc := XDone(None)))
      else if ch.newId in s.h.issued then s
      else SetProc(OpenLineage(c, s, ch.grant, ch.newId, ByCode(pr.jti)), p, pr.(xpc := XDone(Some(ch.newId))))
    case XDone(_) => s
  }

  // ------------------------------------------------------------------- runs

  function Apply(c: Config, s: State, a: Action): State {
    match a
    case Tick(d) => s.(now := s.now + d)
    case EvictRefresh(k) => s.(refresh := s.refresh - {k})
    case EvictGrace(k) => s.(grace := s.grace - {k})
    case EvictCode(j) => s.(codes := s.codes.(live := s.codes.live - {j}))
    case Login(g, newId) => if newId in s.h.issued then s else OpenLineage(c, s, g, newId, ByLogin)
    case IssueCode(j) =>
      if j in s.codes.made then s
      else s.(codes := s.codes.(live := s.codes.live[j := s.now + AUTH_CODE_TTL], made := s.codes.made + {j}))
    case BeginRedeem(p, k, client) => if p in s.procs then s else SetProc(s, p, Redeem(k, client, Consume))
    case BeginRevoke(p, k) => if p in s.procs then s else SetProc(s, p, Revoke(k, RConsume))
    case BeginExchange(p, j) => if p in s.procs then s else SetProc(s, p, Exchange(j, XConsume))
    case Step(p, ch) =>
      if p !in s.procs then s
      else match s.procs[p]
        case Redeem(_, _, _) => StepRedeem(c, s, p, s.procs[p], ch)
        case Revoke(_, _) => StepRevoke(c, s, p, s.procs[p], ch)
        case Exchange(_, _) => StepExchange(c, s, p, s.procs[p], ch)
  }

  function Run(c: Config, s: State, actions: seq<Action>): State
    decreases |actions|
  {
    if actions == [] then s else Run(c, Apply(c, s, actions[0]), actions[1..])
  }

  /** Empty caches, nobody running, and a clock past the epoch's first second. */
  predicate Init(s: State) {
    && Unix(s.now) > 0
    && s.refresh == map[] && s.grace == map[] && s.procs == map[]
    && s.h == History(map[], map[], map[]) && s.codes == CodeBook(map[], {}, map[])
  }

  /** A redemption that has consumed its record and neither rotated, restored nor dropped it. */
  predicate Holding(pr: Process) {
    pr.Redeem? && (pr.pc.MarkInFlight? || pr.pc.Validate? || pr.pc.Create? || pr.pc.RestoreCheck? || pr.pc.RestoreSet?)
  }

  lemma {:induction false} RunSplit(c: Config, s: State, a: seq<Action>, b: seq<Action>)
    ensures Run(c, s, a + b) == Run(c, Run(c, s, a), b)
    decreases |a|
  {
    if a == [] {
      assert a + b == b;
    } else {
      assert (a + b)[0] == a[0] && (a + b)[1..] == a[1..] + b;
      RunSplit(c, Apply(c, s, a[0]), a[1..], b);
    }
  }
}
