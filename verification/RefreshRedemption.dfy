/** What the operations of the protocol do when nothing gets in their way: what is issued and
    until when, what every presentation of a token is answered, and what a code or a logout
    comes to. */
module RefreshRedemption {
  import opened RefreshProtocol
  import opened RefreshInvariant
  import opened Text
  import Scopes

  // ------------------------------------------------------------ what is issued

  /** The grant a login or a code exchange opens a lineage for. */
  function GrantOf(a: Action): Grant
    requires a.Login? || a.Step?
  {
    if a.Login? then a.grant else a.choice.grant
  }

  /** What is true of a token the step from s to s' issued. */
  ghost predicate FreshlyIssued(c: Config, s: State, a: Action, s': State, t: TokenId) {
    && t in s'.h.issued && Id(t) in s'.refresh
    && var rec := s'.h.issued[t].rec;
    && rec.issuedAt == Unix(s.now) && rec.expiresAt == Unix(s.now + c.refreshTtl)
    && s'.refresh[Id(t)] == Entry(Rec(rec), s.now + c.cacheTtl)
    && match rec.predecessor
       case Some(u) => u in s.h.issued && SameSession(rec, s.h.issued[u].rec) && s'.h.issued[t].lineage == s.h.issued[u].lineage
       case None =>
         && (a.Login? || a.Step?)
         && var g := GrantOf(a);
         && rec.subject == g.subject && rec.client == g.client && rec.authMethod == g.authMethod
         && rec.originalIssuedAt == Unix(s.now) && s'.h.issued[t].lineage == t
         && Fields(rec.scope) == Scopes.Granted(g.requested)
  }

  lemma OpenedIsFresh(c: Config, s: State, a: Action, g: Grant, newId: TokenId, o: Origin)
    requires newId !in s.h.issued && (a.Login? || a.Step?) && GrantOf(a) == g
    ensures FreshlyIssued(c, s, a, OpenLineage(c, s, g, newId, o), newId)
    ensures OpenLineage(c, s, g, newId, o).h.issued.Keys == s.h.issued.Keys + {newId}
  {
    Scopes.GrantedAreWords(g.requested);
    FieldsOfJoin(Scopes.Granted(g.requested));
  }

  lemma CreatedIsFresh(c: Config, s: State, p: Pid, ch: Choice, t: TokenId)
    requires Inv(c, s) && p in s.procs && s.procs[p].Redeem? && s.procs[p].pc.Create? && s.procs[p].key.Id?
    requires var s' := DoCreate(c, s, p, s.procs[p], ch); t in s'.h.issued && t !in s.h.issued
    ensures FreshlyIssued(c, s, Step(p, ch), DoCreate(c, s, p, s.procs[p], ch), t)
  {
    assert ProcOk(c, s.h, p, s.procs[p]);
    assert TokenOk(s.h, s.procs[p].key.token);
  }

  lemma OtherStepsIssueNothing(c: Config, s: State, p: Pid, ch: Choice)
    requires p in s.procs && s.procs[p].Redeem? && !s.procs[p].pc.Create?
    ensures StepRedeem(c, s, p, s.procs[p], ch).h.issued == s.h.issued
  {
  }

  lemma ExchangedIsFresh(c: Config, s: State, p: Pid, ch: Choice, t: TokenId)
    requires p in s.procs && s.procs[p].Exchange?
    requires t in StepExchange(c, s, p, s.procs[p], ch).h.issued && t !in s.h.issued
    ensures FreshlyIssued(c, s, Step(p, ch), StepExchange(c, s, p, s.procs[p], ch), t)
  {
    OpenedIsFresh(c, s, Step(p, ch), ch.grant, ch.newId, ByCode(s.procs[p].jti));
  }

  lemma RevocationsIssueNothing(c: Config, s: State, p: Pid, ch: Choice)
    requires p in s.procs && s.procs[p].Revoke?
    ensures StepRevoke(c, s, p, s.procs[p], ch).h.issued == s.h.issued
  {
  }

  lemma StepIssuesFresh(c: Config, s: State, p: Pid, ch: Choice, t: TokenId)
    requires Inv(c, s) && p in s.procs
    requires t in Apply(c, s, Step(p, ch)).h.issued && t !in s.h.issued
    ensures FreshlyIssued(c, s, Step(p, ch), Apply(c, s, Step(p, ch)), t)
  {
    var pr := s.procs[p];
    if pr.Revoke? {
      RevocationsIssueNothing(c, s, p, ch);
    } else if pr.Exchange? {
      ExchangedIsFresh(c, s, p, ch, t);
    } else if pr.pc.Create? {
      CreatedIsFresh(c, s, p, ch, t);
    } else {
      OtherStepsIssueNothing(c, s, p, ch);
    }
  }

  /** In every run a token that a step issues is issued at that step's time and expires one
      refresh term later, its stored entry one cache term later; it carries the session of the
      token it replaces, or the grant it opens with the supported scopes requested. */
  lemma NewTokensAreFresh(c: Config, s0: State, actions: seq<Action>, a: Action, t: TokenId)
    requires Init(s0)
    requires var s := Run(c, s0, actions); t in Apply(c, s, a).h.issued && t !in s.h.issued
    ensures var s := Run(c, s0, actions); FreshlyIssued(c, s, a, Apply(c, s, a), t)
  {
    var s := Run(c, s0, actions);
    InitInv(c, s0);
    KeepRun(c, s0, actions);
    if a.Step? { StepIssuesFresh(c, s, a.pid, a.choice, t); }
    else { OpenedIsFresh(c, s, a, a.grant, a.newId, ByLogin); }
  }

  // ------------------------------------------------------------ undisturbed runs

  function Steps(c: Config, s: State, p: Pid, ch: Choice, n: nat): State
    decreases n
  {
    if n == 0 then s else Steps(c, Apply(c, s, Step(p, ch)), p, ch, n - 1)
  }

  /** n steps of one process, as a run. */
  function Repeat(p: Pid, ch: Choice, n: nat): seq<Action> {
    if n == 0 then [] else [Step(p, ch)] + Repeat(p, ch, n - 1)
  }

  lemma {:induction false} StepsAreARun(c: Config, s: State, p: Pid, ch: Choice, n: nat)
    ensures Run(c, s, Repeat(p, ch, n)) == Steps(c, s, p, ch, n)
    decreases n
  {
    if n > 0 {
      assert Repeat(p, ch, n)[1..] == Repeat(p, ch, n - 1);
      StepsAreARun(c, Apply(c, s, Step(p, ch)), p, ch, n - 1);
    }
  }

  lemma BegunRun(c: Config, s: State, begin: Action, p: Pid, ch: Choice, n: nat)
    ensures Run(c, s, [begin] + Repeat(p, ch, n)) == Steps(c, Apply(c, s, begin), p, ch, n)
  {
    assert ([begin] + Repeat(p, ch, n))[1..] == Repeat(p, ch, n);
    StepsAreARun(c, Apply(c, s, begin), p, ch, n);
  }

  /** The session is within its record's term and within the bound on its age. */
  predicate InTime(c: Config, rec: Record, now: int) {
    Unix(now) <= rec.expiresAt && (c.maxSessionAge > 0 ==> now <= rec.originalIssuedAt * SECOND + c.maxSessionAge)
  }

  datatype Answer = Accept | Refusal | Fault | Neither

  /** What a presentation deserves, in the order of its checks: the time limits, the subject's
      revocation, the client it was issued to, everything outside. */
  function Deserves(c: Config, rec: Record, now: int, client: string, ch: Choice): Answer {
    if !InTime(c, rec, now) || ch.revocation.Refuse? then Refusal
    else if !ch.revocation.Pass? then Answer.Fault
    else if rec.client != client then Refusal
    else match ch.outside
      case Pass => Accept
      case Refuse => Refusal
      case Fault => Answer.Fault
      case Other => Neither
  }

  /** The redemption holds the record and has marked it in flight. */
  function Taken(c: Config, s: State, p: Pid, t: TokenId, client: string, rec: Record, pc: RedeemPc): State {
    s.(refresh := s.refresh - {Id(t)},
       grace := if c.graceWindow > 0 then s.grace[Id(t) := GraceEntry(rec.client, None, s.now + c.graceWindow)] else s.grace,
       procs := s.procs[p := Redeem(Id(t), client, pc)])
  }

  lemma TakesAndMarks(c: Config, s: State, p: Pid, t: TokenId, client: string, ch: Choice, n: nat)
    requires Inv(c, s) && p !in s.procs && Visible(s.refresh, Id(t), s.now) && !ch.fails
    ensures t in s.h.issued
    ensures var rec := s.h.issued[t].rec;
      Steps(c, Apply(c, s, BeginRedeem(p, Id(t), client)), p, ch, n + 2)
      == Steps(c, Taken(c, s, p, t, client, rec, Validate(rec)), p, ch, n)
  {
    assert EntryOk(s.h, Id(t), s.refresh[Id(t)].value);
    var rec := s.h.issued[t].rec;
    var s1 := Apply(c, s, BeginRedeem(p, Id(t), client));
    var s2 := Apply(c, s1, Step(p, ch));
    assert s2.procs == s.procs[p := Redeem(Id(t), client, MarkInFlight(rec))];
    var s3 := Apply(c, s2, Step(p, ch));
    assert s3.procs == s.procs[p := Redeem(Id(t), client, Validate(rec))];
    assert s3 == Taken(c, s, p, t, client, rec, Validate(rec));
    assert Steps(c, s1, p, ch, n + 2) == Steps(c, s2, p, ch, n + 1);
  }

  lemma Validates(c: Config, s: State, p: Pid, t: TokenId, client: string, rec: Record, ch: Choice, n: nat)
    ensures var d := Deserves(c, rec, s.now, client, ch);
      Steps(c, Taken(c, s, p, t, client, rec, Validate(rec)), p, ch, n + 1)
      == Steps(c, Taken(c, s, p, t, client, rec,
               match d
               case Accept => Create(rec, s.now, ch.access)
               case Refusal => Clear(GrantFailure)
               case Fault => RestoreCheck(rec)
               case Neither => Clear(OtherError)), p, ch, n)
  {
    var s3 := Taken(c, s, p, t, client, rec, Validate(rec));
    var pc := Apply(c, s3, Step(p, ch)).procs[p].pc;
    assert Apply(c, s3, Step(p, ch)).procs == s.procs[p := Redeem(Id(t), client, pc)];
    assert Apply(c, s3, Step(p, ch)) == Taken(c, s, p, t, client, rec, pc);
  }

  /** Where five steps of an undisturbed redemption of t lead. */
  function Redeemed(c: Config, s: State, p: Pid, t: TokenId, client: string, ch: Choice): State {
    Run(c, s, [BeginRedeem(p, Id(t), client)] + Repeat(p, ch, 5))
  }

  lemma RedeemedFrom(c: Config, s: State, p: Pid, t: TokenId, client: string, ch: Choice)
    requires Inv(c, s) && p !in s.procs && Visible(s.refresh, Id(t), s.now) && !ch.fails
    ensures t in s.h.issued
    ensures var rec := s.h.issued[t].rec;
      Redeemed(c, s, p, t, client, ch)
      == Steps(c, Taken(c, s, p, t, client, rec,
               match Deserves(c, rec, s.now, client, ch)
               case Accept => Create(rec, s.now, ch.access)
               case Refusal => Clear(GrantFailure)
               case Fault => RestoreCheck(rec)
               case Neither => Clear(OtherError)), p, ch, 2)
  {
    BegunRun(c, s, BeginRedeem(p, Id(t), client), p, ch, 5);
    TakesAndMarks(c, s, p, t, client, ch, 3);
    Validates(c, s, p, t, client, s.h.issued[t].rec, ch, 2);
  }

  lemma TwoSteps(c: Config, s: State, p: Pid, ch: Choice)
    ensures Steps(c, s, p, ch, 2) == Apply(c, Apply(c, s, Step(p, ch)), Step(p, ch))
  {
    assert Steps(c, Apply(c, s, Step(p, ch)), p, ch, 1) == Steps(c, Apply(c, Apply(c, s, Step(p, ch)), Step(p, ch)), p, ch, 0);
  }

  /** The caller's own token set: new ids, and the session's scope and subject. */
  function Handed(rec: Record, ch: Choice): TokenSet {
    TokenSet(ch.access, ch.newId, rec.scope, rec.subject)
  }

  lemma AcceptedEnds(c: Config, s: State, p: Pid, t: TokenId, client: string, ch: Choice)
    requires Inv(c, s) && t in s.h.issued && !ch.fails && ch.newId !in s.h.issued
    ensures var rec := s.h.issued[t].rec;
      var s' := Steps(c, Taken(c, s, p, t, client, rec, Create(rec, s.now, ch.access)), p, ch, 2);
      && p in s'.procs && s'.procs[p] == Redeem(Id(t), client, Finished(Ok(Handed(rec, ch), false, s.now)))
      && Id(t) !in s'.refresh && Id(ch.newId) in s'.refresh && s'.now == s.now
      && (c.graceWindow > 0 ==>
            Id(t) in s'.grace && s'.grace[Id(t)] == GraceEntry(rec.client, Some(Handed(rec, ch)), s.now + c.graceWindow))
  {
    assert TokenOk(s.h, t);
    var rec := s.h.issued[t].rec;
    var s4 := Taken(c, s, p, t, client, rec, Create(rec, s.now, ch.access));
    TwoSteps(c, s4, p, ch);
    var s5 := Apply(c, s4, Step(p, ch));
    assert s5.procs[p] == Redeem(Id(t), client, Publish(rec.client, Handed(rec, ch)));
    assert t in s5.h.minted;
  }

  lemma ClearedEnds(c: Config, s: State, p: Pid, t: TokenId, client: string, rec: Record, ch: Choice, o: Outcome)
    requires Inv(c, s) && !ch.fails
    ensures var s' := Steps(c, Taken(c, s, p, t, client, rec, Clear(o)), p, ch, 2);
      && p in s'.procs && s'.procs[p] == Redeem(Id(t), client, Finished(o))
      && s'.refresh == s.refresh - {Id(t)} && s'.h == s.h && Id(t) !in s'.grace
  {
    TwoSteps(c, Taken(c, s, p, t, client, rec, Clear(o)), p, ch);
  }

  lemma FaultEnds(c: Config, s: State, p: Pid, t: TokenId, client: string, rec: Record, ch: Choice)
    requires !ch.fails && !Visible(s.refresh, Tomb(Id(t)), s.now) && s.now < rec.expiresAt * SECOND
    ensures var s' := Steps(c, Taken(c, s, p, t, client, rec, RestoreCheck(rec)), p, ch, 2);
      && p in s'.procs && s'.procs[p] == Redeem(Id(t), client, Clear(ServerError)) && s'.h == s.h
      && s'.refresh == s.refresh[Id(t) := Entry(Rec(rec), rec.expiresAt * SECOND)]
  {
    TwoSteps(c, Taken(c, s, p, t, client, rec, RestoreCheck(rec)), p, ch);
  }

  /** In every run, an undisturbed redemption of a stored token is answered as it deserves.
      Accepted, its caller gets the new token, the session's scope and subject, the old token
      is gone, the new one stored and the answer published for the grace window. Refused, the
      token is gone and nothing was issued. After a fault the record is back, until its own
      expiry and no longer. In no other case does it succeed. */
  lemma RedemptionIsAnswered(c: Config, s0: State, before: seq<Action>, p: Pid, t: TokenId, client: string, ch: Choice)
    requires Init(s0) && !ch.fails
    requires var s := Run(c, s0, before);
      p !in s.procs && Visible(s.refresh, Id(t), s.now) && ch.newId !in s.h.issued
    ensures var s := Run(c, s0, before);
      && t in s.h.issued
      && var rec := s.h.issued[t].rec;
      var s' := Redeemed(c, s, p, t, client, ch);
      && p in s'.procs && s'.procs[p].Redeem?
      && match Deserves(c, rec, s.now, client, ch)
         case Accept =>
           && s'.procs[p].pc == Finished(Ok(Handed(rec, ch), false, s.now))
           && Id(t) !in s'.refresh && Id(ch.newId) in s'.refresh
           && (c.graceWindow > 0 ==>
                 Id(t) in s'.grace && s'.grace[Id(t)] == GraceEntry(rec.client, Some(Handed(rec, ch)), s.now + c.graceWindow))
         case Refusal => s'.procs[p].pc == Finished(GrantFailure) && Id(t) !in s'.refresh && Id(t) !in s'.grace && s'.h == s.h
         case Neither => s'.procs[p].pc == Finished(OtherError) && Id(t) !in s'.refresh && s'.h == s.h
         case Fault =>
           !Visible(s.refresh, Tomb(Id(t)), s.now) && s.now < rec.expiresAt * SECOND ==>
             s'.procs[p].pc == Clear(ServerError) && s'.refresh == s.refresh[Id(t) := Entry(Rec(rec), rec.expiresAt * SECOND)]
  {
    var s := Run(c, s0, before);
    InitInv(c, s0);
    KeepRun(c, s0, before);
    RedeemedFrom(c, s, p, t, client, ch);
    var rec := s.h.issued[t].rec;
    match Deserves(c, rec, s.now, client, ch)
    case Accept => AcceptedEnds(c, s, p, t, client, ch);
    case Refusal => ClearedEnds(c, s, p, t, client, rec, ch, GrantFailure);
    case Neither => ClearedEnds(c, s, p, t, client, rec, ch, OtherError);
    case Fault =>
      StaysRedeem(c, Taken(c, s, p, t, client, rec, RestoreCheck(rec)), p, ch, 2);
      if !Visible(s.refresh, Tomb(Id(t)), s.now) && s.now < rec.expiresAt * SECOND { FaultEnds(c, s, p, t, client, rec, ch); }
  }

  lemma {:induction false} StaysRedeem(c: Config, s: State, p: Pid, ch: Choice, n: nat)
    requires p in s.procs && s.procs[p].Redeem?
    ensures var s' := Steps(c, s, p, ch, n); p in s'.procs && s'.procs[p].Redeem?
    decreases n
  {
    if n > 0 { StaysRedeem(c, Apply(c, s, Step(p, ch)), p, ch, n - 1); }
  }

  /** A presentation that comes after the winner published is handed the winner's answer if it
      is the client it belongs to, and refused otherwise. */
  lemma LateCallerReplays(c: Config, s: State, q: Pid, key: Key, client: string, ch: Choice)
    requires q !in s.procs && !ch.fails && c.graceWindow > 0 && !Visible(s.refresh, key, s.now)
    requires GraceVisible(s.grace, key, s.now) && s.grace[key].result.Some?
    ensures var s' := Run(c, s, [BeginRedeem(q, key, client)] + Repeat(q, ch, 2));
      q in s'.procs && s'.procs[q] == Redeem(key, client,
        Finished(if s.grace[key].client == client then Ok(s.grace[key].result.value, true, s.now) else GrantFailure))
  {
    BegunRun(c, s, BeginRedeem(q, key, client), q, ch, 2);
    var s1 := Apply(c, s, BeginRedeem(q, key, client));
    TwoSteps(c, s1, q, ch);
    assert Apply(c, s1, Step(q, ch)).procs[q] == Redeem(key, client, Poll(0, false));
  }

  /** While a redemption holds the record and has marked it, a second presentation waits for it:
      it has seen the marker and reads again. */
  lemma LoserWaitsForWinner(c: Config, s: State, p: Pid, q: Pid, t: TokenId, client: string, other: string, ch: Choice)
    requires Inv(c, s) && p !in s.procs && q !in s.procs && p != q && Visible(s.refresh, Id(t), s.now) && !ch.fails && c.graceWindow > 0
    ensures var s1 := Run(c, s, [BeginRedeem(p, Id(t), client)] + Repeat(p, ch, 2));
      var s2 := Run(c, s1, [BeginRedeem(q, Id(t), other)] + Repeat(q, ch, 2));
      q in s2.procs && s2.procs[q] == Redeem(Id(t), other, Poll(1, true))
  {
    BegunRun(c, s, BeginRedeem(p, Id(t), client), p, ch, 2);
    TakesAndMarks(c, s, p, t, client, ch, 0);
    var rec := s.h.issued[t].rec;
    var s1 := Taken(c, s, p, t, client, rec, Validate(rec));
    assert Steps(c, s1, p, ch, 0) == s1;
    SeesMarker(c, s1, q, Id(t), other, ch);
  }

  lemma SeesMarker(c: Config, s: State, q: Pid, key: Key, client: string, ch: Choice)
    requires q !in s.procs && !ch.fails && c.graceWindow > 0 && !Visible(s.refresh, key, s.now)
    requires GraceVisible(s.grace, key, s.now) && s.grace[key].result.None?
    ensures Run(c, s, [BeginRedeem(q, key, client)] + Repeat(q, ch, 2)) == At(s, q, key, client, Poll(1, true))
  {
    BegunRun(c, s, BeginRedeem(q, key, client), q, ch, 2);
    PollsOn(c, s, q, key, client, ch, Consume, Poll(0, false), 1);
    PollsOn(c, s, q, key, client, ch, Poll(0, false), Poll(1, true), 0);
  }

  /** A caller that gave up polling is told to retry if and only if the record is back. */
  lemma GivenUpIsRetryableIff(c: Config, s: State, q: Pid, ch: Choice)
    requires q in s.procs && s.procs[q].Redeem? && s.procs[q].pc.Recheck? && !ch.fails
    ensures var pc := Apply(c, s, Step(q, ch)).procs[q].pc;
      && (pc == Finished(ServerError) <==> Visible(s.refresh, s.procs[q].key, s.now))
      && (pc == Finished(GrantFailure) <==> !Visible(s.refresh, s.procs[q].key, s.now))
  {
  }

  /** A key that is neither stored nor in flight nor published is refused within five steps,
      with a grace window or without. */
  lemma UnknownTokenIsRefused(c: Config, s: State, q: Pid, key: Key, client: string, ch: Choice)
    requires q !in s.procs && !ch.fails && !Visible(s.refresh, key, s.now) && !GraceVisible(s.grace, key, s.now)
    ensures var s' := Run(c, s, [BeginRedeem(q, key, client)] + Repeat(q, ch, 5));
      q in s'.procs && s'.procs[q] == Redeem(key, client, Finished(GrantFailure)) && s'.refresh == s.refresh && s'.h == s.h
  {
    BegunRun(c, s, BeginRedeem(q, key, client), q, ch, 5);
    if c.graceWindow > 0 { PollsThreeTimes(c, s, q, key, client, ch); } else { NothingToPoll(c, s, q, key, client, ch); }
  }

  lemma PollsThreeTimes(c: Config, s: State, q: Pid, key: Key, client: string, ch: Choice)
    requires !ch.fails && c.graceWindow > 0 && !Visible(s.refresh, key, s.now) && !GraceVisible(s.grace, key, s.now)
    ensures Steps(c, At(s, q, key, client, Consume), q, ch, 5) == At(s, q, key, client, Finished(GrantFailure))
  {
    PollsOn(c, s, q, key, client, ch, Consume, Poll(0, false), 4);
    PollsOn(c, s, q, key, client, ch, Poll(0, false), Poll(1, false), 3);
    GivesUp(c, s, q, key, client, ch);
  }

  lemma GivesUp(c: Config, s: State, q: Pid, key: Key, client: string, ch: Choice)
    requires !ch.fails && !Visible(s.refresh, key, s.now) && !GraceVisible(s.grace, key, s.now)
    ensures Steps(c, At(s, q, key, client, Poll(1, false)), q, ch, 3) == At(s, q, key, client, Finished(GrantFailure))
  {
    PollsOn(c, s, q, key, client, ch, Poll(1, false), Poll(2, false), 2);
    PollsOn(c, s, q, key, client, ch, Poll(2, false), Recheck, 1);
    PollsOn(c, s, q, key, client, ch, Recheck, Finished(GrantFailure), 0);
  }

  lemma NothingToPoll(c: Config, s: State, q: Pid, key: Key, client: string, ch: Choice)
    requires !ch.fails && c.graceWindow <= 0 && !Visible(s.refresh, key, s.now)
    ensures Steps(c, At(s, q, key, client, Consume), q, ch, 5) == At(s, q, key, client, Finished(GrantFailure))
  {
    PollsOn(c, s, q, key, client, ch, Consume, Recheck, 4);
    PollsOn(c, s, q, key, client, ch, Recheck, Finished(GrantFailure), 3);
    PollsOn(c, s, q, key, client, ch, Finished(GrantFailure), Finished(GrantFailure), 2);
    PollsOn(c, s, q, key, client, ch, Finished(GrantFailure), Finished(GrantFailure), 1);
    PollsOn(c, s, q, key, client, ch, Finished(GrantFailure), Finished(GrantFailure), 0);
  }

  function At(s: State, q: Pid, key: Key, client: string, pc: RedeemPc): State {
    s.(procs := s.procs[q := Redeem(key, client, pc)])
  }

  lemma PollsOn(c: Config, s: State, q: Pid, key: Key, client: string, ch: Choice, pc: RedeemPc, pc': RedeemPc, n: nat)
    requires var s1 := At(s, q, key, client, pc);
      StepRedeem(c, s1, q, s1.procs[q], ch).procs[q] == Redeem(key, client, pc')
      && StepRedeem(c, s1, q, s1.procs[q], ch) == SetPc(s1, q, s1.procs[q], pc')
    ensures Steps(c, At(s, q, key, client, pc), q, ch, n + 1) == Steps(c, At(s, q, key, client, pc'), q, ch, n)
  {
    var s1 := At(s, q, key, client, pc);
    assert SetPc(s1, q, s1.procs[q], pc').procs == s.procs[q := Redeem(key, client, pc')];
    assert Apply(c, s1, Step(q, ch)) == At(s, q, key, client, pc');
  }

  // ------------------------------------------------------------ codes and logouts

  /** An undisturbed exchange opens a lineage if and only if its code is stored, not past its
      fifteen minutes, and everything outside agrees; the code is gone either way. */
  lemma ExchangeIsAnswered(c: Config, s: State, p: Pid, j: nat, ch: Choice)
    requires p !in s.procs && !ch.fails && ch.newId !in s.h.issued
    ensures var s' := Run(c, s, [BeginExchange(p, j)] + Repeat(p, ch, 2));
      var good := j in s.codes.live && s.now <= s.codes.live[j] && ch.outside.Pass?;
      && p in s'.procs && s'.procs[p] == Exchange(j, XDone(if good then Some(ch.newId) else None))
      && (good ==> Id(ch.newId) in s'.refresh && ch.newId in s'.h.issued && ch.newId in s'.codes.origin
                   && s'.codes.origin[ch.newId] == ByCode(j))
      && (!good ==> s'.h == s.h && s'.refresh == s.refresh)
      && (j in s'.codes.live ==> s.now > s'.codes.live[j])
  {
    BegunRun(c, s, BeginExchange(p, j), p, ch, 2);
    var s1 := Apply(c, s, BeginExchange(p, j));
    TwoSteps(c, s1, p, ch);
    var s2 := Apply(c, s1, Step(p, ch));
    assert s2.procs[p].Exchange? && s2.procs[p].jti == j;
  }

  /** An issued code is stored for fifteen minutes. */
  lemma IssuedCodeIsLive(c: Config, s: State, j: nat)
    requires j !in s.codes.made
    ensures var s' := Apply(c, s, IssueCode(j)); j in s'.codes.live && s'.codes.live[j] == s.now + 900 * SECOND
  {
  }

  /** An undisturbed logout leaves nothing of the token: no record, a tombstone for five
      minutes, and no grace record of it or of its predecessor. */
  lemma LogoutIsComplete(c: Config, s: State, r: Pid, key: Key, ch: Choice)
    requires Inv(c, s) && r !in s.procs && !ch.fails
    ensures var s' := Run(c, s, [BeginRevoke(r, key)] + Repeat(r, ch, 4));
      && r in s'.procs && s'.procs[r].Revoke? && s'.procs[r].rpc.RDone?
      && !Visible(s'.refresh, key, s'.now) && s'.now == s.now
      && Tomb(key) in s'.refresh && s'.refresh[Tomb(key)] == Entry(Mark, s.now + 300 * SECOND)
      && key !in s'.grace
      && (Visible(s.refresh, key, s.now) && s.refresh[key].value.Rec? && s.refresh[key].value.rec.predecessor.Some? ==>
            Id(s.refresh[key].value.rec.predecessor.value) !in s'.grace)
  {
    BegunRun(c, s, BeginRevoke(r, key), r, ch, 4);
    var found := Found(s, key);
    var refresh := (if Visible(s.refresh, key, s.now) then s.refresh - {key} else s.refresh)[Tomb(key) := Entry(Mark, s.now + TOMBSTONE_TTL)];
    ConsumesAndMarks(c, s, r, key, ch);
    var s3 := s.(refresh := refresh, procs := s.procs[r := Revoke(key, if c.graceWindow <= 0 then RDone(found, true, true) else RGraceSelf(found))]);
    TwoSteps(c, s3, r, ch);
    GraceIsDeleted(c, s3, r, key, found, ch);
  }

  /** The record a consuming read of key finds. */
  function Found(s: State, key: Key): Option<Record> {
    if Visible(s.refresh, key, s.now) && s.refresh[key].value.Rec? then Some(s.refresh[key].value.rec) else None
  }

  lemma ConsumesAndMarks(c: Config, s: State, r: Pid, key: Key, ch: Choice)
    requires r !in s.procs && !ch.fails
    ensures var refresh := (if Visible(s.refresh, key, s.now) then s.refresh - {key} else s.refresh)[Tomb(key) := Entry(Mark, s.now + TOMBSTONE_TTL)];
      Steps(c, Apply(c, s, BeginRevoke(r, key)), r, ch, 4)
      == Steps(c, s.(refresh := refresh,
                     procs := s.procs[r := Revoke(key, if c.graceWindow <= 0 then RDone(Found(s, key), true, true) else RGraceSelf(Found(s, key)))]), r, ch, 2)
  {
    var s1 := Apply(c, s, BeginRevoke(r, key));
    var s2 := Apply(c, s1, Step(r, ch));
    assert s2 == RevokeConsume(c, s1, r, s1.procs[r], ch);
    assert s2.procs == s.procs[r := Revoke(key, RTombstone(Found(s, key)))];
    var s3 := Apply(c, s2, Step(r, ch));
    assert s3 == RevokeTombstone(c, s2, r, s2.procs[r], ch);
    assert s3.procs == s.procs[r := s3.procs[r]];
    assert Steps(c, s1, r, ch, 4) == Steps(c, s2, r, ch, 3) == Steps(c, s3, r, ch, 2);
  }

  lemma GraceIsDeleted(c: Config, s: State, r: Pid, key: Key, found: Option<Record>, ch: Choice)
    requires !ch.fails && (c.graceWindow <= 0 ==> s.grace == map[])
    requires r in s.procs && s.procs[r] == Revoke(key, if c.graceWindow <= 0 then RDone(found, true, true) else RGraceSelf(found))
    ensures var s' := Apply(c, Apply(c, s, Step(r, ch)), Step(r, ch));
      && r in s'.procs && s'.procs[r].Revoke? && s'.procs[r].rpc.RDone? && s'.refresh == s.refresh && s'.now == s.now
      && key !in s'.grace
      && (found.Some? && found.value.predecessor.Some? ==> Id(found.value.predecessor.value) !in s'.grace)
  {
    var s1 := Apply(c, s, Step(r, ch));
    assert s1 == StepRevoke(c, s, r, s.procs[r], ch);
    assert Apply(c, s1, Step(r, ch)) == StepRevoke(c, s1, r, s1.procs[r], ch);
  }
}
