/** Logout: what a revocation ends, and when it beats a redemption in flight. */
module RefreshLogout {
  import opened RefreshProtocol
  import opened RefreshInvariant
  import opened RefreshTheorems

  predicate Holds(s: State, p: Pid, t: TokenId) {
    p in s.procs && Holding(s.procs[p]) && s.procs[p].key == Id(t)
  }

  /** The token's record is stored, or some redemption holds it. */
  ghost predicate InCustody(s: State, t: TokenId) {
    Id(t) in s.refresh || exists p :: Holds(s, p, t)
  }

  predicate PublishingFor(s: State, p: Pid, k: Key) {
    p in s.procs && s.procs[p].Redeem? && s.procs[p].pc.Publish? && s.procs[p].key == k
  }

  /** What one step can do to custody: an issued token comes into custody only from
      custody; a new token joins only its own lineage or one with a token in custody; and
      what is minted, published or made replayable comes from a holder or a publisher. */
  ghost predicate Effect(s: State, s': State) {
    && (forall t | t in s.h.issued ::
          t in s'.h.issued && s'.h.issued[t] == s.h.issued[t] && (InCustody(s', t) ==> InCustody(s, t)))
    && (forall t | t in s'.h.issued && t !in s.h.issued ::
          s'.h.issued[t].lineage == t ||
          exists u :: u in s.h.issued && InCustody(s, u) && s.h.issued[u].lineage == s'.h.issued[t].lineage)
    && (forall t | t in s'.h.minted && t !in s.h.minted :: InCustody(s, t))
    && (forall p, t | PublishingFor(s', p, Id(t)) :: PublishingFor(s, p, Id(t)) || InCustody(s, t))
    && (forall k | k in s'.grace && s'.grace[k].result.Some? ::
          (k in s.grace && s.grace[k].result.Some?) || exists p :: PublishingFor(s, p, k))
  }

  /** A step of one process that issues nothing. */
  lemma LocalEffect(s: State, s': State, p: Pid, pr: Process)
    requires s'.h.issued == s.h.issued && s'.h.minted.Keys == s.h.minted.Keys
    requires s'.procs == s.procs[p := pr]
    requires forall k | k in s'.refresh && k.Id? :: k in s.refresh || Holds(s, p, k.token)
    requires Holding(pr) && pr.key.Id? ==> pr.key in s.refresh || Holds(s, p, pr.key.token)
    requires !(pr.Redeem? && pr.pc.Publish?)
    requires forall k | k in s'.grace && s'.grace[k].result.Some? ::
      (k in s.grace && s.grace[k].result.Some?) || PublishingFor(s, p, k)
    ensures Effect(s, s')
  {
    forall t | InCustody(s', t) ensures InCustody(s, t) {
      if Id(t) !in s'.refresh {
        var q :| Holds(s', q, t);
        assert q != p ==> Holds(s, q, t);
      }
    }
  }

  /** A redemption that only decides. */
  predicate Deciding(pc: RedeemPc) { pc.Validate? || pc.RestoreCheck? || pc.Poll? || pc.Recheck? }

  lemma DecidingEffect(c: Config, s: State, p: Pid, ch: Choice)
    requires p in s.procs && s.procs[p].Redeem? && Deciding(s.procs[p].pc)
    ensures Effect(s, StepRedeem(c, s, p, s.procs[p], ch))
  {
    var s' := StepRedeem(c, s, p, s.procs[p], ch);
    LocalEffect(s, s', p, s'.procs[p]);
  }

  lemma TakingEffect(c: Config, s: State, p: Pid, ch: Choice)
    requires p in s.procs && s.procs[p].Redeem? && (s.procs[p].pc.Consume? || s.procs[p].pc.RestoreSet?)
    ensures Effect(s, StepRedeem(c, s, p, s.procs[p], ch))
  {
    var s' := StepRedeem(c, s, p, s.procs[p], ch);
    LocalEffect(s, s', p, s'.procs[p]);
  }

  lemma GraceEffect(c: Config, s: State, p: Pid, ch: Choice)
    requires p in s.procs && s.procs[p].Redeem? && (s.procs[p].pc.MarkInFlight? || s.procs[p].pc.Publish? || s.procs[p].pc.Clear?)
    requires s.procs[p].key.Id? || !s.procs[p].pc.Publish?
    ensures Effect(s, StepRedeem(c, s, p, s.procs[p], ch))
  {
    var s' := StepRedeem(c, s, p, s.procs[p], ch);
    LocalEffect(s, s', p, s'.procs[p]);
  }

  lemma CreateEffect(c: Config, s: State, p: Pid, ch: Choice)
    requires Inv(c, s) && p in s.procs && s.procs[p].Redeem? && s.procs[p].pc.Create? && s.procs[p].key.Id?
    ensures Effect(s, DoCreate(c, s, p, s.procs[p], ch))
  {
    var pr := s.procs[p];
    var t := pr.key.token;
    var s' := DoCreate(c, s, p, pr, ch);
    assert ProcOk(c, s.h, p, pr);
    assert Holds(s, p, t) && InCustody(s, t);
    if ch.fails {
      LocalEffect(s, s', p, s'.procs[p]);
    } else {
      forall u | u in s.h.issued && InCustody(s', u) ensures InCustody(s, u) {
        if Id(u) !in s'.refresh {
          var q :| Holds(s', q, u);
          assert Holds(s, q, u);
        }
      }
    }
  }

  lemma OpenEffect(c: Config, s: State, g: Grant, newId: TokenId, o: Origin)
    requires newId !in s.h.issued
    ensures Effect(s, OpenLineage(c, s, g, newId, o))
  {
    var s' := OpenLineage(c, s, g, newId, o);
    forall t | t in s.h.issued && InCustody(s', t) ensures InCustody(s, t) {
      if Id(t) !in s'.refresh { var q :| Holds(s', q, t); assert Holds(s, q, t); }
    }
    forall p, t | PublishingFor(s', p, Id(t)) ensures PublishingFor(s, p, Id(t)) { }
  }

  lemma ExchangeEffect(c: Config, s: State, p: Pid, ch: Choice)
    requires p in s.procs && s.procs[p].Exchange?
    ensures Effect(s, StepExchange(c, s, p, s.procs[p], ch))
  {
    var pr := s.procs[p];
    var s' := StepExchange(c, s, p, pr, ch);
    if pr.xpc.XMint? && !ch.fails && ch.outside.Pass? && ch.newId !in s.h.issued {
      var idle := SetProc(s, p, s'.procs[p]);
      OpenEffect(c, idle, ch.grant, ch.newId, ByCode(pr.jti));
      forall t ensures InCustody(idle, t) == InCustody(s, t) {
        if q :| Holds(s, q, t) { assert Holds(idle, q, t); }
        if q :| Holds(idle, q, t) { assert Holds(s, q, t); }
      }
      forall q, k ensures PublishingFor(idle, q, k) == PublishingFor(s, q, k) { }
      OpenLineageFrame(c, s, ch.grant, ch.newId, ByCode(pr.jti), p, s'.procs[p]);
    } else {
      LocalEffect(s, s', p, s'.procs[p]);
    }
  }

  lemma RevokeEffect(c: Config, s: State, p: Pid, ch: Choice)
    requires p in s.procs && s.procs[p].Revoke?
    ensures Effect(s, StepRevoke(c, s, p, s.procs[p], ch))
  {
    var s' := StepRevoke(c, s, p, s.procs[p], ch);
    LocalEffect(s, s', p, s'.procs[p]);
  }

  lemma SameProcsEffect(s: State, s': State)
    requires s'.h == s.h && s'.procs == s.procs && s'.grace.Keys <= s.grace.Keys
    requires forall k | k in s'.refresh && k.Id? :: k in s.refresh
    requires forall k | k in s'.grace :: s'.grace[k] == s.grace[k]
    ensures Effect(s, s')
  {
    forall t | InCustody(s', t) ensures InCustody(s, t) {
      if Id(t) !in s'.refresh { var q :| Holds(s', q, t); assert Holds(s, q, t); }
    }
    forall p, t | PublishingFor(s', p, Id(t)) ensures PublishingFor(s, p, Id(t)) { }
  }

  lemma BeginEffect(s: State, p: Pid, pr: Process)
    requires !Holding(pr) && !(pr.Redeem? && pr.pc.Publish?)
    ensures Effect(s, if p in s.procs then s else SetProc(s, p, pr))
  {
    if p in s.procs { SameProcsEffect(s, s); } else { LocalEffect(s, SetProc(s, p, pr), p, pr); }
  }

  lemma StepEffect(c: Config, s: State, a: Action)
    requires Inv(c, s)
    ensures Effect(s, Apply(c, s, a))
  {
    var s' := Apply(c, s, a);
    match a
    case Login(g, newId) =>
      if newId !in s.h.issued {
        OpenEffect(c, s, g, newId, ByLogin);
      } else { SameProcsEffect(s, s'); }
    case BeginRedeem(p, k, client) => BeginEffect(s, p, Redeem(k, client, Consume));
    case BeginRevoke(p, k) => BeginEffect(s, p, Revoke(k, RConsume));
    case BeginExchange(p, j) => BeginEffect(s, p, Exchange(j, XConsume));
    case Step(p, ch) => if p in s.procs { ProcessEffect(c, s, p, ch); } else { SameProcsEffect(s, s'); }
    case _ => SameProcsEffect(s, s');
  }

  lemma ProcessEffect(c: Config, s: State, p: Pid, ch: Choice)
    requires Inv(c, s) && p in s.procs
    ensures Effect(s, Apply(c, s, Step(p, ch)))
  {
    var pr := s.procs[p];
    var s' := Apply(c, s, Step(p, ch));
    if pr.Redeem? {
      assert ProcOk(c, s.h, p, pr);
      if pr.pc.Create? { CreateEffect(c, s, p, ch); }
      else if pr.pc.Finished? { SameProcsEffect(s, s'); }
      else if Deciding(pr.pc) { DecidingEffect(c, s, p, ch); }
      else if pr.pc.Consume? || pr.pc.RestoreSet? { TakingEffect(c, s, p, ch); }
      else { GraceEffect(c, s, p, ch); }
    } else if pr.Exchange? {
      ExchangeEffect(c, s, p, ch);
    } else {
      RevokeEffect(c, s, p, ch);
    }
  }

  // ------------------------------------------------------------- the logout

  /** Nothing of the lineage is stored or held. */
  ghost predicate Dead(s: State, l: TokenId) {
    l in s.h.issued && forall t | t in s.h.issued && s.h.issued[t].lineage == l :: !InCustody(s, t)
  }

  /** Some caller has been handed t: it is a lineage's first token, or a redemption
      returned it. */
  ghost predicate Returned(s: State, t: TokenId) {
    t in s.h.issued &&
    (s.h.issued[t].rec.predecessor.None? || exists p :: Succeeded(s, p) && s.procs[p].pc.outcome.tokens.refresh == t)
  }

  /** t's lineage is dead, t was never rotated, and the rotation that made t is past its
      publication. */
  ghost predicate LoggedOut(s: State, t: TokenId) {
    && t in s.h.issued && t !in s.h.minted && Dead(s, s.h.issued[t].lineage)
    && (s.h.issued[t].rec.predecessor.Some? ==>
          && var u := s.h.issued[t].rec.predecessor.value;
          && u in s.h.issued && s.h.issued[u].lineage == s.h.issued[t].lineage
          && forall p :: !PublishingFor(s, p, Id(u)))
  }

  /** The predecessor's grace record, if it has one, can no longer be replayed. */
  ghost predicate Silent(s: State, t: TokenId) {
    t in s.h.issued && s.h.issued[t].rec.predecessor.Some? ==>
      var k := Id(s.h.issued[t].rec.predecessor.value);
      k in s.grace ==> s.grace[k].result.None?
  }

  /** A lineage that is dead stays dead: only its own record or holder could revive it. */
  lemma DeadStep(s: State, s': State, l: TokenId)
    requires Effect(s, s') && Dead(s, l)
    ensures Dead(s', l)
  {
  }

  lemma LoggedOutStep(s: State, s': State, t: TokenId)
    requires Effect(s, s') && LoggedOut(s, t)
    ensures LoggedOut(s', t)
    ensures Silent(s, t) ==> Silent(s', t)
  {
    DeadStep(s, s', s.h.issued[t].lineage);
  }

  lemma {:induction false} LoggedOutRun(c: Config, s: State, actions: seq<Action>, t: TokenId)
    requires Inv(c, s) && LoggedOut(s, t)
    ensures LoggedOut(Run(c, s, actions), t)
    ensures Silent(s, t) ==> Silent(Run(c, s, actions), t)
    decreases |actions|
  {
    if actions != [] {
      StepEffect(c, s, actions[0]);
      KeepApply(c, s, actions[0]);
      LoggedOutStep(s, Apply(c, s, actions[0]), t);
      LoggedOutRun(c, Apply(c, s, actions[0]), actions[1..], t);
    }
  }

  /** The revocation r found t's record and is working through its deletes; if it reports
      the predecessor's grace record deleted, that record is gone for good. */
  ghost predicate Revoking(s: State, r: Pid, t: TokenId) {
    && LoggedOut(s, t)
    && r in s.procs && s.procs[r].Revoke? && s.procs[r].key == Id(t) && !s.procs[r].rpc.RConsume?
    && s.procs[r].rpc.found == Some(s.h.issued[t].rec)
    && (s.procs[r].rpc.RDone? && s.procs[r].rpc.predecessorDeleted ==> Silent(s, t))
  }

  lemma RevokingStep(c: Config, s: State, a: Action, r: Pid, t: TokenId)
    requires Inv(c, s) && Revoking(s, r, t)
    ensures Revoking(Apply(c, s, a), r, t)
  {
    StepEffect(c, s, a);
    LoggedOutStep(s, Apply(c, s, a), t);
    RevokerProgress(c, s, a, r, t);
  }

  lemma RevokerProgress(c: Config, s: State, a: Action, r: Pid, t: TokenId)
    requires Revoking(s, r, t) && t in Apply(c, s, a).h.issued && Apply(c, s, a).h.issued[t] == s.h.issued[t]
    requires Silent(s, t) ==> Silent(Apply(c, s, a), t)
    requires c.graceWindow <= 0 ==> s.grace == map[]
    ensures var s' := Apply(c, s, a);
      && r in s'.procs && s'.procs[r].Revoke? && s'.procs[r].key == Id(t) && !s'.procs[r].rpc.RConsume?
      && s'.procs[r].rpc.found == Some(s.h.issued[t].rec)
      && (s'.procs[r].rpc.RDone? && s'.procs[r].rpc.predecessorDeleted ==> Silent(s', t))
  {
    if a.Step? && a.pid == r {
      assert Apply(c, s, a) == StepRevoke(c, s, r, s.procs[r], a.choice);
    } else {
      OthersKeep(c, s, a, r);
    }
  }

  lemma DecidingTouchesItself(c: Config, s: State, p: Pid, ch: Choice, r: Pid)
    requires p in s.procs && s.procs[p].Redeem? && Deciding(s.procs[p].pc) && r in s.procs && r != p
    ensures var s' := StepRedeem(c, s, p, s.procs[p], ch); r in s'.procs && s'.procs[r] == s.procs[r]
  {
  }

  lemma RedeemTouchesItself(c: Config, s: State, p: Pid, ch: Choice, r: Pid)
    requires p in s.procs && s.procs[p].Redeem? && r in s.procs && r != p
    ensures var s' := StepRedeem(c, s, p, s.procs[p], ch); r in s'.procs && s'.procs[r] == s.procs[r]
  {
    if Deciding(s.procs[p].pc) { DecidingTouchesItself(c, s, p, ch, r); }
  }

  /** Only its own step changes a process. */
  lemma OthersKeep(c: Config, s: State, a: Action, r: Pid)
    requires r in s.procs && !(a.Step? && a.pid == r)
    ensures r in Apply(c, s, a).procs && Apply(c, s, a).procs[r] == s.procs[r]
  {
    if a.Step? && a.pid in s.procs && s.procs[a.pid].Redeem? {
      RedeemTouchesItself(c, s, a.pid, a.choice, r);
    } else if a.Step? && a.pid in s.procs && s.procs[a.pid].Revoke? {
      assert Apply(c, s, a) == StepRevoke(c, s, a.pid, s.procs[a.pid], a.choice);
    }
  }

  lemma {:induction false} RevokingRun(c: Config, s: State, actions: seq<Action>, r: Pid, t: TokenId)
    requires Inv(c, s) && Revoking(s, r, t)
    ensures Revoking(Run(c, s, actions), r, t)
    decreases |actions|
  {
    if actions != [] {
      KeepApply(c, s, actions[0]);
      RevokingStep(c, s, actions[0], r, t);
      RevokingRun(c, Apply(c, s, actions[0]), actions[1..], r, t);
    }
  }

  /** When a caller already has t, the rotation that made it has published or given up. */
  lemma ReturnedIsPublished(c: Config, s: State, t: TokenId, p: Pid, u: TokenId)
    requires Inv(c, s) && Returned(s, t) && s.h.issued[t].rec.predecessor == Some(u)
    ensures !PublishingFor(s, p, Id(u))
  {
    var q :| Succeeded(s, q) && s.procs[q].pc.outcome.tokens.refresh == t;
    assert ProcOk(c, s.h, q, s.procs[q]);
    assert MintOk(c, s.h, s.procs[q].key.token);
    assert p in s.procs ==> ProcOk(c, s.h, p, s.procs[p]);
  }

  lemma RevokeStarts(c: Config, s: State, r: Pid, ch: Choice, t: TokenId)
    requires Inv(c, s) && Returned(s, t)
    requires r in s.procs && s.procs[r] == Revoke(Id(t), RConsume) && !ch.fails && Visible(s.refresh, Id(t), s.now)
    ensures Revoking(Apply(c, s, Step(r, ch)), r, t)
  {
    var s' := Apply(c, s, Step(r, ch));
    var l := s.h.issued[t].lineage;
    assert EntryOk(s.h, Id(t), s.refresh[Id(t)].value);
    TipNotMinted(c, s.h, t);
    assert TokenOk(s.h, t);
    StepEffect(c, s, Step(r, ch));
    forall p ensures !Holds(s', p, t) { assert Holds(s', p, t) ==> Holds(s, p, t); }
    forall u | u in s'.h.issued && s'.h.issued[u].lineage == l ensures !InCustody(s', u) {
      CustodyIsTip(c, s, u);
    }
    if s.h.issued[t].rec.predecessor.Some? {
      var u := s.h.issued[t].rec.predecessor.value;
      assert MintOk(c, s.h, u);
      forall p ensures !PublishingFor(s', p, Id(u)) {
        ReturnedIsPublished(c, s, t, p, u);
        assert PublishingFor(s', p, Id(u)) ==> PublishingFor(s, p, Id(u));
      }
    }
  }

  lemma CustodyIsTip(c: Config, s: State, t: TokenId)
    requires Inv(c, s)
    ensures InCustody(s, t) ==> IsTip(s.h, t)
  {
    if Id(t) in s.refresh {
      assert EntryOk(s.h, Id(t), s.refresh[Id(t)].value);
    } else if p :| Holds(s, p, t) {
      assert ProcOk(c, s.h, p, s.procs[p]);
    }
  }

  /** The redemption has its answer and only has to hand it over. */
  predicate HasAnswer(s: State, p: Pid) {
    p in s.procs && s.procs[p].Redeem? &&
    (s.procs[p].pc.Publish? || ((s.procs[p].pc.Clear? || s.procs[p].pc.Finished?) && s.procs[p].pc.outcome.Ok?))
  }

  /** The token, or the token it was rotated from. */
  predicate Presents(s: State, p: Pid, t: TokenId) {
    p in s.procs && s.procs[p].Redeem? && t in s.h.issued &&
    (s.procs[p].key == Id(t) ||
     (s.h.issued[t].rec.predecessor.Some? && s.procs[p].key == Id(s.h.issued[t].rec.predecessor.value)))
  }

  /** An answer comes from a mint or from a published grace record. */
  lemma AnswerComesFrom(c: Config, s: State, p: Pid, ch: Choice)
    requires p in s.procs && HasAnswer(Apply(c, s, Step(p, ch)), p)
    ensures s.procs[p].Redeem? && s.procs[p].key == Apply(c, s, Step(p, ch)).procs[p].key
    ensures HasAnswer(s, p) || s.procs[p].pc.Create?
            || (s.procs[p].key in s.grace && s.grace[s.procs[p].key].result.Some?)
  {
  }

  lemma NoSource(c: Config, s: State, p: Pid, t: TokenId)
    requires Inv(c, s) && LoggedOut(s, t) && Silent(s, t) && Presents(s, p, t)
    ensures !s.procs[p].pc.Create?
    ensures s.procs[p].key in s.grace ==> s.grace[s.procs[p].key].result.None?
  {
    var pr := s.procs[p];
    assert pr.pc.Create? ==> Holds(s, p, pr.key.token) && InCustody(s, pr.key.token);
    assert pr.key in s.grace ==> GraceOk(c, s.h, pr.key, s.grace[pr.key]);
  }

  lemma NoNewAnswer(c: Config, s: State, a: Action, p: Pid, t: TokenId)
    requires Inv(c, s) && LoggedOut(s, t) && Silent(s, t)
    requires t in Apply(c, s, a).h.issued && Apply(c, s, a).h.issued[t] == s.h.issued[t]
    requires Presents(Apply(c, s, a), p, t) && HasAnswer(Apply(c, s, a), p)
    ensures Presents(s, p, t) && HasAnswer(s, p)
  {
    if p !in s.procs {
      Newcomer(c, s, a, p);
    } else if a.Step? && a.pid == p {
      AnswerComesFrom(c, s, p, a.choice);
      NoSource(c, s, p, t);
    } else {
      OthersKeep(c, s, a, p);
    }
  }

  /** A process that just arrived has no answer yet. */
  lemma Newcomer(c: Config, s: State, a: Action, p: Pid)
    requires p !in s.procs
    ensures !HasAnswer(Apply(c, s, a), p)
  {
    if a.Step? && a.pid in s.procs { NewcomerStep(c, s, a.pid, a.choice, p); }
  }

  lemma NewcomerStep(c: Config, s: State, q: Pid, ch: Choice, p: Pid)
    requires p !in s.procs && q in s.procs
    ensures p !in Apply(c, s, Step(q, ch)).procs
  {
    if s.procs[q].Revoke? { assert Apply(c, s, Step(q, ch)) == StepRevoke(c, s, q, s.procs[q], ch); }
    else if s.procs[q].Redeem? { assert Apply(c, s, Step(q, ch)) == StepRedeem(c, s, q, s.procs[q], ch); }
  }

  lemma {:induction false} NoNewAnswers(c: Config, s: State, actions: seq<Action>, p: Pid, t: TokenId)
    requires Inv(c, s) && LoggedOut(s, t) && Silent(s, t)
    requires Presents(Run(c, s, actions), p, t) && HasAnswer(Run(c, s, actions), p)
    ensures Presents(s, p, t) && HasAnswer(s, p)
    decreases |actions|
  {
    if actions != [] {
      var s1 := Apply(c, s, actions[0]);
      KeepApply(c, s, actions[0]);
      StepEffect(c, s, actions[0]);
      LoggedOutStep(s, s1, t);
      NoNewAnswers(c, s1, actions[1..], p, t);
      NoNewAnswer(c, s, actions[0], p, t);
    }
  }

  /** Logout. A revocation that found the record of a token some caller was handed ends
      its lineage for good: in no continuation is any of its tokens stored or held again.
      Once the revocation is done and its delete of the predecessor's grace record
      succeeded, no redemption of the token or of its predecessor succeeds that had not
      got its answer by then. */
  lemma Logout(c: Config, s0: State, before: seq<Action>, r: Pid, ch: Choice, t: TokenId,
               during: seq<Action>, after: seq<Action>)
    requires Init(s0)
    requires var s := Run(c, s0, before);
      && Returned(s, t) && r in s.procs && s.procs[r] == Revoke(Id(t), RConsume)
      && !ch.fails && Visible(s.refresh, Id(t), s.now)
    ensures var s := Run(c, s0, before);
      var s1 := Run(c, Apply(c, s, Step(r, ch)), during);
      var s2 := Run(c, s1, after);
      && Dead(s1, s.h.issued[t].lineage) && Dead(s2, s.h.issued[t].lineage)
      && r in s1.procs && s1.procs[r].Revoke?
      && (s1.procs[r].rpc.RDone? && s1.procs[r].rpc.predecessorDeleted ==>
            forall p | Succeeded(s2, p) && Presents(s2, p, t) :: HasAnswer(s1, p))
  {
    var s := Run(c, s0, before);
    InitInv(c, s0);
    KeepRun(c, s0, before);
    KeepApply(c, s, Step(r, ch));
    RevokeStarts(c, s, r, ch, t);
    var found := Apply(c, s, Step(r, ch));
    KeepRun(c, found, during);
    RevokingRun(c, found, during, r, t);
    var s1 := Run(c, found, during);
    LoggedOutRun(c, s1, after, t);
    IssuedStays(c, s, [Step(r, ch)] + during, t);
    IssuedStays(c, found, during, t);
    IssuedStays(c, s1, after, t);
    if s1.procs[r].rpc.RDone? && s1.procs[r].rpc.predecessorDeleted {
      var s2 := Run(c, s1, after);
      forall p | Succeeded(s2, p) && Presents(s2, p, t) ensures HasAnswer(s1, p) {
        NoNewAnswers(c, s1, after, p, t);
      }
    }
  }
}
