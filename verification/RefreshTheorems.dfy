/** The guarantees of refresh-token rotation, over every run of the protocol. */
module RefreshTheorems {
  import opened RefreshProtocol
  import opened RefreshInvariant
  import Scopes

  // ---------------------------------------------- one custodian per lineage

  function LiveTokens(s: State, l: TokenId): set<TokenId> {
    set t | t in s.h.issued && Id(t) in s.refresh && s.h.issued[t].lineage == l
  }

  predicate HoldsOf(s: State, p: Pid, l: TokenId)
    requires p in s.procs
  {
    Holding(s.procs[p]) && s.procs[p].key.Id? && s.procs[p].key.token in s.h.issued
    && s.h.issued[s.procs[p].key.token].lineage == l
  }

  function Holders(s: State, l: TokenId): set<Pid> {
    set p | p in s.procs && HoldsOf(s, p, l)
  }

  lemma AtMostOne<T>(xs: set<T>)
    requires forall x, y | x in xs && y in xs :: x == y
    ensures |xs| <= 1
  {
    if x :| x in xs { assert xs == {x}; }
  }

  /** In every interleaving a session lineage has at most one of: a stored refresh
      record, a redemption holding the record it consumed. Nothing else is stored or held. */
  lemma SingleCustody(c: Config, s0: State, actions: seq<Action>, l: TokenId)
    requires Init(s0)
    ensures var s := Run(c, s0, actions);
      && |LiveTokens(s, l)| + |Holders(s, l)| <= 1
      && (forall k | k in s.refresh && s.refresh[k].value.Rec? :: k.Id? && k.token in s.h.issued)
      && (forall p | p in s.procs && Holding(s.procs[p]) :: s.procs[p].key.Id? && s.procs[p].key.token in s.h.issued)
  {
    InitInv(c, s0);
    KeepRun(c, s0, actions);
    var s := Run(c, s0, actions);
    AtMostOne(LiveTokens(s, l));
    AtMostOne(Holders(s, l));
    if t, p :| t in LiveTokens(s, l) && p in Holders(s, l) {
      assert false;
    }
  }

  /** Each authorization code opens at most one lineage, and only a code that was issued does. */
  lemma CodeOpensOneLineage(c: Config, s0: State, actions: seq<Action>, l: TokenId, k: TokenId, j: nat)
    requires Init(s0)
    requires var s := Run(c, s0, actions);
      && l in s.codes.origin && s.codes.origin[l] == ByCode(j)
      && k in s.codes.origin && s.codes.origin[k] == ByCode(j)
    ensures l == k && j in Run(c, s0, actions).codes.made && j !in Run(c, s0, actions).codes.live
  {
    InitInv(c, s0);
    KeepRun(c, s0, actions);
    assert SpentCode(Run(c, s0, actions).codes, j);
  }

  // --------------------------------------------------- one result per token

  /** The redemption has returned a token set to its caller. */
  predicate Succeeded(s: State, p: Pid) {
    p in s.procs && s.procs[p].Redeem? && s.procs[p].pc.Finished? && s.procs[p].pc.outcome.Ok?
  }

  /** Callers that succeed with one refresh token all present the client it was issued to
      and receive one token set; at most one of them minted it, the others replay it, and
      no replay is later than the configured window, or 60 seconds, after publication. */
  lemma OneResultPerToken(c: Config, requested: int, s0: State, actions: seq<Action>, p: Pid, q: Pid)
    requires Init(s0) && c.graceWindow == ClampGraceWindow(requested)
    requires var s := Run(c, s0, actions);
      Succeeded(s, p) && Succeeded(s, q) && s.procs[p].key == s.procs[q].key
    ensures var s := Run(c, s0, actions);
      var a, b := s.procs[p].pc.outcome, s.procs[q].pc.outcome;
      && a.tokens == b.tokens
      && s.procs[p].key.Id? && s.procs[p].key.token in s.h.issued
      && s.procs[p].client == s.procs[q].client == s.h.issued[s.procs[p].key.token].rec.client
      && (!a.replayed && !b.replayed ==> p == q)
      && (a.replayed ==>
            && s.procs[p].key.token in s.h.minted && s.h.minted[s.procs[p].key.token].publishedAt.Some?
            && var published := s.h.minted[s.procs[p].key.token].publishedAt.value;
            && a.at <= published + requested && a.at <= published + MAX_GRACE_WINDOW)
  {
    InitInv(c, s0);
    KeepRun(c, s0, actions);
    var s := Run(c, s0, actions);
    assert ProcOk(c, s.h, p, s.procs[p]) && ProcOk(c, s.h, q, s.procs[q]);
    if s.procs[p].pc.outcome.replayed && requested <= 0 {
      ReplayNeedsWindow(c, s0, actions, p);
    }
  }

  // With no window nothing polls, so nothing is ever replayed.
  predicate NoReplay(s: State) {
    forall p | p in s.procs && s.procs[p].Redeem? ::
      && !s.procs[p].pc.Poll?
      && (s.procs[p].pc.Clear? || s.procs[p].pc.Finished? ==> s.procs[p].pc.outcome.Ok? ==> !s.procs[p].pc.outcome.replayed)
  }

  lemma NoReplayRedeem(c: Config, s: State, p: Pid, ch: Choice)
    requires c.graceWindow <= 0 && NoReplay(s) && p in s.procs && s.procs[p].Redeem?
    ensures NoReplay(StepRedeem(c, s, p, s.procs[p], ch))
  {
    var pr := s.procs[p];
    if pr.pc.Consume? { NoReplayAt(s, DoConsume(c, s, p, pr, ch), p); }
    else if pr.pc.Validate? { NoReplayAt(s, DoValidate(c, s, p, pr, ch), p); }
    else if pr.pc.Create? && pr.key.Id? { NoReplayAt(s, DoCreate(c, s, p, pr, ch), p); }
    else if pr.pc.Publish? && pr.key.Id? { NoReplayAt(s, DoPublish(c, s, p, pr, ch), p); }
  }

  /** A step that moves one redemption, to no replay. */
  lemma NoReplayAt(s: State, s': State, p: Pid)
    requires NoReplay(s) && p in s'.procs && s'.procs == s.procs[p := s'.procs[p]]
    requires s'.procs[p].Redeem? && !s'.procs[p].pc.Poll?
    requires s'.procs[p].pc.Clear? || s'.procs[p].pc.Finished? ==> s'.procs[p].pc.outcome.Ok? ==> !s'.procs[p].pc.outcome.replayed
    ensures NoReplay(s')
  {
  }

  lemma NoReplayStep(c: Config, s: State, a: Action)
    requires c.graceWindow <= 0 && NoReplay(s)
    ensures NoReplay(Apply(c, s, a))
  {
    if a.Step? && a.pid in s.procs && s.procs[a.pid].Redeem? { NoReplayRedeem(c, s, a.pid, a.choice); }
  }

  lemma {:induction false} NoReplayRun(c: Config, s: State, actions: seq<Action>)
    requires c.graceWindow <= 0 && NoReplay(s)
    ensures NoReplay(Run(c, s, actions))
    decreases |actions|
  {
    if actions != [] {
      NoReplayStep(c, s, actions[0]);
      NoReplayRun(c, Apply(c, s, actions[0]), actions[1..]);
    }
  }

  lemma ReplayNeedsWindow(c: Config, s0: State, actions: seq<Action>, p: Pid)
    requires Init(s0)
    requires Succeeded(Run(c, s0, actions), p) && Run(c, s0, actions).procs[p].pc.outcome.replayed
    ensures c.graceWindow > 0
  {
    if c.graceWindow <= 0 { NoReplayRun(c, s0, actions); }
  }

  // ------------------------------------------------------ the chain of rotations

  /** No forks, and nothing about the session moves: two tokens never share a
      predecessor; along a lineage subject, client, method, scope and first issue time are
      those of its first token; every minted token set reports that scope; every rotation
      was validated before its record's expiry and within maxSessionAge of the login. */
  lemma RotationChain(c: Config, s0: State, actions: seq<Action>, t: TokenId, u: TokenId)
    requires Init(s0)
    requires var s := Run(c, s0, actions); t in s.h.issued && u in s.h.issued
    ensures var s := Run(c, s0, actions);
      && var root := s.h.issued[t].lineage;
      && root in s.h.issued && SameSession(s.h.issued[t].rec, s.h.issued[root].rec)
      && (s.h.issued[t].rec.predecessor.Some? && s.h.issued[t].rec.predecessor == s.h.issued[u].rec.predecessor ==> t == u)
      && (t in s.h.minted ==>
            && s.h.minted[t].tokens.scope == s.h.issued[root].rec.scope
            && s.h.minted[t].tokens.subject == s.h.issued[root].rec.subject
            && Unix(s.h.minted[t].validatedAt) <= s.h.issued[t].rec.expiresAt
            && (c.maxSessionAge > 0 ==>
                  s.h.minted[t].validatedAt <= s.h.issued[root].rec.originalIssuedAt * SECOND + c.maxSessionAge))
  {
    InitInv(c, s0);
    KeepRun(c, s0, actions);
    var h := Run(c, s0, actions).h;
    assert TokenOk(h, t) && TokenOk(h, u);
    assert t in h.minted ==> MintOk(c, h, t);
  }

  /** However often a record is consumed and restored, what is stored under a token is the
      record it was issued with, expiry included. */
  lemma StoredRecordNeverChanges(c: Config, s0: State, before: seq<Action>, after: seq<Action>, t: TokenId)
    requires Init(s0) && t in Run(c, s0, before).h.issued
    ensures var s := Run(c, s0, before);
      var s' := Run(c, s, after);
      && t in s'.h.issued && s'.h.issued[t] == s.h.issued[t]
      && (Id(t) in s'.refresh ==> s'.refresh[Id(t)].value == Rec(s.h.issued[t].rec))
  {
    InitInv(c, s0);
    KeepRun(c, s0, before);
    KeepRun(c, Run(c, s0, before), after);
    IssuedStays(c, Run(c, s0, before), after, t);
    var s' := Run(c, Run(c, s0, before), after);
    assert Id(t) in s'.refresh ==> EntryOk(s'.h, Id(t), s'.refresh[Id(t)].value);
  }

  lemma {:induction false} IssuedStays(c: Config, s: State, actions: seq<Action>, t: TokenId)
    requires t in s.h.issued
    ensures t in Run(c, s, actions).h.issued && Run(c, s, actions).h.issued[t] == s.h.issued[t]
    decreases |actions|
  {
    if actions != [] {
      var s1 := Apply(c, s, actions[0]);
      assert t in s1.h.issued && s1.h.issued[t] == s.h.issued[t];
      IssuedStays(c, s1, actions[1..], t);
    }
  }
}
