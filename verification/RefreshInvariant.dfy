/** What every step of the rotation protocol keeps. Each part of the invariant names
    only the parts of the state it is about. */
module RefreshInvariant {
  import opened RefreshProtocol
  import Scopes

  /** t is the newest token of its lineage. */
  predicate IsTip(h: History, t: TokenId) {
    t in h.issued && h.issued[t].lineage in h.tip && h.tip[h.issued[t].lineage] == t
  }

  /** What a rotation carries over unchanged. */
  predicate SameSession(a: Record, b: Record) {
    && a.subject == b.subject && a.client == b.client && a.authMethod == b.authMethod
    && a.scope == b.scope && a.originalIssuedAt == b.originalIssuedAt
  }

  predicate TokenOk(h: History, t: TokenId)
    requires t in h.issued
  {
    var i := h.issued[t];
    && i.lineage in h.issued && i.lineage in h.tip
    && SameSession(i.rec, h.issued[i.lineage].rec)
    && i.rec.originalIssuedAt > 0
    && Scopes.GrantedScope(i.rec.scope) == i.rec.scope
    && match i.rec.predecessor
       case None => i.lineage == t
       case Some(u) => u in h.minted && h.minted[u].tokens.refresh == t
  }

  predicate TipOk(h: History, l: TokenId)
    requires l in h.tip
  {
    h.tip[l] in h.issued && h.issued[h.tip[l]].lineage == l && h.tip[l] !in h.minted
  }

  /** The record passed the expiry and session-age checks when it was validated. */
  predicate Timely(c: Config, rec: Record, validatedAt: int) {
    && Unix(validatedAt) <= rec.expiresAt
    && (c.maxSessionAge > 0 ==> validatedAt - rec.originalIssuedAt * SECOND <= c.maxSessionAge)
  }

  predicate MintOk(c: Config, h: History, u: TokenId)
    requires u in h.minted
  {
    var m := h.minted[u];
    && u in h.issued && m.tokens.refresh in h.issued
    && h.issued[m.tokens.refresh].rec.predecessor == Some(u)
    && h.issued[m.tokens.refresh].lineage == h.issued[u].lineage
    && m.tokens.scope == h.issued[u].rec.scope
    && m.tokens.subject == h.issued[u].rec.subject
    && Timely(c, h.issued[u].rec, m.validatedAt)
  }

  predicate HistoryOk(c: Config, h: History) {
    && (forall t {:trigger TokenOk(h, t)} | t in h.issued :: TokenOk(h, t))
    && (forall l {:trigger TipOk(h, l)} | l in h.tip :: TipOk(h, l))
    && (forall u {:trigger MintOk(c, h, u)} | u in h.minted :: MintOk(c, h, u))
  }

  predicate EntryOk(h: History, k: Key, v: Value) {
    match k
    case Id(t) => IsTip(h, t) && v == Rec(h.issued[t].rec)
    case Tomb(_) => v.Mark?
  }

  predicate EntriesOk(h: History, refresh: map<Key, Entry>) {
    forall k | k in refresh :: EntryOk(h, k, refresh[k].value)
  }

  /** A held record is its lineage's newest; a redemption with an answer is its token's
      one mint or a timely replay of it. */
  predicate ProcOk(c: Config, h: History, p: Pid, pr: Process) {
    && (Holding(pr) ==>
          && pr.key.Id? && IsTip(h, pr.key.token)
          && pr.pc.rec == h.issued[pr.key.token].rec
          && (pr.pc.Create? ==> Timely(c, pr.pc.rec, pr.pc.validatedAt) && pr.pc.rec.client == pr.client))
    && (pr.Redeem? && pr.pc.Publish? ==>
          && pr.key.Id? && pr.key.token in h.minted && pr.key.token in h.issued
          && var m := h.minted[pr.key.token];
          && pr.pc.tokens == m.tokens && m.minter == p && m.publishedAt.None?
          && pr.pc.client == pr.client == h.issued[pr.key.token].rec.client)
    && (pr.Redeem? && (pr.pc.Clear? || pr.pc.Finished?) ==> OutcomeOk(c, h, p, pr, pr.pc.outcome))
  }

  predicate OutcomeOk(c: Config, h: History, p: Pid, pr: Process, o: Outcome)
    requires pr.Redeem?
  {
    o.Ok? ==>
      && pr.key.Id? && pr.key.token in h.minted && pr.key.token in h.issued
      && var m := h.minted[pr.key.token];
      && o.tokens == m.tokens
      && pr.client == h.issued[pr.key.token].rec.client
      && (!o.replayed ==> m.minter == p)
      && (o.replayed ==> pr.pc.Finished? && m.publishedAt.Some? && o.at <= m.publishedAt.value + c.graceWindow)
  }

  predicate ProcsOk(c: Config, h: History, procs: map<Pid, Process>) {
    forall p | p in procs :: ProcOk(c, h, p, procs[p])
  }

  /** No record is held twice, or held and stored. */
  predicate Exclusive(refresh: map<Key, Entry>, procs: map<Pid, Process>) {
    && (forall p | p in procs && Holding(procs[p]) :: procs[p].key !in refresh)
    && (forall p, q | p in procs && q in procs && Holding(procs[p]) && Holding(procs[q]) && p != q ::
          procs[p].key != procs[q].key)
  }

  predicate GraceOk(c: Config, h: History, k: Key, g: GraceEntry) {
    g.result.Some? ==>
      && k.Id? && k.token in h.minted && k.token in h.issued
      && var m := h.minted[k.token];
      && g.result.value == m.tokens
      && g.client == h.issued[k.token].rec.client
      && m.publishedAt.Some? && g.expiry == m.publishedAt.value + c.graceWindow
  }

  predicate GracesOk(c: Config, h: History, grace: map<Key, GraceEntry>) {
    && (forall k | k in grace :: GraceOk(c, h, k, grace[k]))
    && (c.graceWindow <= 0 ==> grace == map[])
  }

  predicate Minting(pr: Process) { pr.Exchange? && pr.xpc.XMint? }

  predicate SpentCode(x: CodeBook, j: nat) { exists l :: l in x.origin && x.origin[l] == ByCode(j) }

  /** A code is unredeemed, being redeemed by one exchange, or spent on one lineage. */
  predicate CodesOk(x: CodeBook, procs: map<Pid, Process>) {
    && (forall j | j in x.live :: j in x.made && !SpentCode(x, j))
    && (forall p | p in procs && Minting(procs[p]) ::
          procs[p].jti in x.made && procs[p].jti !in x.live && !SpentCode(x, procs[p].jti))
    && (forall p, q | p in procs && q in procs && Minting(procs[p]) && Minting(procs[q]) && p != q ::
          procs[p].jti != procs[q].jti)
    && (forall l | l in x.origin && x.origin[l].ByCode? :: x.origin[l].jti in x.made)
    && (forall l, k | l in x.origin && k in x.origin && x.origin[l].ByCode? && x.origin[l] == x.origin[k] :: l == k)
  }

  predicate OriginsIssued(h: History, x: CodeBook) { forall l | l in x.origin :: l in h.issued }

  predicate Inv(c: Config, s: State) {
    && Unix(s.now) > 0
    && HistoryOk(c, s.h)
    && EntriesOk(s.h, s.refresh)
    && ProcsOk(c, s.h, s.procs)
    && Exclusive(s.refresh, s.procs)
    && GracesOk(c, s.h, s.grace)
    && CodesOk(s.codes, s.procs)
    && OriginsIssued(s.h, s.codes)
  }

  // ------------------------------------------------------- steps that keep it

  lemma KeepTick(c: Config, s: State, d: nat)
    requires Inv(c, s)
    ensures Inv(c, Apply(c, s, Tick(d)))
  {
  }

  lemma KeepEvict(c: Config, s: State, k: Key, j: nat)
    requires Inv(c, s)
    ensures Inv(c, Apply(c, s, EvictRefresh(k)))
    ensures Inv(c, Apply(c, s, EvictGrace(k)))
    ensures Inv(c, Apply(c, s, EvictCode(j)))
  {
  }

  lemma KeepIssueCode(c: Config, s: State, j: nat)
    requires Inv(c, s)
    ensures Inv(c, Apply(c, s, IssueCode(j)))
  {
  }

  /** A process that neither mints from a code nor holds a record may take any place. */
  lemma KeepIdle(c: Config, s: State, p: Pid, pr: Process)
    requires Inv(c, s) && !Holding(pr) && !Minting(pr) && ProcOk(c, s.h, p, pr)
    ensures Inv(c, SetProc(s, p, pr))
  {
  }

  lemma KeepBegin(c: Config, s: State, p: Pid, k: Key, client: string, j: nat)
    requires Inv(c, s)
    ensures Inv(c, Apply(c, s, BeginRedeem(p, k, client)))
    ensures Inv(c, Apply(c, s, BeginRevoke(p, k)))
    ensures Inv(c, Apply(c, s, BeginExchange(p, j)))
  {
    KeepIdle(c, s, p, Redeem(k, client, Consume));
    KeepIdle(c, s, p, Revoke(k, RConsume));
    KeepIdle(c, s, p, Exchange(j, XConsume));
  }

  lemma KeepTombstone(c: Config, s: State, k: Key, expiry: int)
    requires Inv(c, s)
    ensures Inv(c, s.(refresh := s.refresh[Tomb(k) := Entry(Mark, expiry)]))
  {
  }

  lemma KeepRevoke(c: Config, s: State, p: Pid, ch: Choice)
    requires Inv(c, s) && p in s.procs && s.procs[p].Revoke?
    ensures Inv(c, StepRevoke(c, s, p, s.procs[p], ch))
  {
    var pr := s.procs[p];
    match pr.rpc
    case RConsume => KeepRevokeConsume(c, s, p, ch);
    case RTombstone(_) => KeepRevokeTombstone(c, s, p, ch);
    case RGraceSelf(_) => KeepRevokeGrace(c, s, p, ch, pr.key);
    case RGracePredecessor(found, _) =>
      KeepRevokeGrace(c, s, p, ch, if found.Some? && found.value.predecessor.Some?
                                   then Id(found.value.predecessor.value) else pr.key);
    case RDone(_, _, _) =>
  }

  lemma KeepRevokeConsume(c: Config, s: State, p: Pid, ch: Choice)
    requires Inv(c, s) && p in s.procs && s.procs[p].Revoke? && s.procs[p].rpc.RConsume?
    ensures Inv(c, RevokeConsume(c, s, p, s.procs[p], ch))
  {
    var s' := RevokeConsume(c, s, p, s.procs[p], ch);
    KeepEvict(c, s, s.procs[p].key, 0);
    KeepIdle(c, s.(refresh := s'.refresh), p, s'.procs[p]);
  }

  lemma KeepRevokeTombstone(c: Config, s: State, p: Pid, ch: Choice)
    requires Inv(c, s) && p in s.procs && s.procs[p].Revoke? && s.procs[p].rpc.RTombstone?
    ensures Inv(c, RevokeTombstone(c, s, p, s.procs[p], ch))
  {
    var s' := RevokeTombstone(c, s, p, s.procs[p], ch);
    KeepTombstone(c, s, s.procs[p].key, s.now + TOMBSTONE_TTL);
    KeepIdle(c, s.(refresh := s'.refresh), p, s'.procs[p]);
  }

  lemma KeepRevokeGrace(c: Config, s: State, p: Pid, ch: Choice, k: Key)
    requires Inv(c, s) && p in s.procs && s.procs[p].Revoke?
    requires s.procs[p].rpc.RGraceSelf? || s.procs[p].rpc.RGracePredecessor?
    requires StepRevoke(c, s, p, s.procs[p], ch).grace in {s.grace, s.grace - {k}}
    ensures Inv(c, StepRevoke(c, s, p, s.procs[p], ch))
  {
    var s' := StepRevoke(c, s, p, s.procs[p], ch);
    KeepEvict(c, s, k, 0);
    assert s.(grace := s.grace) == s;
    KeepIdle(c, s.(grace := s'.grace), p, s'.procs[p]);
  }

  /** Taking a stored record. */
  lemma KeepTaken(c: Config, s: State, p: Pid, rec: Record)
    requires Inv(c, s) && p in s.procs && s.procs[p].Redeem? && s.procs[p].pc.Consume?
    requires s.procs[p].key in s.refresh && s.refresh[s.procs[p].key].value == Rec(rec)
    ensures Inv(c, SetPc(s.(refresh := s.refresh - {s.procs[p].key}), p, s.procs[p], MarkInFlight(rec)))
  {
    assert EntryOk(s.h, s.procs[p].key, s.refresh[s.procs[p].key].value);
  }

  lemma KeepConsume(c: Config, s: State, p: Pid, ch: Choice)
    requires Inv(c, s) && p in s.procs && s.procs[p].Redeem? && s.procs[p].pc.Consume?
    ensures Inv(c, DoConsume(c, s, p, s.procs[p], ch))
  {
    var pr := s.procs[p];
    if ch.fails {
      KeepIdle(c, s, p, pr.(pc := Finished(ServerError)));
    } else if !Visible(s.refresh, pr.key, s.now) {
      KeepIdle(c, s, p, pr.(pc := if c.graceWindow > 0 then Poll(0, false) else Recheck));
    } else if s.refresh[pr.key].value.Rec? {
      KeepTaken(c, s, p, s.refresh[pr.key].value.rec);
    } else {
      KeepEvict(c, s, pr.key, 0);
      KeepIdle(c, s.(refresh := s.refresh - {pr.key}), p, pr.(pc := Finished(ServerError)));
    }
  }

  lemma KeepMark(c: Config, s: State, p: Pid, ch: Choice)
    requires Inv(c, s) && p in s.procs && s.procs[p].Redeem? && s.procs[p].pc.MarkInFlight?
    ensures Inv(c, DoMark(c, s, p, s.procs[p], ch))
  {
  }

  lemma KeepValidate(c: Config, s: State, p: Pid, ch: Choice)
    requires Inv(c, s) && p in s.procs && s.procs[p].Redeem? && s.procs[p].pc.Validate?
    ensures Inv(c, DoValidate(c, s, p, s.procs[p], ch))
  {
  }

  lemma KeepRestore(c: Config, s: State, p: Pid, ch: Choice)
    requires Inv(c, s) && p in s.procs && s.procs[p].Redeem? && s.procs[p].pc.RestoreSet?
    ensures Inv(c, DoRestoreSet(c, s, p, s.procs[p], ch))
  {
  }

  lemma KeepPoll(c: Config, s: State, p: Pid, ch: Choice)
    requires Inv(c, s) && p in s.procs && s.procs[p].Redeem?
    requires s.procs[p].pc.Poll?
    ensures Inv(c, DoPoll(c, s, p, s.procs[p], ch))
  {
  }

  lemma KeepRecheck(c: Config, s: State, p: Pid, ch: Choice)
    requires Inv(c, s) && p in s.procs && s.procs[p].Redeem? && s.procs[p].pc.Recheck?
    ensures Inv(c, DoRecheck(c, s, p, s.procs[p], ch))
  {
  }

  lemma KeepClear(c: Config, s: State, p: Pid, ch: Choice)
    requires Inv(c, s) && p in s.procs && s.procs[p].Redeem? && s.procs[p].pc.Clear?
    ensures Inv(c, DoClear(c, s, p, s.procs[p], ch))
  {
  }

  lemma KeepRestoreCheck(c: Config, s: State, p: Pid, ch: Choice)
    requires Inv(c, s) && p in s.procs && s.procs[p].Redeem? && s.procs[p].pc.RestoreCheck?
    ensures Inv(c, DoRestoreCheck(c, s, p, s.procs[p], ch))
  {
  }

  lemma HistoryOpenLineage(c: Config, h: History, rec: Record, newId: TokenId)
    requires HistoryOk(c, h) && newId !in h.issued
    requires rec.originalIssuedAt > 0 && rec.predecessor.None? && Scopes.GrantedScope(rec.scope) == rec.scope
    ensures HistoryOk(c, h.(issued := h.issued[newId := Issue(rec, newId)], tip := h.tip[newId := newId]))
  {
    var h' := h.(issued := h.issued[newId := Issue(rec, newId)], tip := h.tip[newId := newId]);
    forall t | t in h'.issued ensures TokenOk(h', t) { assert t != newId ==> TokenOk(h, t); }
    forall l | l in h'.tip ensures TipOk(h', l) {
      assert l != newId ==> TipOk(h, l);
      assert newId in h.minted ==> MintOk(c, h, newId);
    }
    forall u | u in h'.minted ensures MintOk(c, h', u) { assert MintOk(c, h, u); }
  }

  /** How the history moves: nothing issued or minted is changed, except that a mint may
      be published, and only t stops being a newest token. */
  ghost predicate Grows(h: History, h': History, t: TokenId) {
    && (forall u | u in h.issued :: u in h'.issued && h'.issued[u] == h.issued[u])
    && (forall u | u in h.minted :: u in h'.minted && h'.minted[u].tokens == h.minted[u].tokens
          && h'.minted[u].minter == h.minted[u].minter
          && (h'.minted[u].publishedAt == h.minted[u].publishedAt || (u == t && h.minted[u].publishedAt.None?)))
    && (forall u | u != t && IsTip(h, u) :: IsTip(h', u))
  }

  lemma ProcGrows(c: Config, h: History, h': History, t: TokenId, p: Pid, pr: Process)
    requires Grows(h, h', t) && ProcOk(c, h, p, pr)
    requires pr.Redeem? && pr.key == Id(t) ==> !Holding(pr) && !pr.pc.Publish?
    ensures ProcOk(c, h', p, pr)
  {
  }

  lemma GraceGrows(c: Config, h: History, h': History, t: TokenId, k: Key, g: GraceEntry)
    requires Grows(h, h', t) && GraceOk(c, h, k, g)
    ensures GraceOk(c, h', k, g)
  {
  }

  lemma KeepOpenLineage(c: Config, s: State, g: Grant, newId: TokenId, o: Origin)
    requires Inv(c, s) && newId !in s.h.issued
    requires CodesOk(s.codes.(origin := s.codes.origin[newId := o]), s.procs)
    ensures Inv(c, OpenLineage(c, s, g, newId, o))
  {
    Scopes.GrantedScopeIsFixpoint(g.requested);
    var rec := FirstRecord(c, s.now, g);
    HistoryOpenLineage(c, s.h, rec, newId);
    var s' := OpenLineage(c, s, g, newId, o);
    forall u | u != newId && IsTip(s.h, u) ensures IsTip(s'.h, u) { assert TokenOk(s.h, u); }
    assert Grows(s.h, s'.h, newId);
    forall k | k in s'.refresh ensures EntryOk(s'.h, k, s'.refresh[k].value) {
      if k != Id(newId) { assert EntryOk(s.h, k, s.refresh[k].value); }
    }
    forall p | p in s.procs
      ensures ProcOk(c, s'.h, p, s.procs[p])
      ensures Holding(s.procs[p]) ==> s.procs[p].key !in s'.refresh
    {
      ProcGrows(c, s.h, s'.h, newId, p, s.procs[p]);
    }
    forall k | k in s.grace ensures GraceOk(c, s'.h, k, s.grace[k]) { GraceGrows(c, s.h, s'.h, newId, k, s.grace[k]); }
  }

  lemma SpentByOthers(x: CodeBook, l: TokenId, o: Origin, j: nat)
    requires o != ByCode(j) && !SpentCode(x, j)
    ensures !SpentCode(x.(origin := x.origin[l := o]), j)
  {
  }

  lemma KeepLogin(c: Config, s: State, g: Grant, newId: TokenId)
    requires Inv(c, s)
    ensures Inv(c, Apply(c, s, Login(g, newId)))
  {
    if newId !in s.h.issued {
      var x := s.codes.(origin := s.codes.origin[newId := ByLogin]);
      forall j | !SpentCode(s.codes, j) ensures !SpentCode(x, j) {
        SpentByOthers(s.codes, newId, ByLogin, j);
      }
      KeepOpenLineage(c, s, g, newId, ByLogin);
    }
  }

  lemma KeepExchange(c: Config, s: State, p: Pid, ch: Choice)
    requires Inv(c, s) && p in s.procs && s.procs[p].Exchange?
    ensures Inv(c, StepExchange(c, s, p, s.procs[p], ch))
  {
    var pr := s.procs[p];
    var s' := StepExchange(c, s, p, pr, ch);
    if pr.xpc.XMint? && !ch.fails && ch.outside.Pass? && ch.newId !in s.h.issued {
      KeepSpend(c, s, p, ch);
    } else if Minting(s'.procs[p]) && !Minting(pr) {
      KeepTakeCode(c, s, p);
    } else if !Minting(pr) || !Minting(s'.procs[p]) {
      KeepIdle(c, s, p, s'.procs[p]);
    }
  }

  lemma KeepTakeCode(c: Config, s: State, p: Pid)
    requires Inv(c, s) && p in s.procs && s.procs[p].Exchange? && s.procs[p].jti in s.codes.live
    ensures var j := s.procs[p].jti;
      Inv(c, SetProc(s.(codes := s.codes.(live := s.codes.live - {j})), p, Exchange(j, XMint)))
  {
    var j := s.procs[p].jti;
    var x := s.codes.(live := s.codes.live - {j});
    assert forall i :: SpentCode(x, i) == SpentCode(s.codes, i);
  }

  lemma CodesSpend(x: CodeBook, procs: map<Pid, Process>, p: Pid, pr: Process, newId: TokenId)
    requires CodesOk(x, procs) && p in procs && Minting(procs[p]) && !Minting(pr) && newId !in x.origin
    ensures CodesOk(x.(origin := x.origin[newId := ByCode(procs[p].jti)]), procs[p := pr])
  {
    var j := procs[p].jti;
    var x' := x.(origin := x.origin[newId := ByCode(j)]);
    forall i | i != j && !SpentCode(x, i) ensures !SpentCode(x', i) { SpentByOthers(x, newId, ByCode(j), i); }
  }

  lemma KeepSpend(c: Config, s: State, p: Pid, ch: Choice)
    requires Inv(c, s) && p in s.procs && Minting(s.procs[p]) && ch.newId !in s.h.issued
    ensures var j := s.procs[p].jti;
      Inv(c, SetProc(OpenLineage(c, s, ch.grant, ch.newId, ByCode(j)), p, Exchange(j, XDone(Some(ch.newId)))))
  {
    var j := s.procs[p].jti;
    var done := Exchange(j, XDone(Some(ch.newId)));
    KeepIdle(c, s, p, done);
    CodesSpend(s.codes, s.procs, p, done, ch.newId);
    KeepOpenLineage(c, SetProc(s, p, done), ch.grant, ch.newId, ByCode(j));
    OpenLineageFrame(c, s, ch.grant, ch.newId, ByCode(j), p, done);
  }

  lemma OpenLineageFrame(c: Config, s: State, g: Grant, newId: TokenId, o: Origin, p: Pid, pr: Process)
    ensures SetProc(OpenLineage(c, s, g, newId, o), p, pr) == OpenLineage(c, SetProc(s, p, pr), g, newId, o)
  {
  }

  /** The history with t rotated into newId. */
  function Grown(h: History, t: TokenId, next: Record, newId: TokenId, m: Mint): History
    requires t in h.issued
  {
    var l := h.issued[t].lineage;
    h.(issued := h.issued[newId := Issue(next, l)], tip := h.tip[l := newId], minted := h.minted[t := m])
  }

  predicate CreateOk(c: Config, h: History, t: TokenId, next: Record, newId: TokenId, m: Mint) {
    && HistoryOk(c, h) && newId !in h.issued && IsTip(h, t)
    && SameSession(next, h.issued[t].rec) && next.predecessor == Some(t)
    && m.tokens.refresh == newId && m.tokens.scope == h.issued[t].rec.scope
    && m.tokens.subject == h.issued[t].rec.subject && Timely(c, h.issued[t].rec, m.validatedAt)
  }

  lemma CreateToken(c: Config, h: History, t: TokenId, next: Record, newId: TokenId, m: Mint, u: TokenId)
    requires CreateOk(c, h, t, next, newId, m) && (u in h.issued || u == newId)
    ensures TokenOk(Grown(h, t, next, newId, m), u)
  {
    var l := h.issued[t].lineage;
    assert TokenOk(h, t) && TipOk(h, l) && TokenOk(h, l);
    if u != newId { assert TokenOk(h, u); }
  }

  lemma CreateTip(c: Config, h: History, t: TokenId, next: Record, newId: TokenId, m: Mint, k: TokenId)
    requires CreateOk(c, h, t, next, newId, m) && (k in h.tip || k == h.issued[t].lineage)
    ensures TipOk(Grown(h, t, next, newId, m), k)
  {
    assert TokenOk(h, t);
    if k != h.issued[t].lineage { assert TipOk(h, k); } else { assert newId in h.minted ==> MintOk(c, h, newId); }
  }

  lemma CreateMint(c: Config, h: History, t: TokenId, next: Record, newId: TokenId, m: Mint, u: TokenId)
    requires CreateOk(c, h, t, next, newId, m) && (u in h.minted || u == t)
    ensures MintOk(c, Grown(h, t, next, newId, m), u)
  {
    if u != t { assert MintOk(c, h, u); }
  }

  lemma HistoryCreate(c: Config, h: History, t: TokenId, next: Record, newId: TokenId, m: Mint)
    requires CreateOk(c, h, t, next, newId, m)
    ensures HistoryOk(c, Grown(h, t, next, newId, m))
  {
    var h' := Grown(h, t, next, newId, m);
    forall u | u in h'.issued ensures TokenOk(h', u) { CreateToken(c, h, t, next, newId, m, u); }
    forall k | k in h'.tip ensures TipOk(h', k) { CreateTip(c, h, t, next, newId, m, k); }
    forall u | u in h'.minted ensures MintOk(c, h', u) { CreateMint(c, h, t, next, newId, m, u); }
  }

  lemma CreateGrows(c: Config, h: History, t: TokenId, next: Record, newId: TokenId, m: Mint)
    requires HistoryOk(c, h) && newId !in h.issued && IsTip(h, t)
    ensures Grows(h, Grown(h, t, next, newId, m), t)
  {
    assert TipOk(h, h.issued[t].lineage);
  }

  lemma KeepCreate(c: Config, s: State, p: Pid, ch: Choice)
    requires Inv(c, s) && p in s.procs && s.procs[p].Redeem? && s.procs[p].pc.Create? && s.procs[p].key.Id?
    ensures Inv(c, DoCreate(c, s, p, s.procs[p], ch))
  {
    if ch.fails {
      KeepCreateFails(c, s, p);
    } else if ch.newId !in s.h.issued {
      KeepCreated(c, s, p, ch);
    }
  }

  /** Others' records stay theirs when a successor is stored under a new id. */
  lemma CreateFrame(c: Config, s: State, p: Pid, pr': Process, newId: TokenId, e: Entry)
    requires Inv(c, s) && newId !in s.h.issued && !Holding(pr') && !Minting(pr')
    ensures Exclusive(s.refresh[Id(newId) := e], s.procs[p := pr']) && CodesOk(s.codes, s.procs[p := pr'])
  {
  }

  lemma CreateEntries(c: Config, s: State, p: Pid, next: Record, newId: TokenId, m: Mint, e: Entry)
    requires Inv(c, s) && p in s.procs && Holding(s.procs[p]) && s.procs[p].key.Id? && s.procs[p].key.token in s.h.issued
    requires newId !in s.h.issued && e.value == Rec(next)
    ensures EntriesOk(Grown(s.h, s.procs[p].key.token, next, newId, m), s.refresh[Id(newId) := e])
  {
    var h' := Grown(s.h, s.procs[p].key.token, next, newId, m);
    assert ProcOk(c, s.h, p, s.procs[p]);
    forall k | k in s.refresh && k != Id(newId) ensures EntryOk(h', k, s.refresh[k].value) {
      assert EntryOk(s.h, k, s.refresh[k].value);
    }
  }

  lemma KeepCreated(c: Config, s: State, p: Pid, ch: Choice)
    requires Inv(c, s) && p in s.procs && s.procs[p].Redeem? && s.procs[p].pc.Create? && s.procs[p].key.Id?
    requires !ch.fails && ch.newId !in s.h.issued
    ensures Inv(c, DoCreate(c, s, p, s.procs[p], ch))
  {
    var pr := s.procs[p];
    var t := pr.key.token;
    assert ProcOk(c, s.h, p, pr);
    assert TokenOk(s.h, t);
    TipNotMinted(c, s.h, t);
    var s' := DoCreate(c, s, p, pr, ch);
    var next := Rotated(c, s.now, pr.pc.rec, t);
    HistoryCreate(c, s.h, t, next, ch.newId, s'.h.minted[t]);
    CreateGrows(c, s.h, t, next, ch.newId, s'.h.minted[t]);
    CreateFrame(c, s, p, s'.procs[p], ch.newId, s'.refresh[Id(ch.newId)]);
    CreateEntries(c, s, p, next, ch.newId, s'.h.minted[t], s'.refresh[Id(ch.newId)]);
    forall q | q in s'.procs ensures ProcOk(c, s'.h, q, s'.procs[q]) {
      if q != p { ProcGrows(c, s.h, s'.h, t, q, s.procs[q]); }
    }
    forall k | k in s.grace ensures GraceOk(c, s'.h, k, s.grace[k]) { GraceGrows(c, s.h, s'.h, t, k, s.grace[k]); }
  }

  lemma KeepCreateFails(c: Config, s: State, p: Pid)
    requires Inv(c, s) && p in s.procs && s.procs[p].Redeem? && s.procs[p].pc.Create?
    ensures Inv(c, SetPc(s, p, s.procs[p], RestoreCheck(s.procs[p].pc.rec)))
  {
  }

  function Published(h: History, t: TokenId, at: int): History
    requires t in h.minted
  {
    h.(minted := h.minted[t := h.minted[t].(publishedAt := Some(at))])
  }

  lemma TokenPublish(h: History, t: TokenId, at: int, u: TokenId)
    requires t in h.minted && u in h.issued && TokenOk(h, u)
    ensures TokenOk(Published(h, t, at), u)
  {
  }

  lemma MintPublish(c: Config, h: History, t: TokenId, at: int, u: TokenId)
    requires t in h.minted && u in h.minted && MintOk(c, h, u)
    ensures MintOk(c, Published(h, t, at), u)
  {
  }

  lemma HistoryPublish(c: Config, h: History, t: TokenId, at: int)
    requires HistoryOk(c, h) && t in h.minted
    ensures HistoryOk(c, Published(h, t, at))
  {
    forall u | u in h.issued ensures TokenOk(Published(h, t, at), u) { TokenPublish(h, t, at, u); }
    forall k | k in h.tip ensures TipOk(Published(h, t, at), k) { assert TipOk(h, k); }
    forall u | u in h.minted ensures MintOk(c, Published(h, t, at), u) { MintPublish(c, h, t, at, u); }
  }

  /** A token that has been rotated is no longer its lineage's newest, nor anybody's to hold. */
  lemma TipNotMinted(c: Config, h: History, t: TokenId)
    requires HistoryOk(c, h) && IsTip(h, t)
    ensures t !in h.minted
  {
    assert TipOk(h, h.issued[t].lineage);
  }

  lemma MintedNotHeld(c: Config, s: State, p: Pid, t: TokenId)
    requires Inv(c, s) && p in s.procs && t in s.h.minted
    ensures !(Holding(s.procs[p]) && s.procs[p].key == Id(t))
  {
    if IsTip(s.h, t) { TipNotMinted(c, s.h, t); }
  }

  lemma PublishProcs(c: Config, s: State, s': State, p: Pid)
    requires Inv(c, s) && p in s.procs && s.procs[p].Redeem? && s.procs[p].key.Id? && s.procs[p].key.token in s.h.minted
    requires Grows(s.h, s'.h, s.procs[p].key.token)
    requires s'.procs.Keys == s.procs.Keys && ProcOk(c, s'.h, p, s'.procs[p])
    requires forall q | q in s.procs && q != p :: s'.procs[q] == s.procs[q] && (s.procs[q].Redeem? && s.procs[q].pc.Publish? ==> s.procs[q].key != s.procs[p].key)
    ensures ProcsOk(c, s'.h, s'.procs)
  {
    forall q | q in s'.procs ensures ProcOk(c, s'.h, q, s'.procs[q]) {
      if q != p {
        MintedNotHeld(c, s, q, s.procs[p].key.token);
        ProcGrows(c, s.h, s'.h, s.procs[p].key.token, q, s.procs[q]);
      }
    }
  }

  lemma PublishGraces(c: Config, s: State, s': State, k: Key, t: TokenId)
    requires GracesOk(c, s.h, s.grace) && Grows(s.h, s'.h, t) && c.graceWindow > 0
    requires k in s'.grace && GraceOk(c, s'.h, k, s'.grace[k]) && s'.grace == s.grace[k := s'.grace[k]]
    ensures GracesOk(c, s'.h, s'.grace)
  {
  }

  lemma PublishEntries(c: Config, h: History, refresh: map<Key, Entry>, t: TokenId, at: int)
    requires EntriesOk(h, refresh) && t in h.minted
    ensures EntriesOk(Published(h, t, at), refresh)
  {
  }

  /** A process that neither holds a record nor mints from a code disturbs no other. */
  lemma IdleFrame(refresh: map<Key, Entry>, x: CodeBook, procs: map<Pid, Process>, p: Pid, pr: Process)
    requires Exclusive(refresh, procs) && CodesOk(x, procs) && !Holding(pr) && !Minting(pr)
    ensures Exclusive(refresh, procs[p := pr]) && CodesOk(x, procs[p := pr])
  {
  }

  lemma KeepPublished(c: Config, s: State, p: Pid)
    requires Inv(c, s) && p in s.procs && s.procs[p].Redeem? && s.procs[p].pc.Publish? && s.procs[p].key.Id?
    requires c.graceWindow > 0 && s.procs[p].key.token in s.h.minted
    ensures var pr := s.procs[p];
      Inv(c, s.(grace := s.grace[pr.key := GraceEntry(pr.pc.client, Some(pr.pc.tokens), s.now + c.graceWindow)],
                h := Published(s.h, pr.key.token, s.now),
                procs := s.procs[p := pr.(pc := Finished(Ok(pr.pc.tokens, false, s.now)))]))
  {
    var pr := s.procs[p];
    var t := pr.key.token;
    assert ProcOk(c, s.h, p, pr);
    var s' := s.(grace := s.grace[pr.key := GraceEntry(pr.pc.client, Some(pr.pc.tokens), s.now + c.graceWindow)],
                 h := Published(s.h, t, s.now),
                 procs := s.procs[p := pr.(pc := Finished(Ok(pr.pc.tokens, false, s.now)))]);
    HistoryPublish(c, s.h, t, s.now);
    PublishEntries(c, s.h, s.refresh, t, s.now);
    IdleFrame(s.refresh, s.codes, s.procs, p, s'.procs[p]);
    forall q | q in s.procs && q != p && s.procs[q].Redeem? && s.procs[q].pc.Publish? ensures s.procs[q].key != pr.key {
      assert ProcOk(c, s.h, q, s.procs[q]);
    }
    PublishProcs(c, s, s', p);
    PublishGraces(c, s, s', pr.key, t);
  }

  lemma KeepPublish(c: Config, s: State, p: Pid, ch: Choice)
    requires Inv(c, s) && p in s.procs && s.procs[p].Redeem? && s.procs[p].pc.Publish? && s.procs[p].key.Id?
    ensures Inv(c, DoPublish(c, s, p, s.procs[p], ch))
  {
    assert ProcOk(c, s.h, p, s.procs[p]);
    if c.graceWindow > 0 && !ch.fails {
      KeepPublished(c, s, p);
    } else {
      KeepIdle(c, s, p, DoPublish(c, s, p, s.procs[p], ch).procs[p]);
    }
  }

  lemma KeepApply(c: Config, s: State, a: Action)
    requires Inv(c, s)
    ensures Inv(c, Apply(c, s, a))
  {
    match a
    case Tick(d) => KeepTick(c, s, d);
    case EvictRefresh(k) => KeepEvict(c, s, k, 0);
    case EvictGrace(k) => KeepEvict(c, s, k, 0);
    case EvictCode(j) => KeepEvict(c, s, Id(0), j);
    case Login(g, newId) => KeepLogin(c, s, g, newId);
    case IssueCode(j) => KeepIssueCode(c, s, j);
    case BeginRedeem(p, k, client) => KeepBegin(c, s, p, k, client, 0);
    case BeginRevoke(p, k) => KeepBegin(c, s, p, k, "", 0);
    case BeginExchange(p, j) => KeepBegin(c, s, p, Id(0), "", j);
    case Step(p, ch) =>
      if p in s.procs { KeepStep(c, s, p, ch); }
  }

  lemma KeepStep(c: Config, s: State, p: Pid, ch: Choice)
    requires Inv(c, s) && p in s.procs
    ensures Inv(c, Apply(c, s, Step(p, ch)))
  {
    var pr := s.procs[p];
    if pr.Revoke? { KeepRevoke(c, s, p, ch); }
    else if pr.Exchange? { KeepExchange(c, s, p, ch); }
    else {
      match pr.pc
      case Consume => KeepConsume(c, s, p, ch);
      case MarkInFlight(_) => KeepMark(c, s, p, ch);
      case Validate(_) => KeepValidate(c, s, p, ch);
      case Create(_, _, _) => if pr.key.Id? { KeepCreate(c, s, p, ch); }
      case Publish(_, _) => if pr.key.Id? { KeepPublish(c, s, p, ch); }
      case RestoreSet(_, _) => KeepRestore(c, s, p, ch);
      case Poll(_, _) => KeepPoll(c, s, p, ch);
      case Finished(_) =>
      case Recheck => KeepRecheck(c, s, p, ch);
      case Clear(_) => KeepClear(c, s, p, ch);
      case RestoreCheck(_) => KeepRestoreCheck(c, s, p, ch);
    }
  }

  /** Every state of every run satisfies the invariant. */
  lemma {:induction false} KeepRun(c: Config, s: State, actions: seq<Action>)
    requires Inv(c, s)
    ensures Inv(c, Run(c, s, actions))
    decreases |actions|
  {
    if actions != [] {
      KeepApply(c, s, actions[0]);
      KeepRun(c, Apply(c, s, actions[0]), actions[1..]);
    }
  }

  lemma InitInv(c: Config, s: State)
    requires Init(s)
    ensures Inv(c, s)
  {
  }
}
