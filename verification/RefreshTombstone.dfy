/** A revocation against a redemption in flight: exactly when the tombstone beats the
    restore, told by what happened along the run and not by what the cache holds. */
module RefreshTombstone {
  import opened RefreshProtocol
  import opened RefreshInvariant
  import opened RefreshTheorems
  import opened RefreshLogout

  /** A presentation of k, to redeem or to revoke it, whose consuming read is next. */
  predicate Takes(pr: Process, k: Key) {
    (pr.Redeem? && pr.pc.Consume? && pr.key == k) || (pr.Revoke? && pr.rpc.RConsume? && pr.key == k)
  }

  /** A revocation of k writes its tombstone. */
  predicate Writes(s: State, a: Action, k: Key) {
    a.Step? && a.pid in s.procs && s.procs[a.pid].Revoke? && s.procs[a.pid].key == k && s.procs[a.pid].rpc.RTombstone?
    && !a.choice.fails
  }

  /** The tombstone's key is evicted, or presented as if it were a token and consumed. */
  predicate Removes(s: State, a: Action, k: Key) {
    a == EvictRefresh(Tomb(k)) || (a.Step? && a.pid in s.procs && Takes(s.procs[a.pid], Tomb(k)) && !a.choice.fails)
  }

  predicate WritesAt(c: Config, s0: State, actions: seq<Action>, i: nat, k: Key)
    requires i < |actions|
  {
    Writes(Run(c, s0, actions[..i]), actions[i], k)
  }

  predicate RemovesAt(c: Config, s0: State, actions: seq<Action>, i: nat, k: Key)
    requires i < |actions|
  {
    Removes(Run(c, s0, actions[..i]), actions[i], k)
  }

  /** Along the run some revocation of k wrote a tombstone that has not outlived its five
      minutes at the given time, and since then nothing evicted it or presented its key. */
  ghost predicate Stands(c: Config, s0: State, actions: seq<Action>, k: Key, at: int) {
    exists i {:trigger WritesAt(c, s0, actions, i, k)} :: 0 <= i < |actions| && WritesAt(c, s0, actions, i, k)
      && at <= Run(c, s0, actions[..i]).now + TOMBSTONE_TTL
      && forall j {:trigger RemovesAt(c, s0, actions, j, k)} :: i < j < |actions| ==> !RemovesAt(c, s0, actions, j, k)
  }

  // ------------------------------------------------------------ one step

  /** What a step does to k's tombstone. */
  ghost predicate TombEffect(s: State, a: Action, s': State, k: Key) {
    && s.now <= s'.now
    && (Writes(s, a, k) ==> Tomb(k) in s'.refresh && s'.refresh[Tomb(k)].expiry == s.now + TOMBSTONE_TTL)
    && (Removes(s, a, k) ==> !Visible(s'.refresh, Tomb(k), s.now))
    && (!Writes(s, a, k) && !Removes(s, a, k) ==>
          && (Tomb(k) in s'.refresh <==> Tomb(k) in s.refresh)
          && (Tomb(k) in s.refresh ==> s'.refresh[Tomb(k)] == s.refresh[Tomb(k)]))
  }

  lemma RedeemTomb(c: Config, s: State, p: Pid, ch: Choice, k: Key)
    requires p in s.procs && s.procs[p].Redeem? && (Holding(s.procs[p]) ==> s.procs[p].key.Id?)
    ensures TombEffect(s, Step(p, ch), StepRedeem(c, s, p, s.procs[p], ch), k)
  {
  }

  lemma RevokeTomb(c: Config, s: State, p: Pid, ch: Choice, k: Key)
    requires p in s.procs && s.procs[p].Revoke?
    ensures TombEffect(s, Step(p, ch), StepRevoke(c, s, p, s.procs[p], ch), k)
  {
  }

  lemma StepTomb(c: Config, s: State, a: Action, k: Key)
    requires Inv(c, s)
    ensures TombEffect(s, a, Apply(c, s, a), k)
  {
    if a.Step? && a.pid in s.procs {
      assert ProcOk(c, s.h, a.pid, s.procs[a.pid]);
      if s.procs[a.pid].Redeem? { RedeemTomb(c, s, a.pid, a.choice, k); }
      else if s.procs[a.pid].Revoke? { RevokeTomb(c, s, a.pid, a.choice, k); }
    }
  }

  // ------------------------------------------------------------ runs

  lemma RunSnoc(c: Config, s: State, actions: seq<Action>, a: Action)
    ensures Run(c, s, actions + [a]) == Apply(c, Run(c, s, actions), a)
  {
    RunSplit(c, s, actions, [a]);
    assert [a][1..] == [];
    assert Run(c, Apply(c, Run(c, s, actions), a), []) == Apply(c, Run(c, s, actions), a);
  }

  /** The clock of a run never goes back. */
  lemma {:induction false} ClockRuns(c: Config, s: State, actions: seq<Action>)
    ensures s.now <= Run(c, s, actions).now
    decreases |actions|
  {
    if actions != [] {
      ClockSteps(c, s, actions[0]);
      ClockRuns(c, Apply(c, s, actions[0]), actions[1..]);
    }
  }

  lemma ClockSteps(c: Config, s: State, a: Action)
    ensures s.now <= Apply(c, s, a).now
  {
  }

  lemma StandsEarlier(c: Config, s0: State, actions: seq<Action>, a: Action, k: Key, at: int)
    requires Stands(c, s0, actions, k, at) && !Removes(Run(c, s0, actions), a, k)
    ensures Stands(c, s0, actions + [a], k, at)
  {
    var all := actions + [a];
    var i :| 0 <= i < |actions| && WritesAt(c, s0, actions, i, k)
      && at <= Run(c, s0, actions[..i]).now + TOMBSTONE_TTL
      && forall j {:trigger RemovesAt(c, s0, actions, j, k)} :: i < j < |actions| ==> !RemovesAt(c, s0, actions, j, k);
    assert all[..i] == actions[..i] && WritesAt(c, s0, all, i, k);
    forall j | i < j < |all| ensures !RemovesAt(c, s0, all, j, k) {
      assert all[..j] == actions[..j];
      if j < |actions| { assert !RemovesAt(c, s0, actions, j, k); } else { assert actions[..j] == actions; }
    }
  }

  lemma StandsLater(c: Config, s0: State, actions: seq<Action>, a: Action, k: Key, at: int)
    requires Stands(c, s0, actions + [a], k, at)
    ensures var s := Run(c, s0, actions);
      (Writes(s, a, k) && at <= s.now + TOMBSTONE_TTL) || (!Removes(s, a, k) && Stands(c, s0, actions, k, at))
  {
    var all := actions + [a];
    var i :| 0 <= i < |all| && WritesAt(c, s0, all, i, k)
      && at <= Run(c, s0, all[..i]).now + TOMBSTONE_TTL
      && forall j {:trigger RemovesAt(c, s0, all, j, k)} :: i < j < |all| ==> !RemovesAt(c, s0, all, j, k);
    assert all[..i] == actions[..i] && all[..|actions|] == actions[..|actions|] == actions;
    if i < |actions| {
      assert WritesAt(c, s0, actions, i, k);
      assert !RemovesAt(c, s0, all, |actions|, k);
      forall j | i < j < |actions| ensures !RemovesAt(c, s0, actions, j, k) {
        assert all[..j] == actions[..j] && !RemovesAt(c, s0, all, j, k);
      }
    }
  }

  lemma WrittenNow(c: Config, s0: State, actions: seq<Action>, a: Action, k: Key, at: int)
    requires Writes(Run(c, s0, actions), a, k) && at <= Run(c, s0, actions).now + TOMBSTONE_TTL
    ensures Stands(c, s0, actions + [a], k, at)
  {
    var all := actions + [a];
    assert all[..|actions|] == actions;
    assert WritesAt(c, s0, all, |actions|, k);
  }

  /** A write long past is no younger than one just made. */
  lemma StandsInTime(c: Config, s0: State, actions: seq<Action>, k: Key, at: int)
    requires Stands(c, s0, actions, k, at)
    ensures at <= Run(c, s0, actions).now + TOMBSTONE_TTL
  {
    var i :| 0 <= i < |actions| && WritesAt(c, s0, actions, i, k) && at <= Run(c, s0, actions[..i]).now + TOMBSTONE_TTL;
    RunSplit(c, s0, actions[..i], actions[i..]);
    assert actions[..i] + actions[i..] == actions;
    ClockRuns(c, Run(c, s0, actions[..i]), actions[i..]);
  }

  /** What the cache shows of a tombstone, now and later, is what the run's events say. */
  lemma {:induction false} VisibleIffStands(c: Config, s0: State, actions: seq<Action>, k: Key, at: int)
    requires Init(s0) && Run(c, s0, actions).now <= at
    ensures Visible(Run(c, s0, actions).refresh, Tomb(k), at) <==> Stands(c, s0, actions, k, at)
    decreases |actions|
  {
    if actions != [] {
      var n := |actions| - 1;
      var earlier, a := actions[..n], actions[n];
      var s := Run(c, s0, earlier);
      assert actions == earlier + [a];
      RunSnoc(c, s0, earlier, a);
      InitInv(c, s0);
      KeepRun(c, s0, earlier);
      StepTomb(c, s, a, k);
      VisibleIffStands(c, s0, earlier, k, at);
      if Stands(c, s0, actions, k, at) { StandsLater(c, s0, earlier, a, k, at); }
      if Writes(s, a, k) {
        if at <= s.now + TOMBSTONE_TTL { WrittenNow(c, s0, earlier, a, k, at); }
        else if Stands(c, s0, earlier, k, at) { StandsInTime(c, s0, earlier, k, at); }
      } else if !Removes(s, a, k) && Stands(c, s0, earlier, k, at) {
        StandsEarlier(c, s0, earlier, a, k, at);
      }
    }
  }

  // ------------------------------------------------------------ theorems

  /** Exactly when a restore goes ahead. In every run, a redemption that holds t and reaches
      its check goes on to write t back if and only if the record it was issued with has time
      left and the check's read fails or no tombstone stands: none was written, or its five
      minutes are over, or since its write it was evicted or its own key was presented as a
      token. */
  lemma RestoreGoesAheadIff(c: Config, s0: State, actions: seq<Action>, p: Pid, ch: Choice, t: TokenId)
    requires Init(s0)
    requires var s := Run(c, s0, actions); Holds(s, p, t) && s.procs[p].pc.RestoreCheck?
    ensures var s := Run(c, s0, actions);
      && t in s.h.issued
      && (Apply(c, s, Step(p, ch)).procs[p].pc.RestoreSet? <==>
            s.now < s.h.issued[t].rec.expiresAt * SECOND && (ch.fails || !Stands(c, s0, actions, Id(t), s.now)))
  {
    var s := Run(c, s0, actions);
    InitInv(c, s0);
    KeepRun(c, s0, actions);
    assert ProcOk(c, s.h, p, s.procs[p]);
    VisibleIffStands(c, s0, actions, Id(t), s.now);
  }

  lemma {:induction false} DeadRun(c: Config, s: State, actions: seq<Action>, l: TokenId)
    requires Inv(c, s) && Dead(s, l)
    ensures Dead(Run(c, s, actions), l)
    decreases |actions|
  {
    if actions != [] {
      KeepApply(c, s, actions[0]);
      StepEffect(c, s, actions[0]);
      DeadStep(s, Apply(c, s, actions[0]), l);
      DeadRun(c, Apply(c, s, actions[0]), actions[1..], l);
    }
  }

  /** A holder that lets go without writing back leaves its lineage with nothing. */
  lemma LettingGoEnds(c: Config, s: State, p: Pid, ch: Choice, t: TokenId)
    requires Inv(c, s) && Holds(s, p, t) && s.procs[p].pc.RestoreCheck?
    requires !Apply(c, s, Step(p, ch)).procs[p].pc.RestoreSet?
    ensures t in s.h.issued && Dead(Apply(c, s, Step(p, ch)), s.h.issued[t].lineage)
  {
    var s' := Apply(c, s, Step(p, ch));
    assert ProcOk(c, s.h, p, s.procs[p]) && TokenOk(s.h, t);
    assert s' == DoRestoreCheck(c, s, p, s.procs[p], ch);
    forall u | InCustody(s', u) ensures InCustody(s, u) && u != t {
      if Id(u) !in s'.refresh {
        var q :| Holds(s', q, u);
        assert Holds(s, q, u);
      }
    }
    forall u | u in s.h.issued && s.h.issued[u].lineage == s.h.issued[t].lineage && InCustody(s, u) ensures u == t {
      CustodyIsTip(c, s, u);
    }
  }

  /** The tombstone beats the restore. If it stands when the redemption holding t makes its
      check, and the read does not fail, then whatever runs from there on, no token of the
      session is ever stored or held again. */
  lemma TombstoneBeatsRestore(c: Config, s0: State, before: seq<Action>, p: Pid, ch: Choice, t: TokenId, after: seq<Action>)
    requires Init(s0) && !ch.fails
    requires var s := Run(c, s0, before);
      Holds(s, p, t) && s.procs[p].pc.RestoreCheck? && Stands(c, s0, before, Id(t), s.now)
    ensures var s := Run(c, s0, before);
      t in s.h.issued && Dead(Run(c, Apply(c, s, Step(p, ch)), after), s.h.issued[t].lineage)
  {
    var s := Run(c, s0, before);
    InitInv(c, s0);
    KeepRun(c, s0, before);
    RestoreGoesAheadIff(c, s0, before, p, ch, t);
    LettingGoEnds(c, s, p, ch, t);
    KeepApply(c, s, Step(p, ch));
    DeadRun(c, Apply(c, s, Step(p, ch)), after, s.h.issued[t].lineage);
  }

  // ------------------------------------------------------------ where it loses

  /** Nothing is evicted, nothing fails and no time passes. */
  predicate Smooth(a: Action) {
    !a.Tick? && !a.EvictRefresh? && !a.EvictGrace? && !a.EvictCode? && (a.Step? ==> !a.choice.fails)
  }

  const HOUR: int := 3600 * SECOND
  const ANY: Config := Config(HOUR, HOUR, 0, 0)
  const EMPTY: State := State(SECOND, map[], map[], CodeBook(map[], {}, map[]), map[], History(map[], map[], map[]))
  const GRANT: Grant := Grant("user", "app", "oidc", [])

  function Answer(outside: Verdict): Choice { Choice(false, Pass, outside, "", 0, GRANT) }

  predicate Reaches(actions: seq<Action>, s: State) {
    s == Run(ANY, EMPTY, actions) && forall i :: 0 <= i < |actions| ==> Smooth(actions[i])
  }

  lemma Extend(actions: seq<Action>, s: State, a: Action) returns (actions': seq<Action>, s': State)
    requires Reaches(actions, s) && Smooth(a)
    ensures actions' == actions + [a] && s' == Apply(ANY, s, a) && Reaches(actions', s')
  {
    RunSnoc(ANY, EMPTY, actions, a);
    actions', s' := actions + [a], Apply(ANY, s, a);
  }

  /** A redemption of 7 holds its record; its mint failed, and its check is next. */
  lemma HeldForRestore() returns (actions: seq<Action>, s: State)
    ensures Reaches(actions, s) && s.now == SECOND && s.procs.Keys == {1} && s.refresh == map[]
    ensures s.procs[1] == Redeem(Id(7), "app", RestoreCheck(FirstRecord(ANY, SECOND, GRANT)))
  {
    actions, s := [], EMPTY;
    actions, s := Extend(actions, s, Login(GRANT, 7));
    assert s.refresh == map[Id(7) := Entry(Rec(FirstRecord(ANY, SECOND, GRANT)), SECOND + HOUR)];
    actions, s := Extend(actions, s, BeginRedeem(1, Id(7), "app"));
    actions, s := Extend(actions, s, Step(1, Answer(Pass)));
    assert s.procs[1].pc == MarkInFlight(FirstRecord(ANY, SECOND, GRANT));
    actions, s := Extend(actions, s, Step(1, Answer(Pass)));
    actions, s := Extend(actions, s, Step(1, Answer(Fault)));
  }

  /** Then 7 is revoked, from beginning to end. */
  lemma RevokedMeanwhile() returns (actions: seq<Action>, s: State, w: nat)
    ensures Reaches(actions, s) && s.now == SECOND && s.procs.Keys == {1, 2}
    ensures s.procs[1] == Redeem(Id(7), "app", RestoreCheck(FirstRecord(ANY, SECOND, GRANT)))
    ensures s.procs[2] == Revoke(Id(7), RDone(None, true, true))
    ensures s.refresh == map[Tomb(Id(7)) := Entry(Mark, SECOND + TOMBSTONE_TTL)]
    ensures w < |actions| && WritesAt(ANY, EMPTY, actions, w, Id(7))
  {
    actions, s := HeldForRestore();
    actions, s := Extend(actions, s, BeginRevoke(2, Id(7)));
    actions, s := Extend(actions, s, Step(2, Answer(Pass)));
    assert s.procs[2] == Revoke(Id(7), RTombstone(None));
    w := |actions|;
    ghost var earlier := actions;
    actions, s := Extend(actions, s, Step(2, Answer(Pass)));
    assert actions[..w] == earlier;
  }

  /** Then somebody presents the tombstone's key as a refresh token. */
  lemma TombstoneTaken() returns (actions: seq<Action>, s: State, w: nat)
    ensures Reaches(actions, s) && s.now == SECOND && s.procs.Keys == {1, 2, 3} && s.refresh == map[]
    ensures s.procs[1] == Redeem(Id(7), "app", RestoreCheck(FirstRecord(ANY, SECOND, GRANT)))
    ensures s.procs[2] == Revoke(Id(7), RDone(None, true, true))
    ensures w < |actions| && WritesAt(ANY, EMPTY, actions, w, Id(7))
  {
    actions, s, w := RevokedMeanwhile();
    ghost var first := actions;
    actions, s := Extend(actions, s, BeginRedeem(3, Tomb(Id(7)), ""));
    actions, s := Extend(actions, s, Step(3, Answer(Pass)));
    assert actions[..w] == first[..w] && actions[w] == first[w];
  }

  /** Where it fails: with "revoked:" and the token presented as a refresh token, the restore
      makes the revoked token live again, though nothing was evicted, nothing failed and no
      time passed. */
  lemma PresentedTombstoneRevives()
    ensures exists actions, s, w: nat ::
      && Init(EMPTY) && Reaches(actions, s) && w < |actions| && WritesAt(ANY, EMPTY, actions, w, Id(7))
      && 2 in s.procs && s.procs[2] == Revoke(Id(7), RDone(None, true, true))
      && Visible(s.refresh, Id(7), s.now) && s.refresh[Id(7)].value.Rec?
  {
    var actions, s, w := TombstoneTaken();
    ghost var first := actions;
    var rec := FirstRecord(ANY, SECOND, GRANT);
    assert rec.expiresAt == 3601;
    actions, s := Extend(actions, s, Step(1, Answer(Pass)));
    assert s.procs[1].pc == RestoreSet(rec, HOUR);
    actions, s := Extend(actions, s, Step(1, Answer(Pass)));
    assert actions[..w] == first[..w] && actions[w] == first[w];
    assert WritesAt(ANY, EMPTY, actions, w, Id(7));
  }
}
