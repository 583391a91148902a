/** The bounded poll of a caller that lost the race for a refresh token. */
module GraceReplay {
  import opened RefreshProtocol

  /** The i-th read left the caller polling: it showed the in-flight marker, or it showed
      nothing, early and before any marker. */
  predicate KeepsPolling(seen: seq<Sighting>, i: nat)
    requires i < |seen|
  {
    && i < GRACE_REPLAY_ATTEMPTS - 1
    && (seen[i].InFlight? ||
        (seen[i].Missing? && i < GRACE_FAST_BAILOUT_ATTEMPTS - 1 && forall m | 0 <= m < i :: !seen[m].InFlight?))
  }

  /** The poll gets as far as the i-th read. */
  predicate Reached(seen: seq<Sighting>, i: nat)
    requires i <= |seen|
  {
    forall j | 0 <= j < i :: KeepsPolling(seen, j)
  }

  predicate Decisive(seen: Sighting) { seen.Result? || seen.ReadError? }

  /** At most one decisive read is reached, and none past the read where the poll ends. */
  lemma EndsOnce(seen: seq<Sighting>, e: nat, j: nat)
    requires e < |seen| && j < |seen| && Reached(seen, e) && Reached(seen, j) && Decisive(seen[j])
    requires !KeepsPolling(seen, e)
    ensures j == e
  {
    assert j < e ==> KeepsPolling(seen, j);
  }

  /** replayFromGrace over what its reads show. None means nothing to replay. The poll
      answers with the first result it reaches, and only to the client it belongs to; it
      stops after three empty reads, at a marker that vanished, and after ten reads. */
  method ReplayFromGrace(seen: seq<Sighting>, client: string, now: int) returns (answer: Option<Outcome>, used: nat)
    requires |seen| == GRACE_REPLAY_ATTEMPTS
    ensures 1 <= used <= GRACE_REPLAY_ATTEMPTS && Reached(seen, used - 1) && !KeepsPolling(seen, used - 1)
    ensures forall tokens :: answer == Some(Ok(tokens, true, now)) <==>
      exists i | 0 <= i < |seen| :: Reached(seen, i) && seen[i] == Result(client, tokens)
    ensures answer == Some(GrantFailure) <==>
      exists i | 0 <= i < |seen| :: Reached(seen, i) && seen[i].Result? && seen[i].client != client
    ensures answer == Some(ServerError) <==> exists i | 0 <= i < |seen| :: Reached(seen, i) && seen[i].ReadError?
    ensures answer.None? <==> seen[used - 1].Missing? || seen[used - 1].InFlight?
    ensures seen[0].Missing? && seen[1].Missing? && seen[2].Missing? ==> answer.None? && used == 3
  {
    var sawInFlight := false;
    answer := None;
    used := 0;
    while used < GRACE_REPLAY_ATTEMPTS
      invariant used < GRACE_REPLAY_ATTEMPTS && Reached(seen, used) && answer.None?
      invariant sawInFlight <==> exists m | 0 <= m < used :: seen[m].InFlight?
      decreases GRACE_REPLAY_ATTEMPTS - used
    {
      if used > 2 { assert KeepsPolling(seen, 2); }
      var decision := PollDecide(seen[used], client, used, sawInFlight, now);
      assert decision.Again? <==> KeepsPolling(seen, used);
      used := used + 1;
      match decision {
        case Answer(o) => answer := Some(o); break;
        case GiveUp => break;
        case Again(saw) => sawInFlight := saw;
      }
    }
    forall j | 0 <= j < |seen| && Reached(seen, j) && Decisive(seen[j]) ensures j == used - 1 {
      EndsOnce(seen, used - 1, j);
    }
    if seen[0].Missing? && seen[1].Missing? && seen[2].Missing? {
      assert KeepsPolling(seen, 0) && KeepsPolling(seen, 1) && !KeepsPolling(seen, 2);
    }
  }
}
