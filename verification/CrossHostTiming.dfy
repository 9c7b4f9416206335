/** Cross-host timing: when the backend finalizes a lease, exactly when its agent still holds the slot. */
module CrossHostTiming {
  import opened Common
  import opened Leases
  import opened TwoParty
  import opened TwoPartySafety
  import opened TwoPartyTheorems

  // Step k makes the agent lose what it accepted for attempt a.
  ghost predicate LosesAt(run: Run, k: nat, a: Attempt)
    requires |run.worlds| == |run.steps| + 1
  {
    k < |run.steps| && Loses(run.worlds[k], run.steps[k], a)
  }

  // After accepting, the agent stopped that server or ended an older request under the same id.
  ghost predicate DisturbedAt(run: Run, k: nat, a: Attempt)
    requires |run.worlds| == |run.steps| + 1
  {
    LosesAt(run, k, a) && run.steps[k].AgentStep?
  }

  lemma LostAt(run: Run, k: nat, a: Attempt)
    requires Valid(run) && k < |run.steps|
    ensures Lost(run, k + 1, a) <==> Lost(run, k, a) || LosesAt(run, k, a)
    ensures a in run.worlds[k + 1].disturbed <==> a in run.worlds[k].disturbed || DisturbedAt(run, k, a)
  {
    assert run.worlds[k + 1] == Next(run.worlds[k], run.steps[k]);
    LostByStep(run.worlds[k], run.steps[k], a);
  }

  predicate Lost(run: Run, i: nat, a: Attempt)
    requires i < |run.worlds|
  {
    a in run.worlds[i].disturbed + run.worlds[i].withdrawn
  }

  lemma {:induction false} LosesLater(run: Run, k: nat, i: nat, a: Attempt)
    requires Valid(run) && k < i < |run.worlds|
    ensures LosesAt(run, k, a) ==> Lost(run, i, a)
    ensures DisturbedAt(run, k, a) ==> a in run.worlds[i].disturbed
    decreases i
  {
    LostAt(run, i - 1, a);
    if k < i - 1 {
      LosesLater(run, k, i - 1, a);
    }
  }

  lemma {:induction false} LostEarlier(run: Run, i: nat, a: Attempt) returns (k: nat)
    requires Valid(run) && i < |run.worlds| && Lost(run, i, a)
    ensures k < i && LosesAt(run, k, a)
    ensures a in run.worlds[i].disturbed ==> DisturbedAt(run, k, a)
  {
    assert i > 0;
    LostAt(run, i - 1, a);
    if DisturbedAt(run, i - 1, a) || (LosesAt(run, i - 1, a) && a !in run.worlds[i].disturbed) {
      k := i - 1;
    } else {
      k := LostEarlier(run, i - 1, a);
    }
  }

  // No cancel of an attempt is out while its call waits for the finalize.
  lemma {:induction false} WithdrawnWhenGivenUp(run: Run, i: nat, a: Attempt)
    requires Valid(run) && i < |run.worlds| && a in run.worlds[i].withdrawn
    ensures a in run.worlds[i].cancels
  {
    if i > 0 {
      assert run.worlds[i] == Next(run.worlds[i - 1], run.steps[i - 1]);
      if a in run.worlds[i - 1].withdrawn {
        WithdrawnWhenGivenUp(run, i - 1, a);
      }
    }
  }

  // The 12 seconds of the backend start no later than the agent's 15, and end before them.
  lemma FinalizeIsInTime(w: World, a: Attempt)
    requires Inv(w) && a in w.claims && w.claims[a].phase in {Confirmed, GivenUp} && a in w.accepted
    requires Finalizable(w.db, w.claims[a].lease, w.claims[a].server, w.claims[a].generation, a, w.now)
    ensures w.now < w.accepted[a] + RESERVATION_TTL
    ensures Held(w, a) <==> a !in w.disturbed + w.withdrawn
  {
    var c := w.claims[a];
    assert ClaimOk(w, a) && LeaseLinked(w, c.lease) && LostStaysLost(w, a);
    assert w.now < c.at + RESERVATION_RECOVERY <= w.accepted[a] + RESERVATION_TTL;
    assert Undisturbed(w, a) <==> a !in w.disturbed + w.withdrawn;
  }

  /**
   * When a finalize makes a lease active, its agent still holds exactly that attempt as reserved, if
   * and only if since accepting it the agent neither stopped that server nor ended an older request
   * under the same id and, for a finalize nobody waits for any more, received no cancel of the attempt.
   */
  lemma FinalizedSlotIsHeldIff(run: Run, i: nat, a: Attempt)
    requires Valid(run) && CommittedAt(run, i, a)
    ensures Held(run.worlds[i], a) <==> forall k | 0 <= k < i :: !LosesAt(run, k, a)
    ensures run.steps[i] == TryFinalize(a) ==>
              (Held(run.worlds[i], a) <==> forall k | 0 <= k < i :: !DisturbedAt(run, k, a))
  {
    var w := run.worlds[i];
    Reachable(run, i);
    assert Can(w, run.steps[i]) && ClaimOk(w, a);
    FinalizeIsInTime(w, a);
    forall k | 0 <= k < i
      ensures LosesAt(run, k, a) ==> Lost(run, i, a)
      ensures DisturbedAt(run, k, a) ==> a in w.disturbed
    {
      LosesLater(run, k, i, a);
    }
    if Lost(run, i, a) {
      var k := LostEarlier(run, i, a);
    }
    if a in w.withdrawn {
      WithdrawnWhenGivenUp(run, i, a);
    }
  }
}
