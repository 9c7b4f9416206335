/** The main results about the two-party protocol, over whole runs. */
module TwoPartyTheorems {
  import opened Common
  import opened Leases
  import opened LeaseLifecycle
  import opened TwoParty
  import opened TwoPartySafety
  import Ledger = SlotLedger
  import Reservations
  import Slots = SlotConservation
  import SlotLaw

  // Nothing claimed, nothing in flight, agents without work.
  ghost predicate Initial(w: World) {
    && DbOk(w.db)
    && (forall id | id in w.db.leases :: w.db.leases[id].attempt.None? && w.db.leases[id].startedAt.None?)
    && (forall aid | aid in w.agents :: w.agents[aid] == Ledger.EmptyAgent)
    && w.claims == map[] && w.accepted == map[]
    && w.reserves == w.answers == w.cancels == w.dispatches == w.disturbed == w.withdrawn == w.committed == w.strays == {}
    && w.consumed == []
  }

  datatype Run = Run(worlds: seq<World>, steps: seq<Step>)

  ghost predicate Valid(run: Run) {
    && |run.worlds| == |run.steps| + 1
    && Initial(run.worlds[0])
    && forall i {:trigger run.steps[i]} | 0 <= i < |run.steps| ::
         Can(run.worlds[i], run.steps[i]) && run.worlds[i + 1] == Next(run.worlds[i], run.steps[i])
  }

  lemma InitialInv(w: World)
    requires Initial(w)
    ensures Inv(w)
  {
    forall id | id in w.db.leases
      ensures LeaseLinked(w, id)
    {}
  }

  lemma {:induction false} Reachable(run: Run, i: nat)
    requires Valid(run) && i < |run.worlds|
    ensures Inv(run.worlds[i])
  {
    if i == 0 {
      InitialInv(run.worlds[0]);
    } else {
      Reachable(run, i - 1);
      InvStep(run.worlds[i - 1], run.steps[i - 1]);
    }
  }

  // ---------------------------------------------------- dispatch authority

  ghost predicate CommittedAt(run: Run, k: nat, a: Attempt)
    requires |run.worlds| == |run.steps| + 1
  {
    && k < |run.steps|
    && (run.steps[k] == TryFinalize(a) || run.steps[k] == StrayFinalize(a))
    && a in run.worlds[k].claims
    && var c := run.worlds[k].claims[a];
       Finalizable(run.worlds[k].db, c.lease, c.server, c.generation, a, run.worlds[k].now)
  }

  lemma OnlyFinalizeCommits(w: World, step: Step, a: Attempt)
    requires Can(w, step) && a in Next(w, step).committed && a !in w.committed
    ensures (step == TryFinalize(a) || step == StrayFinalize(a)) && a in w.claims
    ensures var c := w.claims[a]; Finalizable(w.db, c.lease, c.server, c.generation, a, w.now)
  {}

  lemma {:induction false} CommittedByFinalize(run: Run, i: nat, a: Attempt) returns (k: nat)
    requires Valid(run) && i < |run.worlds| && a in run.worlds[i].committed
    ensures k < i && CommittedAt(run, k, a)
  {
    assert i > 0;
    if a in run.worlds[i - 1].committed {
      k := CommittedByFinalize(run, i - 1, a);
    } else {
      k := i - 1;
      assert run.worlds[i] == Next(run.worlds[i - 1], run.steps[i - 1]);
      OnlyFinalizeCommits(run.worlds[i - 1], run.steps[i - 1], a);
    }
  }

  /**
   * Dispatch authority. When an agent consumes a reservation, that exact attempt was
   * finalized before, the operation it consumes is that attempt's, and it is new.
   */
  lemma ConsumptionFollowsFinalize(run: Run, i: nat, a: Attempt, streaming: bool) returns (k: nat)
    requires Valid(run) && i < |run.steps| && run.steps[i] == DeliverDispatch(a, streaming)
    requires Can(run.worlds[i], run.steps[i]) && Consumes(run.worlds[i], a)
    ensures k < i && CommittedAt(run, k, a)
    ensures var w := run.worlds[i];
            var c := w.claims[a];
            && a !in w.consumed
            && Reservations.HeldFor(w.agents[c.agent], c.server, c.request, c.generation, a)
            && c.lease in w.db.leases && w.db.leases[c.lease].attempt == Some(a)
            && w.db.leases[c.lease].request == c.request
            && w.db.leases[c.lease].generation == Some(c.generation)
  {
    var w := run.worlds[i];
    Reachable(run, i);
    assert ClaimOk(w, a) && LeaseLinked(w, w.claims[a].lease);
    DeliveriesAreFresh(w, run.steps[i]);
    k := CommittedByFinalize(run, i, a);
  }

  /** Each request is consumed at most once, over all its attempts and all agents. */
  lemma RequestConsumedOnce(run: Run, n: nat, i: nat, j: nat)
    requires Valid(run) && n < |run.worlds| && i < |run.worlds[n].consumed| && j < |run.worlds[n].consumed|
    requires run.worlds[n].consumed[i] in run.worlds[n].claims && run.worlds[n].consumed[j] in run.worlds[n].claims
    requires run.worlds[n].claims[run.worlds[n].consumed[i]].request == run.worlds[n].claims[run.worlds[n].consumed[j]].request
    ensures i == j
  {
    var w := run.worlds[n];
    Reachable(run, n);
    var a, b := w.consumed[i], w.consumed[j];
    assert ClaimOk(w, a) && ClaimOk(w, b);
    assert w.db.leases[w.claims[a].lease].request == w.db.leases[w.claims[b].lease].request;
    assert w.claims[a].lease == w.claims[b].lease;
    assert a == b;
  }

  // ------------------------------------------------------- attempt fencing

  // Every step on behalf of attempt a after its claim, however late.
  predicate ActsFor(step: Step, a: Attempt) {
    match step
    case Tick(_) => false
    case ClaimLease(_, _, _, _) => false
    case AgentStep(_, _) => false
    case OtherTx(_) => false
    case _ => step.a == a
  }

  // The operation that another attempt has under r on this agent, after a step of attempt a.
  ghost predicate Spared(w: World, step: Step, v: World, a: Attempt, aid: AgentId, r: RequestId)
    requires a in w.claims && aid in w.agents && r in w.agents[aid].ops
    requires step.DeliverReserve? ==> AgentOf(w, step.a)
  {
    var op := w.agents[aid].ops[r];
    aid in v.agents &&
    if step != DeliverReserve(a) || aid != w.claims[a].agent || !Takes(w, a) then
      r in v.agents[aid].ops && v.agents[aid].ops[r] == op
    else if r == w.claims[a].request then
      op.status == Ledger.Operations.OpCancelled && !op.dispatched
      && r in v.agents[aid].ops && v.agents[aid].ops[r].token == Some(a)
    else
      (r in v.agents[aid].ops && v.agents[aid].ops[r] == op) || (r !in v.agents[aid].ops && !op.Live())
  }

  /**
   * No ABA: whatever attempt a still does, however late, no lease row that belongs to another attempt
   * (or to none) changes, and no agent operation that carries another attempt's token does, except that
   * its reservation request takes the place of a cancelled one that was never dispatched, and
   * retention may drop one that is over.
   */
  lemma EarlierAttemptChangesNothing(run: Run, i: nat, a: Attempt)
    requires Valid(run) && i < |run.steps| && ActsFor(run.steps[i], a)
    ensures a in run.worlds[i].claims && (run.steps[i].DeliverReserve? ==> AgentOf(run.worlds[i], a))
    ensures OthersKept(run.worlds[i].db, run.worlds[i + 1].db, a)
    ensures var w := run.worlds[i];
            forall aid, r | aid in w.agents && r in w.agents[aid].ops
                            && w.agents[aid].ops[r].token.Some? && w.agents[aid].ops[r].token != Some(a) ::
              Spared(w, run.steps[i], run.worlds[i + 1], a, aid, r)
  {
    var w, v, step := run.worlds[i], run.worlds[i + 1], run.steps[i];
    Reachable(run, i);
    assert Can(w, step) && v == Next(w, step);
    ActorIsClaimed(w, step, a);
    LeasesOfOthers(w, step, a);
    StepEffect(w, step);
    forall aid, r | aid in w.agents && r in w.agents[aid].ops
                    && w.agents[aid].ops[r].token.Some? && w.agents[aid].ops[r].token != Some(a)
      ensures Spared(w, step, v, a, aid, r)
    {
      OperationsOfOthers(w, step, v, a, aid, r);
    }
  }

  lemma ActorIsClaimed(w: World, step: Step, a: Attempt)
    requires BackendInv(w) && Can(w, step) && ActsFor(step, a)
    ensures a in w.claims && (step.DeliverReserve? ==> AgentOf(w, a))
  {}

  lemma OperationsOfOthers(w: World, step: Step, v: World, a: Attempt, aid: AgentId, r: RequestId)
    requires Can(w, step) && Effect(w, step, v) && ActsFor(step, a) && a in w.claims
    requires aid in w.agents && r in w.agents[aid].ops
    requires w.agents[aid].ops[r].token.Some? && w.agents[aid].ops[r].token != Some(a)
    ensures Spared(w, step, v, a, aid, r)
  {
    if AgentEventOf(w, step).Some? && AgentEventOf(w, step).value.0 == aid {
      var e := AgentEventOf(w, step).value.1;
      if step.DeliverReserve? {
        Reservations.ReserveSpares(w.agents[aid], e, r);
      } else {
        Reservations.OtherTokensUntouched(w.agents[aid], e, r, a);
      }
    }
  }

  lemma LeasesOfOthers(w: World, step: Step, a: Attempt)
    requires BackendInv(w) && Can(w, step) && ActsFor(step, a) && a in w.claims
    ensures OthersKept(w.db, Next(w, step).db, a)
  {
    if TouchesDb(step) {
      OwnTransaction(w, step, a);
    } else {
      QuietClaims(w, step);
    }
  }

  predicate OthersKept(db: Db, b: Db, a: Attempt) {
    && b.servers == db.servers
    && forall id | id in db.leases && db.leases[id].attempt != Some(a) :: id in b.leases && b.leases[id] == db.leases[id]
  }

  lemma CleanupTouchesOwn(db: Db, id: LeaseId, a: Attempt, now: Time)
    ensures OthersKept(db, Cleanup(db, id, a, now), a)
  {}

  lemma FinalizeTouchesOwn(db: Db, id: LeaseId, s: ServerId, g: int, a: Attempt, now: Time)
    ensures OthersKept(db, Finalize(db, id, s, g, a, now), a)
  {}

  lemma HandleTouchesOwn(db: Db, c: ClaimRecord, a: Attempt, tx: Tx, now: Time)
    requires HandleTx(c, tx, now) && c.lease in db.leases && db.leases[c.lease].attempt == Some(a)
    ensures OthersKept(db, Commit(db, tx), a)
  {}

  lemma FinalizeStepTouchesOwn(w: World, step: Step, a: Attempt)
    requires Can(w, step) && (step == TryFinalize(a) || step == StrayFinalize(a)) && a in w.claims
    ensures OthersKept(w.db, Next(w, step).db, a)
  {
    var c := w.claims[a];
    FinalizeTouchesOwn(w.db, c.lease, c.server, c.generation, a, w.now);
  }

  lemma HandleStepTouchesOwn(w: World, a: Attempt, tx: Tx)
    requires Can(w, UseHandle(a, tx)) && ClaimOk(w, a) && LeaseLinked(w, w.claims[a].lease)
    ensures OthersKept(w.db, Next(w, UseHandle(a, tx)).db, a)
  {
    HandleTouchesOwn(w.db, w.claims[a], a, tx, w.now);
  }

  lemma OwnTransaction(w: World, step: Step, a: Attempt)
    requires BackendInv(w) && Can(w, step) && ActsFor(step, a) && a in w.claims && TouchesDb(step)
    ensures OthersKept(w.db, Next(w, step).db, a)
  {
    assert ClaimOk(w, a);
    match step
    case CleanUp(_, at) => CleanupTouchesOwn(w.db, w.claims[a].lease, a, at);
    case UseHandle(_, tx) =>
      assert LeaseLinked(w, w.claims[a].lease);
      HandleStepTouchesOwn(w, a, tx);
    case _ => FinalizeStepTouchesOwn(w, step, a);
  }

  // ------------------------------------------------------------- undoing

  lemma CleanupLetsGo(w: World, a: Attempt, at: Time)
    requires Can(w, CleanUp(a, at)) && w.claims[a].lease in w.db.leases
    ensures var b, id := Next(w, CleanUp(a, at)).db, w.claims[a].lease;
            id in b.leases && (b.leases[id].attempt == Some(a) ==> b.leases[id].status !in {LeaseStatus.Reserving, LeaseStatus.Active})
  {}

  lemma CancelLetsGo(w: World, a: Attempt)
    requires Can(w, DeliverCancel(a))
    ensures a in Next(w, DeliverCancel(a)).claims && !Held(Next(w, DeliverCancel(a)), a)
  {
    var c := w.claims[a];
    Reservations.CancelledIsGone(w.agents[c.agent], CancelEvent(w, a), c.server, c.request, c.generation, a);
  }

  lemma ExpiryLetsGo(w: World, a: Attempt)
    requires Can(w, ExpireReservation(a))
    ensures a in Next(w, ExpireReservation(a)).claims && !Held(Next(w, ExpireReservation(a)), a)
  {
    var c := w.claims[a];
    Reservations.ExpiredIsGone(w.agents[c.agent], ExpiryEvent(w, a), c.server, c.request, c.generation, a);
  }

  /**
   * Nothing of an attempt that is given up stays behind: its cleanup takes the lease from it, for good or
   * back to the queue, and its cancel or its timer, once it reaches the agent, the reservation.
   */
  lemma GivenUpIsUndone(w: World, a: Attempt, at: Time)
    requires Inv(w) && In(w, a, {GivenUp}) && at <= w.now
    ensures var b, id := Next(w, CleanUp(a, at)).db, w.claims[a].lease;
            id in b.leases && (b.leases[id].attempt == Some(a) ==> b.leases[id].status !in {LeaseStatus.Reserving, LeaseStatus.Active})
    ensures Can(w, SendCancel(a)) && a in Next(w, SendCancel(a)).cancels
    ensures a in w.cancels && AgentOf(w, a) ==> !Held(Next(w, DeliverCancel(a)), a)
    ensures a in w.accepted && w.now >= w.accepted[a] + 15_000 && AgentOf(w, a) ==> !Held(Next(w, ExpireReservation(a)), a)
  {
    assert ClaimOk(w, a);
    CleanupLetsGo(w, a, at);
    if a in w.cancels && AgentOf(w, a) {
      CancelLetsGo(w, a);
    }
    if a in w.accepted && w.now >= w.accepted[a] + 15_000 && AgentOf(w, a) {
      ExpiryLetsGo(w, a);
    }
  }

  /** An agent takes any step of its own at any time. */
  lemma AgentsMoveFreely(w: World, aid: AgentId, e: Ledger.Event)
    ensures (aid in w.agents && Ledger.Enabled(w.agents[aid], e)
             && (e.Stop? || e.FenceOperations? || e.DropConfig? || e.Install? || e.Enqueue? || e.Bind? || e.Abandon? || e.Grant?
                 || e.Unwait? || e.Resume? || e.Finish? || (e.Cancel? && e.token == None))) ==>
              Can(w, AgentStep(aid, e))
  {}

  /** What may happen at any time: an attempt is given up or abandoned, a message of it arrives. */
  lemma AnythingMayHappen(w: World, a: Attempt)
    ensures In(w, a, {Asking}) ==> Can(w, GiveUp(a))
    ensures In(w, a, {Confirmed}) ==> Can(w, TryFinalize(a)) && Can(w, AbandonFinalize(a))
    ensures In(w, a, {Committed}) ==> Can(w, ReturnHandle(a)) && Can(w, LoseHandle(a))
    ensures a in w.strays && a in w.claims ==> Can(w, StrayFinalize(a))
    ensures a in w.reserves && AgentOf(w, a) ==> Can(w, DeliverReserve(a))
    ensures a in w.cancels && AgentOf(w, a) ==> Can(w, DeliverCancel(a))
    ensures a in w.dispatches && AgentOf(w, a) ==> Can(w, DeliverDispatch(a, true))
  {}

  // ------------------------------------------------------------- serving

  // The agent of attempt a has made its reservation an active, dispatched operation with a request of its own.
  predicate Serving(w: World, a: Attempt)
    requires a in w.claims
  {
    var c := w.claims[a];
    && c.agent in w.agents && c.request in w.agents[c.agent].ops
    && var op := w.agents[c.agent].ops[c.request];
       && op.status == Ledger.Operations.OpActive && op.dispatched && op.token == Some(a)
       && op.task.Some? && op.task.value in w.agents[c.agent].tasks
  }

  lemma DispatchServes(w: World, a: Attempt, streaming: bool)
    requires Can(w, DeliverDispatch(a, streaming)) && Held(w, a)
    requires w.agents[w.claims[a].agent].Serves(w.claims[a].server, w.claims[a].generation)
    ensures var v := Next(w, DeliverDispatch(a, streaming));
            a in v.claims && Serving(v, a) && v.consumed == w.consumed + [a]
  {}

  // The phase of attempt a moves on; its agent and what was consumed do not.
  predicate MovedOn(w: World, v: World, a: Attempt, phase: Phase) {
    a in w.claims && a in v.claims && v.claims[a] == w.claims[a].(phase := phase)
    && v.agents == w.agents && v.consumed == w.consumed && v.now == w.now
  }

  lemma FinalizeActivates(w: World, a: Attempt)
    requires Can(w, TryFinalize(a))
    requires Finalizable(w.db, w.claims[a].lease, w.claims[a].server, w.claims[a].generation, a, w.now)
    ensures var v := Next(w, TryFinalize(a));
            && MovedOn(w, v, a, Committed)
            && w.claims[a].lease in v.db.leases && v.db.leases[w.claims[a].lease].status == Active
  {}

  lemma HandleIsDispatched(w: World, a: Attempt)
    requires In(w, a, {Committed})
    ensures Can(w, ReturnHandle(a)) && Can(Next(w, ReturnHandle(a)), SendDispatch(a))
    ensures var v := Next(Next(w, ReturnHandle(a)), SendDispatch(a));
            MovedOn(w, v, a, Returned) && a in v.dispatches
  {}

  /**
   * And one that is not given up is served: finalized in time, handed over, dispatched while its
   * agent still holds the reservation for a process of that generation, its request runs.
   */
  lemma FinalizedAttemptIsServed(w: World, a: Attempt, streaming: bool)
    requires Can(w, TryFinalize(a)) && Held(w, a)
    requires w.agents[w.claims[a].agent].Serves(w.claims[a].server, w.claims[a].generation)
    requires Finalizable(w.db, w.claims[a].lease, w.claims[a].server, w.claims[a].generation, a, w.now)
    ensures var w1 := Next(w, TryFinalize(a));
            && w.claims[a].lease in w1.db.leases && w1.db.leases[w.claims[a].lease].status == Active
            && Can(w1, ReturnHandle(a))
            && var w2 := Next(w1, ReturnHandle(a));
               && Can(w2, SendDispatch(a))
               && var w3 := Next(w2, SendDispatch(a));
                  && Can(w3, DeliverDispatch(a, streaming))
                  && var w4 := Next(w3, DeliverDispatch(a, streaming));
                     a in w4.claims && Serving(w4, a) && w4.consumed == w.consumed + [a]
  {
    FinalizeActivates(w, a);
    var w1 := Next(w, TryFinalize(a));
    HandleIsDispatched(w1, a);
    DispatchServes(Next(Next(w1, ReturnHandle(a)), SendDispatch(a)), a, streaming);
  }

  // ------------------------------------------------------ slots on the agents

  // What step k does on agent aid, if anything.
  function EventAt(run: Run, k: nat, aid: AgentId): Option<Ledger.Event>
    requires |run.worlds| == |run.steps| + 1 && k < |run.steps|
  {
    var e := AgentEventOf(run.worlds[k], run.steps[k]);
    if e.Some? && e.value.0 == aid then Some(e.value.1) else None
  }

  ghost predicate KeepsAt(run: Run, k: nat, aid: AgentId)
    requires |run.worlds| == |run.steps| + 1 && k < |run.steps|
  {
    aid in run.worlds[k].agents && EventAt(run, k, aid).Some? ==>
      SlotLaw.Keeps(run.worlds[k].agents[aid], EventAt(run, k, aid).value)
  }

  lemma AgentMoves(w: World, step: Step, aid: AgentId)
    requires Can(w, step) && aid in w.agents && SlotLaw.Basic(w.agents[aid])
    ensures var e := AgentEventOf(w, step);
            && aid in Next(w, step).agents && SlotLaw.Basic(Next(w, step).agents[aid])
            && (Slots.Conserved(w.agents[aid]) ==>
                  (Slots.Conserved(Next(w, step).agents[aid]) <==>
                     (e.Some? && e.value.0 == aid ==> SlotLaw.Keeps(w.agents[aid], e.value.1))))
  {
    AgentsAfter(w, step);
    var e := AgentEventOf(w, step);
    if e.Some? && e.value.0 == aid {
      SlotLaw.BasicStep(w.agents[aid], e.value.1);
      if Slots.Conserved(w.agents[aid]) {
        SlotLaw.StepKeepsLaw(w.agents[aid], e.value.1);
      }
    }
  }

  lemma {:induction false} AgentIsBasic(run: Run, n: nat, aid: AgentId)
    requires Valid(run) && n < |run.worlds| && aid in run.worlds[0].agents
    ensures aid in run.worlds[n].agents && SlotLaw.Basic(run.worlds[n].agents[aid])
  {
    if n == 0 {
      SlotLaw.EmptyAgentIsBasic();
    } else {
      AgentIsBasic(run, n - 1, aid);
      assert run.worlds[n] == Next(run.worlds[n - 1], run.steps[n - 1]);
      AgentMoves(run.worlds[n - 1], run.steps[n - 1], aid);
    }
  }

  ghost predicate ConservesAt(run: Run, k: nat, aid: AgentId)
    requires k < |run.worlds|
  {
    aid in run.worlds[k].agents && Slots.Conserved(run.worlds[k].agents[aid])
  }

  ghost predicate ConservesThrough(run: Run, n: nat, aid: AgentId)
    requires n < |run.worlds|
  {
    ConservesAt(run, n, aid) && (n > 0 ==> ConservesThrough(run, n - 1, aid))
  }

  ghost predicate KeepsThrough(run: Run, n: nat, aid: AgentId)
    requires |run.worlds| == |run.steps| + 1 && n < |run.worlds|
  {
    n > 0 ==> KeepsAt(run, n - 1, aid) && KeepsThrough(run, n - 1, aid)
  }

  /**
   * Slots under the protocol: an agent's counters equal its holders throughout a run exactly
   * when every step it takes in it, on messages, timers and its own, passes `Keeps`.
   */
  lemma {:induction false} AgentConservesIff(run: Run, n: nat, aid: AgentId)
    requires Valid(run) && n < |run.worlds| && aid in run.worlds[0].agents
    ensures ConservesThrough(run, n, aid) <==> KeepsThrough(run, n, aid)
  {
    if n == 0 {
      SlotLaw.EmptyAgentIsBasic();
    } else {
      AgentConservesIff(run, n - 1, aid);
      AgentIsBasic(run, n - 1, aid);
      assert run.worlds[n] == Next(run.worlds[n - 1], run.steps[n - 1]);
      AgentMoves(run.worlds[n - 1], run.steps[n - 1], aid);
      assert ConservesThrough(run, n - 1, aid) ==> ConservesAt(run, n - 1, aid);
    }
  }
}
