/**
 * Two ways the agent loses track of a slot. A cancel without a reservation header
 * can give one slot back twice; a cancel that lands between the consumption of a
 * reservation and the start of its response leaves a slot nobody gives back.
 */
module SlotLeaks {
  import opened Common
  import opened Operations
  import opened SlotLedger
  import opened SlotConservation
  import opened SlotLaw

  // One cancel without a header, then the resumed stream's own release, give two slots back for one.
  lemma HeaderlessCancelCounts(a: Agent, s: ServerId, r: RequestId, now: Time)
    requires Invariant(a) && r in a.ops && ReleasesOwnedSlot(a, s, r, a.ops[r].generation, None)
    ensures var t := a.ops[r].task.value;
            var b := ConnectionFinished(CancelRoute(a, s, r, None, now), t, OpCancelled, now);
            b.Count(s) == Max(a.Count(s) - 2, 0) && Holders(b, s) == a.Count(s) - 1
  {
    assert OperationOk(a, r);
    var t := a.ops[r].task.value;
    assert TaskOk(a, t);
    var b := ConnectionFinished(CancelRoute(a, s, r, None, now), t, OpCancelled, now);
    TableFrame(a, b, r, {t});
    OneMoreOperation(b, a, s, r, {t});
    assert a.Count(s) == Holders(a, s);
  }

  /**
   * A header-less cancel of a granted stream that has not resumed breaks conservation
   * as soon as that stream unwinds, exactly when another request holds a slot too.
   */
  lemma HeaderlessCancelReleasesTwice(a: Agent, s: ServerId, r: RequestId, now: Time)
    requires Invariant(a) && r in a.ops && ReleasesOwnedSlot(a, s, r, a.ops[r].generation, None)
    ensures var b := ConnectionFinished(CancelRoute(a, s, r, None, now), a.ops[r].task.value, OpCancelled, now);
            Conserved(b) <==> a.Count(s) == 1
  {
    HeaderlessCancelCounts(a, s, r, now);
    var t := a.ops[r].task.value;
    assert OperationOk(a, r) && TaskOk(a, t);
    var b := ConnectionFinished(CancelRoute(a, s, r, None, now), t, OpCancelled, now);
    assert b.Count(s) == Holders(b, s) <==> a.Count(s) == 1 by {
      assert r in OperationHolders(a, s);
      assert a.Count(s) == Holders(a, s);
    }
    if a.Count(s) == 1 {
      TableFrame(a, b, r, {t});
      forall z: ServerId
        ensures b.Count(z) == Holders(b, z)
      {
        if z != s {
          HoldersFrame(a, b, z, {r}, {t});
          assert a.Count(z) == Holders(a, z);
        }
      }
    }
  }

  // Two requests stream on a server of two slots; request 7 has its slot but has not resumed.
  const busy := Agent(
    map[1 := Config(1, 2)], map[1 := 2],
    map[7 := Operation(1, 1, OpActive, None, false, Some(0), None, 0),
        8 := Operation(1, 1, OpActive, None, false, Some(1), None, 0)],
    map[0 := Task(1, Some(7), 1, None, true, Granted), 1 := Task(1, Some(8), 1, None, true, Holding)], 2)

  lemma BusyConserves()
    ensures Invariant(busy)
  {
    forall s: ServerId
      ensures busy.Count(s) == |OperationHolders(busy, s)| + |AnonymousHolders(busy, s)|
    {
      assert AnonymousHolders(busy, s) == {};
      assert OperationHolders(busy, s) == if s == 1 then {7, 8} else {};
    }
    assert TaskOk(busy, 0) && TaskOk(busy, 1) && OperationOk(busy, 7) && OperationOk(busy, 8);
  }

  // A concrete such state: after the cancel and the unwinding the counter is 0 while request 8 holds a slot.
  lemma HeaderlessCancelExample()
    ensures Invariant(busy)
    ensures var b := ConnectionFinished(CancelRoute(busy, 1, 7, None, 0), 0, OpCancelled, 0);
            b.Count(1) == 0 && Occupies(b, 1, 8)
  {
    BusyConserves();
  }

  // A cancelling operation that no task is going to finish.
  predicate Orphaned(a: Agent, r: RequestId) {
    r in a.ops && a.ops[r].status == OpCancelling && a.ops[r].task.Some? && a.ops[r].task.value !in a.tasks
  }

  // A task that still runs will finish the cancelling operation r.
  predicate InHand(a: Agent, r: RequestId)
    requires r in a.ops
  {
    && a.ops[r].task.Some?
    && a.ops[r].task.value in a.tasks
    && (a.tasks[a.ops[r].task.value].HasSlot() || a.tasks[a.ops[r].task.value].phase == Interrupted)
  }

  ghost predicate NoOrphans(a: Agent) {
    forall r | r in a.ops && a.ops[r].status == OpCancelling :: InHand(a, r)
  }

  // The cancel route asks a task to stop that has not started its response, or is gone.
  predicate CancelsHandoff(a: Agent, e: Event) {
    && e.Cancel?
    && CancelAdmitted(a, e.s, e.r, e.token)
    && !Releasable(a, e.s, e.r, a.ops[e.r].generation, e.token)
    && Cancellable(a, e.r, e.s)
    && (a.ops[e.r].task.value in a.tasks ==> a.tasks[a.ops[e.r].task.value].phase == Consumed)
  }

  lemma StaysInHandOnTasks(a: Agent, e: Event, r: RequestId)
    requires Enabled(a, e) && (e.Bind? || e.Abandon? || e.Grant? || e.Unwait? || e.Resume? || e.Finish?)
    requires r in a.ops ==> OperationOk(a, r)
    requires r in a.ops && a.ops[r].status == OpCancelling ==> InHand(a, r)
    requires r in Apply(a, e).ops && Apply(a, e).ops[r].status == OpCancelling
    ensures InHand(Apply(a, e), r)
  {}

  lemma StaysInHandOnTable(a: Agent, e: Event, r: RequestId)
    requires a.nextTask !in a.tasks && !CancelsHandoff(a, e) && (e.Release? || e.Consume? || e.Cancel?)
    requires r in a.ops ==> OperationOk(a, r)
    requires r in a.ops && a.ops[r].status == OpCancelling ==> InHand(a, r)
    requires r in Apply(a, e).ops && Apply(a, e).ops[r].status == OpCancelling
    ensures InHand(Apply(a, e), r)
  {}

  lemma StaysInHandOnServers(a: Agent, e: Event, r: RequestId)
    requires e.Install? || e.Stop? || e.FenceOperations? || e.DropConfig?
    requires r in a.ops && a.ops[r].status == OpCancelling ==> InHand(a, r)
    requires r in Apply(a, e).ops && Apply(a, e).ops[r].status == OpCancelling
    ensures InHand(Apply(a, e), r)
  {}

  lemma StaysInHand(a: Agent, e: Event, r: RequestId)
    requires a.nextTask !in a.tasks && !CancelsHandoff(a, e) && Enabled(a, e)
    requires r in a.ops ==> OperationOk(a, r)
    requires r in a.ops && a.ops[r].status == OpCancelling ==> InHand(a, r)
    requires r in Apply(a, e).ops && Apply(a, e).ops[r].status == OpCancelling
    requires !e.Reserve? && !e.Enqueue?
    ensures InHand(Apply(a, e), r)
  {
    if e.Install? || e.Stop? || e.FenceOperations? || e.DropConfig? {
      StaysInHandOnServers(a, e, r);
    } else if e.Release? || e.Consume? || e.Cancel? {
      StaysInHandOnTable(a, e, r);
    } else {
      StaysInHandOnTasks(a, e, r);
    }
  }

  lemma StaysInHandAfter(a: Agent, b: Agent, e: Event, r: RequestId)
    requires a.nextTask !in a.tasks && (e.Reserve? || e.Enqueue?) && AdmittedAt(a, b, e, r)
    requires r in a.ops && a.ops[r].status == OpCancelling ==> InHand(a, r)
    requires r in b.ops && b.ops[r].status == OpCancelling
    ensures InHand(b, r)
  {}

  lemma StaysInHandAdmitting(a: Agent, e: Event, r: RequestId)
    requires a.nextTask !in a.tasks && (e.Reserve? || e.Enqueue?)
    requires r in a.ops && a.ops[r].status == OpCancelling ==> InHand(a, r)
    requires r in Apply(a, e).ops && Apply(a, e).ops[r].status == OpCancelling
    ensures InHand(Apply(a, e), r)
  {
    AdmissionAt(a, e, r);
    StaysInHandAfter(a, Apply(a, e), e, r);
  }

  lemma HandoffCancelOrphans(a: Agent, e: Event)
    requires Invariant(a) && CancelsHandoff(a, e)
    ensures !NoOrphans(Apply(a, e))
  {
    var b := Apply(a, e);
    assert OperationOk(a, e.r);
    assert b.ops[e.r].status == OpCancelling;
  }

  /** A step keeps every cancelling operation in the hands of a task exactly when it cancels no handoff. */
  lemma StepKeepsNoOrphans(a: Agent, e: Event)
    requires Invariant(a) && NoOrphans(a) && Enabled(a, e)
    ensures NoOrphans(Apply(a, e)) <==> !CancelsHandoff(a, e)
  {
    if CancelsHandoff(a, e) {
      HandoffCancelOrphans(a, e);
    } else {
      FreshTask(a);
      var b := Apply(a, e);
      forall r | r in b.ops && b.ops[r].status == OpCancelling
        ensures InHand(b, r)
      {
        assert r in a.ops ==> OperationOk(a, r);
        if e.Reserve? || e.Enqueue? {
          StaysInHandAdmitting(a, e, r);
        } else {
          StaysInHand(a, e, r);
        }
      }
    }
  }

  predicate StopsServer(e: Event, s: ServerId) {
    (e.Stop? && e.s == s) || (e.FenceOperations? && e.s == s)
  }

  lemma OrphanUntouched(a: Agent, e: Event, r: RequestId)
    requires Orphaned(a, r) && IdFree(a, r) && a.ops[r].task.value < a.nextTask
    requires Enabled(a, e) && !StopsServer(e, a.ops[r].server) && !e.Reserve? && !e.Enqueue?
    ensures Orphaned(Apply(a, e), r) && Apply(a, e).ops[r] == a.ops[r]
  {}

  lemma OrphanAfterAdmission(a: Agent, b: Agent, e: Event, r: RequestId)
    requires Orphaned(a, r) && a.ops[r].task.value < a.nextTask && (e.Reserve? || e.Enqueue?) && AdmittedAt(a, b, e, r)
    ensures Orphaned(b, r) && b.ops[r] == a.ops[r]
  {}

  lemma OrphanOutlivesAdmission(a: Agent, e: Event, r: RequestId)
    requires Orphaned(a, r) && a.ops[r].task.value < a.nextTask && (e.Reserve? || e.Enqueue?)
    ensures Orphaned(Apply(a, e), r) && Apply(a, e).ops[r] == a.ops[r]
  {
    AdmissionAt(a, e, r);
    OrphanAfterAdmission(a, Apply(a, e), e, r);
  }

  // No request takes up an id that is still in the table and not reserved.
  lemma IdStaysFree(a: Agent, e: Event, r: RequestId)
    requires Orphaned(a, r) && IdFree(a, r) && Enabled(a, e)
    ensures IdFree(Apply(a, e), r)
  {}

  lemma OrphanStep(a: Agent, e: Event, r: RequestId)
    requires Basic(a) && Orphaned(a, r) && IdFree(a, r) && Enabled(a, e) && !StopsServer(e, a.ops[r].server)
    ensures Orphaned(Apply(a, e), r) && IdFree(Apply(a, e), r) && Apply(a, e).ops[r] == a.ops[r]
  {
    assert OperationBasic(a, r);
    IdStaysFree(a, e, r);
    if e.Reserve? || e.Enqueue? {
      OrphanOutlivesAdmission(a, e, r);
    } else {
      OrphanUntouched(a, e, r);
    }
  }

  ghost predicate NeverStops(es: seq<Event>, s: ServerId) {
    forall i | 0 <= i < |es| :: !StopsServer(es[i], s)
  }

  /** An orphaned operation holds its slot through every run at all that does not stop its server. */
  lemma {:induction false} OrphanHoldsItsSlot(es: seq<Event>, a: Agent, r: RequestId)
    requires Basic(a) && Orphaned(a, r) && IdFree(a, r) && EnabledRun(a, es) && NeverStops(es, a.ops[r].server)
    ensures var b := Run(a, es);
            && Orphaned(b, r) && Occupies(b, a.ops[r].server, r)
            && (Conserved(b) ==> b.Count(a.ops[r].server) >= 1)
    decreases |es|
  {
    var s := a.ops[r].server;
    if es == [] {
      if Conserved(a) {
        FilledIsCounted(a, s, r);
      }
    } else {
      OrphanStep(a, es[0], r);
      BasicStep(a, es[0]);
      assert !StopsServer(es[0], s);
      forall i | 0 <= i < |es[1..]|
        ensures !StopsServer(es[1..][i], s)
      {
        assert es[1..][i] == es[i + 1];
      }
      OrphanHoldsItsSlot(es[1..], Apply(a, es[0]), r);
    }
  }

  // In a state of the invariant nobody else works under the id of an orphan.
  lemma OrphanIsFree(a: Agent, r: RequestId)
    requires Invariant(a) && Orphaned(a, r)
    ensures Basic(a) && IdFree(a, r)
  {
    LinkedIsBasic(a);
    assert OperationOk(a, r);
    if t :| t in a.tasks && a.tasks[t].op == Some(r) {
      OneTaskEach(a, r, t);
    }
  }

  /**
   * A cancel that carries the right token but meets a consumed stream whose response has not
   * started strands its slot, whatever happens then short of a stop of that server.
   */
  lemma CancelDuringHandoffStrands(a: Agent, s: ServerId, r: RequestId, tok: Attempt, t: TaskId, now: Time, es: seq<Event>)
    requires Invariant(a) && r in a.ops && a.ops[r].server == s
    requires a.ops[r].status == OpActive && a.ops[r].token == Some(tok) && a.ops[r].task == Some(t)
    requires t in a.tasks && a.tasks[t].phase == Consumed && a.tasks[t].streaming
    requires EnabledRun(BindReserved(CancelRoute(a, s, r, Some(tok), now), t), es) && NeverStops(es, s)
    ensures var b := BindReserved(CancelRoute(a, s, r, Some(tok), now), t);
            && b.counts == a.counts && Orphaned(b, r)
            && Occupies(Run(b, es), s, r) && (Conserved(Run(b, es)) ==> Run(b, es).Count(s) >= 1)
  {
    assert TaskOk(a, t) && OperationOk(a, r);
    var c := CancelRoute(a, s, r, Some(tok), now);
    TokenMakesReleaseSafe(a, s, r, a.ops[r].generation, tok, now);
    SafeStep(a, Cancel(s, r, Some(tok), now));
    SafeStep(c, Bind(t));
    OrphanIsFree(BindReserved(c, t), r);
    OrphanHoldsItsSlot(es, BindReserved(c, t), r);
  }
}
