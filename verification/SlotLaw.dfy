/**
 * The counter law by itself, over every run of an agent: what each table and request look
 * like whatever happens, and exactly which steps break `counter == holders`.
 */
module SlotLaw {
  import opened Common
  import opened Operations
  import opened SlotLedger
  import opened SlotConservation

  // True of every operation in every reachable state, however the agent is driven.
  predicate OperationBasic(a: Agent, r: RequestId)
    requires r in a.ops
  {
    var op := a.ops[r];
    && (op.task.Some? ==> op.task.value < a.nextTask && op.Live())
    && (op.status == OpReserved ==> op.task.None?)
    && (op.Live() && op.status != OpReserved ==> op.task.Some?)
    && (op.Live() && op.task.Some? && op.task.value in a.tasks ==> a.tasks[op.task.value].op == Some(r))
    && (op.status == OpQueued ==> op.task.value in a.tasks && a.tasks[op.task.value].phase == Waiting)
    && (op.status == OpCancelling && op.task.value in a.tasks ==> a.tasks[op.task.value].phase != Waiting)
  }

  ghost predicate Basic(a: Agent) {
    && (forall r {:trigger OperationBasic(a, r)} | r in a.ops :: OperationBasic(a, r))
    && (forall t | t in a.tasks :: t < a.nextTask)
    && (forall t | t in a.tasks :: a.tasks[t].phase == Consumed ==> a.tasks[t].op.Some?)
  }

  // Operation r fills a slot of its own server.
  predicate Fills(a: Agent, r: RequestId) {
    r in a.ops && Occupies(a, a.ops[r].server, r)
  }

  predicate TurnFails(a: Agent, t: TaskId)
    requires t in a.tasks
  {
    var task := a.tasks[t];
    task.server !in a.configs || (task.expected.Some? && a.configs[task.server].generation != task.expected.value)
  }

  predicate FreesOneSlot(a: Agent, t: TaskId, r: RequestId)
    requires t in a.tasks
  {
    var task := a.tasks[t];
    if Fills(a, r) then a.Serves(task.server, task.generation) && a.ops[r].server == task.server
    else !a.Serves(task.server, task.generation) || a.Count(task.server) == 0
  }

  /** Exactly the steps that keep the counter law. Every clause is a test on the state before the step. */
  predicate Keeps(a: Agent, e: Event) {
    match e
    case Install(s, c) =>
      && a.Count(s) <= c.Capacity()
      && forall t | t in a.tasks ::
           !(a.tasks[t].server == s && a.tasks[t].HasSlot() && a.tasks[t].op.None? && a.tasks[t].generation == c.generation)
    case FenceOperations(s, _) => forall t | t in a.tasks :: !HoldsAnonymously(a, s, t)
    case DropConfig(s) => forall t | t in a.tasks :: !HoldsAnonymously(a, s, t)
    case Cancel(s, r, token, _) =>
      (CancelAdmitted(a, s, r, token) && !Releasable(a, s, r, a.ops[r].generation, token) && Cancellable(a, r, s)
       && a.ops[r].status == OpActive) ==> !Parked(a, a.ops[r].task)
    case Grant(t, _) =>
      t in a.tasks && a.tasks[t].phase == Waiting && a.tasks[t].op.Some? ==>
        var r := a.tasks[t].op.value;
        if TurnFails(a, t) then !Fills(a, r)
        else if a.HasRoom(a.tasks[t].server) then
          r in a.ops && a.ops[r].status == OpQueued && a.ops[r].server == a.tasks[t].server
        else true
    case Unwait(t, _) =>
      t in a.tasks && a.tasks[t].phase in {Waiting, Interrupted} && a.tasks[t].op.Some? ==> !Fills(a, a.tasks[t].op.value)
    case Finish(t, _, _) =>
      t in a.tasks && a.tasks[t].HasSlot() && a.tasks[t].op.Some? ==> FreesOneSlot(a, t, a.tasks[t].op.value)
    case _ => true
  }

  // ------------------------------------------------------------ what always holds

  lemma BasicThroughStart(a: Agent, e: Event, r: RequestId)
    requires Enabled(a, e) && (e.Bind? || e.Abandon? || e.Resume?)
    requires r in a.ops && OperationBasic(a, r) && r in Apply(a, e).ops
    requires e.t in a.tasks ==> e.t < a.nextTask
    requires e.t in a.tasks && a.tasks[e.t].op.Some? && a.tasks[e.t].op.value in a.ops ==>
               OperationBasic(a, a.tasks[e.t].op.value)
    ensures OperationBasic(Apply(a, e), r)
  {}

  lemma BasicThroughWait(a: Agent, e: Event, r: RequestId)
    requires Enabled(a, e) && (e.Grant? || e.Unwait?)
    requires r in a.ops && OperationBasic(a, r) && r in Apply(a, e).ops
    requires e.t in a.tasks && a.tasks[e.t].op.Some? && a.tasks[e.t].op.value in a.ops ==>
               OperationBasic(a, a.tasks[e.t].op.value)
    ensures OperationBasic(Apply(a, e), r)
  {}

  lemma BasicThroughFinish(a: Agent, e: Event, r: RequestId)
    requires Enabled(a, e) && (e.Finish?)
    requires r in a.ops && OperationBasic(a, r) && r in Apply(a, e).ops
    requires e.t in a.tasks && a.tasks[e.t].op.Some? && a.tasks[e.t].op.value in a.ops ==>
               OperationBasic(a, a.tasks[e.t].op.value)
    ensures OperationBasic(Apply(a, e), r)
  {}

  lemma BasicThroughTable(a: Agent, e: Event, r: RequestId)
    requires Basic(a) && (e.Release? || e.Consume? || e.Cancel? || e.Install? || e.DropConfig?)
    requires r in Apply(a, e).ops
    ensures OperationBasic(Apply(a, e), r)
  {
    assert OperationBasic(a, r);
    if e.Cancel? && e.r in a.ops {
      assert OperationBasic(a, e.r);
    }
  }

  lemma BasicAfterAdmission(a: Agent, b: Agent, e: Event, r: RequestId)
    requires a.nextTask !in a.tasks && (e.Reserve? || e.Enqueue?) && AdmittedAt(a, b, e, r)
    requires r in a.ops ==> OperationBasic(a, r)
    requires r in b.ops
    ensures OperationBasic(b, r)
  {}

  lemma BasicThroughAdmission(a: Agent, e: Event, r: RequestId)
    requires Basic(a) && (e.Reserve? || e.Enqueue?)
    requires r in Apply(a, e).ops
    ensures OperationBasic(Apply(a, e), r)
  {
    AdmissionAt(a, e, r);
    assert a.nextTask in a.tasks ==> a.nextTask < a.nextTask;
    assert r in a.ops ==> OperationBasic(a, r);
    BasicAfterAdmission(a, Apply(a, e), e, r);
  }

  lemma BasicThroughStop(a: Agent, e: Event, r: RequestId)
    requires Basic(a) && (e.Stop? || e.FenceOperations?)
    requires r in Apply(a, e).ops
    ensures OperationBasic(Apply(a, e), r)
  {
    assert OperationBasic(a, r);
    if a.ops[r].task.Some? && a.ops[r].task.value in a.tasks && FencedTask(a, e.s, a.ops[r].task.value) {
      var x :| x in a.ops && a.ops[x].server == e.s && a.ops[x].Live() && a.ops[x].task == a.ops[r].task;
      assert OperationBasic(a, x);
    }
  }

  lemma BasicTasks(a: Agent, e: Event, t: TaskId)
    requires (forall x | x in a.tasks :: x < a.nextTask) && Enabled(a, e) && t in Apply(a, e).tasks
    requires t in a.tasks && a.tasks[t].phase == Consumed ==> a.tasks[t].op.Some?
    ensures t < Apply(a, e).nextTask
    ensures Apply(a, e).tasks[t].phase == Consumed ==> Apply(a, e).tasks[t].op.Some?
  {}

  lemma OperationStep(a: Agent, e: Event, r: RequestId)
    requires Basic(a) && Enabled(a, e) && r in Apply(a, e).ops
    ensures OperationBasic(Apply(a, e), r)
  {
    if e.Stop? || e.FenceOperations? {
      BasicThroughStop(a, e, r);
    } else if e.Reserve? || e.Enqueue? {
      BasicThroughAdmission(a, e, r);
    } else if e.Release? || e.Consume? || e.Cancel? || e.Install? || e.DropConfig? {
      BasicThroughTable(a, e, r);
    } else {
      assert r in a.ops && OperationBasic(a, r);
      assert e.t in a.tasks && a.tasks[e.t].op.Some? && a.tasks[e.t].op.value in a.ops ==>
          OperationBasic(a, a.tasks[e.t].op.value);
      if e.Grant? || e.Unwait? {
        BasicThroughWait(a, e, r);
      } else if e.Finish? {
        BasicThroughFinish(a, e, r);
      } else {
        BasicThroughStart(a, e, r);
      }
    }
  }

  lemma BasicStep(a: Agent, e: Event)
    requires Basic(a) && Enabled(a, e)
    ensures Basic(Apply(a, e))
  {
    var b := Apply(a, e);
    forall r | r in b.ops
      ensures OperationBasic(b, r)
    {
      OperationStep(a, e, r);
    }
    forall t | t in b.tasks
      ensures t < b.nextTask && (b.tasks[t].phase == Consumed ==> b.tasks[t].op.Some?)
    {
      BasicTasks(a, e, t);
    }
  }

  // ------------------------------------------------- counting what one step moves

  function Bit(b: bool): int {
    if b then 1 else 0
  }

  // Only operation r and task t may hold differently before and after.
  ghost predicate Elsewhere(a: Agent, b: Agent, r: RequestId, t: TaskId) {
    && (forall z: ServerId, x: RequestId {:trigger Occupies(a, z, x)} {:trigger Occupies(b, z, x)} ::
          x != r ==> (Occupies(a, z, x) <==> Occupies(b, z, x)))
    && (forall z: ServerId, x: TaskId {:trigger HoldsAnonymously(a, z, x)} {:trigger HoldsAnonymously(b, z, x)} ::
          x != t ==> (HoldsAnonymously(a, z, x) <==> HoldsAnonymously(b, z, x)))
  }

  lemma SetMoves<T>(s: set<T>, u: set<T>, x: T)
    requires forall y | y != x :: y in s <==> y in u
    ensures |u| == |s| + Bit(x in u) - Bit(x in s)
  {
    var rest := s - {x};
    assert rest == u - {x};
    assert x in s ==> s == rest + {x};
    assert x in u ==> u == rest + {x};
    assert x !in s ==> s == rest;
    assert x !in u ==> u == rest;
  }

  lemma HoldersMove(a: Agent, b: Agent, r: RequestId, t: TaskId, z: ServerId)
    requires Elsewhere(a, b, r, t)
    ensures Holders(b, z) == Holders(a, z) + Bit(Occupies(b, z, r)) - Bit(Occupies(a, z, r))
                             + Bit(HoldsAnonymously(b, z, t)) - Bit(HoldsAnonymously(a, z, t))
  {
    forall x | x != r
      ensures x in OperationHolders(a, z) <==> x in OperationHolders(b, z)
    {
      assert Occupies(a, z, x) <==> Occupies(b, z, x);
    }
    forall x | x != t
      ensures x in AnonymousHolders(a, z) <==> x in AnonymousHolders(b, z)
    {
      assert HoldsAnonymously(a, z, x) <==> HoldsAnonymously(b, z, x);
    }
    SetMoves(OperationHolders(a, z), OperationHolders(b, z), r);
    SetMoves(AnonymousHolders(a, z), AnonymousHolders(b, z), t);
  }

  // The counter of s moved by d, the holders as r and t did.
  ghost predicate Balanced(a: Agent, b: Agent, r: RequestId, t: TaskId, z: ServerId) {
    b.Count(z) - a.Count(z) == Bit(Occupies(b, z, r)) - Bit(Occupies(a, z, r))
                               + Bit(HoldsAnonymously(b, z, t)) - Bit(HoldsAnonymously(a, z, t))
  }

  predicate CountersMove(a: Agent, b: Agent, s: ServerId) {
    && a.configs == b.configs
    && (|| b.counts == a.counts
        || (b.counts == Incremented(a.counts, s) && s in a.configs && a.HasRoom(s))
        || b.counts == Decremented(a.counts, s))
  }

  predicate Bounded(a: Agent) {
    && (forall z | z in a.counts :: a.counts[z] > 0)
    && (forall z | z in a.configs :: a.Count(z) <= a.configs[z].Capacity())
  }

  lemma BoundsMove(a: Agent, b: Agent, s: ServerId)
    requires Bounded(a) && CountersMove(a, b, s)
    ensures Bounded(b)
  {
    forall z | z in b.configs
      ensures b.Count(z) <= b.configs[z].Capacity()
    {
      assert a.Count(z) <= a.configs[z].Capacity();
    }
  }

  lemma LawOfCounts(a: Agent)
    ensures Conserved(a) <==> Bounded(a) && forall z: ServerId {:trigger Holders(a, z)} :: a.Count(z) == Holders(a, z)
  {
    if Bounded(a) && forall z: ServerId {:trigger Holders(a, z)} :: a.Count(z) == Holders(a, z) {
      forall z: ServerId
        ensures a.Count(z) == |OperationHolders(a, z)| + |AnonymousHolders(a, z)|
      {
        assert a.Count(z) == Holders(a, z);
      }
    }
  }

  // After a step on one operation and one task the law holds exactly when every server is balanced.
  lemma LawIffBalanced(a: Agent, b: Agent, r: RequestId, t: TaskId, s: ServerId)
    requires Conserved(a) && Elsewhere(a, b, r, t) && CountersMove(a, b, s)
    ensures Conserved(b) <==> forall z: ServerId :: Balanced(a, b, r, t, z)
  {
    LawOfCounts(a);
    LawOfCounts(b);
    BoundsMove(a, b, s);
    forall z: ServerId
      ensures b.Count(z) == Holders(b, z) <==> Balanced(a, b, r, t, z)
    {
      HoldersMove(a, b, r, t, z);
      assert a.Count(z) == Holders(a, z);
    }
  }

  // A server with a holder has a positive counter.
  lemma FilledIsCounted(a: Agent, z: ServerId, r: RequestId)
    requires Conserved(a) && Occupies(a, z, r)
    ensures a.Count(z) >= 1
  {
    assert r in OperationHolders(a, z);
    assert a.Count(z) == |OperationHolders(a, z)| + |AnonymousHolders(a, z)|;
  }

  lemma HeldIsCounted(a: Agent, z: ServerId, t: TaskId)
    requires Conserved(a) && HoldsAnonymously(a, z, t)
    ensures a.Count(z) >= 1
  {
    assert t in AnonymousHolders(a, z);
    assert a.Count(z) == |OperationHolders(a, z)| + |AnonymousHolders(a, z)|;
  }

  // ------------------------------------------------------- the steps, one by one

  lemma OccupiesAfterReserve(a: Agent, b: Agent, e: Event, z: ServerId, x: RequestId)
    requires e.Reserve? && TakesSlot(a, e.s, e.r, e.g, e.tok) && AdmittedAt(a, b, e, x)
    ensures x != e.r ==> (Occupies(a, z, x) <==> Occupies(b, z, x))
    ensures x == e.r ==> !Occupies(a, z, x) && (Occupies(b, z, x) <==> z == e.s)
  {}

  lemma ReserveElsewhere(a: Agent, e: Event, t: TaskId)
    requires e.Reserve? && TakesSlot(a, e.s, e.r, e.g, e.tok)
    ensures var b := Apply(a, e);
            && Elsewhere(a, b, e.r, t) && CountersMove(a, b, e.s) && b.counts == Incremented(a.counts, e.s)
            && b.tasks == a.tasks
            && (forall z: ServerId :: !Occupies(a, z, e.r) && (Occupies(b, z, e.r) <==> z == e.s))
  {
    var b := Apply(a, e);
    AdmissionAt(a, e, e.r);
    forall z: ServerId, x: RequestId
      ensures x != e.r ==> (Occupies(a, z, x) <==> Occupies(b, z, x))
      ensures x == e.r ==> !Occupies(a, z, x) && (Occupies(b, z, x) <==> z == e.s)
    {
      AdmissionAt(a, e, x);
      OccupiesAfterReserve(a, b, e, z, x);
    }
  }

  // Operation r takes a slot of s that it did not fill.
  lemma TakingKeepsLaw(a: Agent, b: Agent, r: RequestId, t: TaskId, s: ServerId)
    requires Conserved(a) && Elsewhere(a, b, r, t) && CountersMove(a, b, s) && b.counts == Incremented(a.counts, s)
    requires forall z: ServerId :: !Occupies(a, z, r) && (Occupies(b, z, r) <==> z == s)
    requires forall z: ServerId :: HoldsAnonymously(a, z, t) <==> HoldsAnonymously(b, z, t)
    ensures Conserved(b)
  {
    LawIffBalanced(a, b, r, t, s);
    forall z: ServerId
      ensures Balanced(a, b, r, t, z)
    {
      assert !Occupies(a, z, r);
    }
  }

  lemma ReserveLaw(a: Agent, e: Event)
    requires Basic(a) && Conserved(a) && e.Reserve?
    ensures Conserved(Apply(a, e))
  {
    if TakesSlot(a, e.s, e.r, e.g, e.tok) {
      ReserveElsewhere(a, e, a.nextTask);
      TakingKeepsLaw(a, Apply(a, e), e.r, a.nextTask, e.s);
    }
  }

  lemma ReleaseLaw(a: Agent, e: Event)
    requires Basic(a) && Conserved(a) && e.Release?
    ensures Conserved(Apply(a, e))
  {
    if Releasable(a, e.s, e.r, e.g, e.token) {
      FilledIsCounted(a, e.s, e.r);
      LawIffBalanced(a, Apply(a, e), e.r, a.nextTask, e.s);
    }
  }

  lemma CancelElsewhere(a: Agent, r: RequestId, s: ServerId, t: TaskId)
    requires Basic(a) && Cancellable(a, r, s) && t == a.ops[r].task.value
    ensures Elsewhere(a, CancelOperation(a, r, s), r, t)
  {}

  lemma CancelLaw(a: Agent, e: Event)
    requires Basic(a) && Conserved(a) && e.Cancel?
    ensures Conserved(Apply(a, e)) <==> Keeps(a, e)
  {
    if CancelAdmitted(a, e.s, e.r, e.token) {
      var g := a.ops[e.r].generation;
      if Releasable(a, e.s, e.r, g, e.token) {
        ReleaseLaw(a, Release(e.s, e.r, g, e.token, e.now));
      } else if Cancellable(a, e.r, e.s) {
        var b, t := CancelOperation(a, e.r, e.s), a.ops[e.r].task.value;
        assert OperationBasic(a, e.r);
        CancelElsewhere(a, e.r, e.s, t);
        LawIffBalanced(a, b, e.r, t, e.s);
        assert Balanced(a, b, e.r, t, e.s) <==> Keeps(a, e);
      }
    }
  }

  lemma OccupiesAfterEnqueue(a: Agent, b: Agent, e: Event, z: ServerId, x: RequestId)
    requires e.Enqueue? && Enqueueable(a, e.s, e.op, e.expected) && AdmittedAt(a, b, e, x)
    requires x in a.ops ==> OperationBasic(a, x)
    ensures Occupies(a, z, x) <==> Occupies(b, z, x)
  {}

  lemma EnqueueElsewhere(a: Agent, e: Event, r: RequestId)
    requires Basic(a) && e.Enqueue? && Enqueueable(a, e.s, e.op, e.expected)
    ensures var b := Apply(a, e);
            && Elsewhere(a, b, r, a.nextTask) && b.configs == a.configs && b.counts == a.counts
            && (forall z: ServerId :: Occupies(a, z, r) <==> Occupies(b, z, r))
            && (forall z: ServerId :: HoldsAnonymously(a, z, a.nextTask) <==> HoldsAnonymously(b, z, a.nextTask))
  {
    var b := Apply(a, e);
    AdmissionAt(a, e, r);
    assert a.nextTask in a.tasks ==> a.nextTask < a.nextTask;
    forall z: ServerId, x: RequestId
      ensures Occupies(a, z, x) <==> Occupies(b, z, x)
    {
      AdmissionAt(a, e, x);
      assert x in a.ops ==> OperationBasic(a, x);
      OccupiesAfterEnqueue(a, b, e, z, x);
    }
  }

  lemma ConsumeLaw(a: Agent, e: Event)
    requires Basic(a) && Conserved(a) && e.Consume?
    ensures Conserved(Apply(a, e))
  {
    if Consumable(a, e.s, e.r, e.g, e.tok) {
      var b := Apply(a, e);
      forall z: ServerId, x: RequestId | x != e.r
        ensures Occupies(a, z, x) <==> Occupies(b, z, x)
      {
        assert x in a.ops ==> OperationBasic(a, x);
      }
      LawIffBalanced(a, b, e.r, a.nextTask, e.s);
    }
  }

  // Nothing moved on the one operation and task a step touches.
  lemma QuietKeepsLaw(a: Agent, b: Agent, r: RequestId, t: TaskId)
    requires Conserved(a) && Elsewhere(a, b, r, t) && a.configs == b.configs && a.counts == b.counts
    requires forall z: ServerId :: Occupies(a, z, r) <==> Occupies(b, z, r)
    requires forall z: ServerId :: HoldsAnonymously(a, z, t) <==> HoldsAnonymously(b, z, t)
    ensures Conserved(b)
  {
    LawIffBalanced(a, b, r, t, 0);
    forall z: ServerId
      ensures Balanced(a, b, r, t, z)
    {
      assert Occupies(a, z, r) <==> Occupies(b, z, r);
    }
  }

  lemma EnqueueLaw(a: Agent, e: Event)
    requires Basic(a) && Conserved(a) && e.Enqueue?
    ensures Conserved(Apply(a, e))
  {
    if Enqueueable(a, e.s, e.op, e.expected) {
      EnqueueElsewhere(a, e, 0);
      QuietKeepsLaw(a, Apply(a, e), 0, a.nextTask);
    }
  }

  // A step of one request leaves the operations of other ids as they are.
  lemma OtherIdsStay(a: Agent, e: Event, r: RequestId, z: ServerId, x: RequestId)
    requires e.Bind? || e.Abandon? || e.Resume? || e.Grant? || e.Unwait? || e.Finish?
    requires e.t in a.tasks && (a.tasks[e.t].op == Some(r) || (a.tasks[e.t].op.None? && r !in a.ops))
    requires x != r && (x in a.ops ==> OperationBasic(a, x))
    ensures Occupies(a, z, x) <==> Occupies(Apply(a, e), z, x)
  {
    var b := Apply(a, e);
    assert x in a.ops <==> x in b.ops;
    assert x in a.ops ==> b.ops[x] == a.ops[x];
  }

  lemma OtherTasksStay(a: Agent, e: Event, z: ServerId, x: TaskId)
    requires e.Bind? || e.Abandon? || e.Resume? || e.Grant? || e.Unwait? || e.Finish?
    requires x != e.t
    ensures HoldsAnonymously(a, z, x) <==> HoldsAnonymously(Apply(a, e), z, x)
  {}

  // A request that starts, is abandoned or resumes moves no slot.
  lemma StartElsewhere(a: Agent, e: Event, r: RequestId)
    requires Basic(a) && (e.Bind? || e.Abandon? || e.Resume?) && e.t in a.tasks
    requires a.tasks[e.t].op == Some(r) || (a.tasks[e.t].op.None? && r !in a.ops)
    ensures Elsewhere(a, Apply(a, e), r, e.t)
  {
    forall z: ServerId, x: RequestId | x != r
      ensures Occupies(a, z, x) <==> Occupies(Apply(a, e), z, x)
    {
      assert x in a.ops ==> OperationBasic(a, x);
      OtherIdsStay(a, e, r, z, x);
    }
    forall z: ServerId, x: TaskId | x != e.t
      ensures HoldsAnonymously(a, z, x) <==> HoldsAnonymously(Apply(a, e), z, x)
    {
      OtherTasksStay(a, e, z, x);
    }
  }

  lemma StartMovesNothing(a: Agent, e: Event, r: RequestId)
    requires (e.Bind? || e.Abandon? || e.Resume?) && e.t in a.tasks
    requires a.tasks[e.t].op == Some(r) || (a.tasks[e.t].op.None? && r !in a.ops)
    requires a.tasks[e.t].phase == Consumed ==> a.tasks[e.t].op.Some?
    requires r in a.ops ==> OperationBasic(a, r)
    ensures Apply(a, e).configs == a.configs && Apply(a, e).counts == a.counts
    ensures forall z: ServerId :: Occupies(a, z, r) <==> Occupies(Apply(a, e), z, r)
    ensures forall z: ServerId :: HoldsAnonymously(a, z, e.t) <==> HoldsAnonymously(Apply(a, e), z, e.t)
  {}

  // An operation id that names nothing, for requests that have none.
  ghost function Unused(a: Agent): (r: RequestId)
    ensures r !in a.ops
  {
    UnusedExists(a.ops.Keys);
    var r: RequestId :| r !in a.ops;
    r
  }

  lemma UnusedExists(s: set<RequestId>)
    ensures exists r: RequestId :: r !in s
  {
    var m := Above(s);
    assert m !in s;
  }

  lemma {:induction false} Above(s: set<RequestId>) returns (m: RequestId)
    ensures forall r | r in s :: r < m
  {
    if s == {} {
      m := 0;
    } else {
      var x :| x in s;
      var n := Above(s - {x});
      m := if n <= x then x + 1 else n;
      assert forall r | r in s :: r == x || r in s - {x};
    }
  }

  ghost function IdOf(a: Agent, t: TaskId): RequestId
    requires t in a.tasks
  {
    if a.tasks[t].op.Some? then a.tasks[t].op.value else Unused(a)
  }

  lemma StartLaw(a: Agent, e: Event)
    requires Basic(a) && Conserved(a) && (e.Bind? || e.Abandon? || e.Resume?)
    ensures Conserved(Apply(a, e))
  {
    if e.t in a.tasks {
      var r := IdOf(a, e.t);
      assert r in a.ops ==> OperationBasic(a, r);
      StartElsewhere(a, e, r);
      StartMovesNothing(a, e, r);
      QuietKeepsLaw(a, Apply(a, e), r, e.t);
    }
  }

  // The waiting request t leaves or takes its slot; only its own operation is touched.
  lemma WaitElsewhere(a: Agent, e: Event, r: RequestId)
    requires Basic(a) && (e.Grant? || e.Unwait?) && e.t in a.tasks
    requires a.tasks[e.t].phase in {Waiting, Interrupted} && (e.Grant? ==> a.tasks[e.t].phase == Waiting)
    requires a.tasks[e.t].op == Some(r) || (a.tasks[e.t].op.None? && r !in a.ops)
    ensures Elsewhere(a, Apply(a, e), r, e.t)
  {
    forall z: ServerId, x: RequestId | x != r
      ensures Occupies(a, z, x) <==> Occupies(Apply(a, e), z, x)
    {
      assert x in a.ops ==> OperationBasic(a, x);
      OtherIdsStay(a, e, r, z, x);
    }
    forall z: ServerId, x: TaskId | x != e.t
      ensures HoldsAnonymously(a, z, x) <==> HoldsAnonymously(Apply(a, e), z, x)
    {
      OtherTasksStay(a, e, z, x);
    }
  }

  // Operation r and task t hold nothing any more; the counter of s gave one slot back or not.
  lemma LeavingLaw(a: Agent, b: Agent, r: RequestId, t: TaskId, s: ServerId, gives: bool)
    requires Conserved(a) && Elsewhere(a, b, r, t) && a.configs == b.configs
    requires b.counts == if gives then Decremented(a.counts, s) else a.counts
    requires forall z: ServerId :: !Occupies(b, z, r) && !HoldsAnonymously(b, z, t)
    requires forall z: ServerId :: HoldsAnonymously(a, z, t) ==> z == s && gives && r !in a.ops
    ensures Conserved(b) <==>
            if HoldsAnonymously(a, s, t) then true
            else if Fills(a, r) then gives && a.ops[r].server == s
            else !gives || a.Count(s) == 0
  {
    LawIffBalanced(a, b, r, t, s);
    if Fills(a, r) {
      FilledIsCounted(a, a.ops[r].server, r);
      assert Balanced(a, b, r, t, a.ops[r].server) <==> gives && a.ops[r].server == s;
    }
    if HoldsAnonymously(a, s, t) {
      HeldIsCounted(a, s, t);
    }
    assert forall z: ServerId :: Occupies(a, z, r) <==> Fills(a, r) && z == a.ops[r].server;
    assert !Fills(a, r) ==> (Balanced(a, b, r, t, s) <==> HoldsAnonymously(a, s, t) || !gives || a.Count(s) == 0);
  }

  lemma UnwaitEffect(a: Agent, e: Event, r: RequestId)
    requires e.Unwait? && e.t in a.tasks && a.tasks[e.t].phase in {Waiting, Interrupted}
    requires a.tasks[e.t].op == Some(r) || (a.tasks[e.t].op.None? && r !in a.ops)
    ensures var b := Apply(a, e);
            && b.configs == a.configs && b.counts == a.counts
            && forall z: ServerId :: !Occupies(b, z, r) && !HoldsAnonymously(b, z, e.t) && !HoldsAnonymously(a, z, e.t)
  {}

  lemma UnwaitLaw(a: Agent, e: Event)
    requires Basic(a) && Conserved(a) && e.Unwait?
    ensures Conserved(Apply(a, e)) <==> Keeps(a, e)
  {
    if e.t in a.tasks && a.tasks[e.t].phase in {Waiting, Interrupted} {
      var r := IdOf(a, e.t);
      WaitElsewhere(a, e, r);
      UnwaitEffect(a, e, r);
      LeavingLaw(a, Apply(a, e), r, e.t, 0, false);
    }
  }

  lemma TurnFailsEffect(a: Agent, e: Event, r: RequestId)
    requires e.Grant? && e.t in a.tasks && a.tasks[e.t].phase == Waiting && TurnFails(a, e.t)
    requires a.tasks[e.t].op == Some(r) || (a.tasks[e.t].op.None? && r !in a.ops)
    ensures var b := Apply(a, e);
            && b.configs == a.configs && b.counts == a.counts
            && forall z: ServerId :: !Occupies(b, z, r) && !HoldsAnonymously(b, z, e.t) && !HoldsAnonymously(a, z, e.t)
  {}

  // The request took a slot of s: its operation fills it, or it holds it anonymously, or nobody does.
  lemma TurnTakesEffect(a: Agent, e: Event, r: RequestId, s: ServerId)
    requires e.Grant? && e.t in a.tasks && a.tasks[e.t].phase == Waiting && !TurnFails(a, e.t)
    requires s == a.tasks[e.t].server && a.HasRoom(s)
    requires a.tasks[e.t].op == Some(r) || (a.tasks[e.t].op.None? && r !in a.ops)
    requires r in a.ops ==> OperationBasic(a, r)
    ensures var b := Apply(a, e);
            var queued := r in a.ops && a.ops[r].status == OpQueued;
            && CountersMove(a, b, s) && b.counts == Incremented(a.counts, s)
            && (forall z: ServerId :: !HoldsAnonymously(a, z, e.t))
            && (forall z: ServerId :: HoldsAnonymously(b, z, e.t) <==> a.tasks[e.t].op.None? && z == s)
            && (forall z: ServerId :: Occupies(b, z, r) <==> Occupies(a, z, r) || (queued && z == a.ops[r].server))
            && (queued ==> forall z: ServerId :: !Occupies(a, z, r))
  {}

  lemma TurnTakesLaw(a: Agent, b: Agent, r: RequestId, t: TaskId, s: ServerId, anonymous: bool, queued: bool)
    requires Conserved(a) && Elsewhere(a, b, r, t) && CountersMove(a, b, s) && b.counts == Incremented(a.counts, s)
    requires queued ==> r in a.ops && !anonymous
    requires forall z: ServerId :: !HoldsAnonymously(a, z, t) && (HoldsAnonymously(b, z, t) <==> anonymous && z == s)
    requires forall z: ServerId :: Occupies(b, z, r) <==> Occupies(a, z, r) || (queued && z == a.ops[r].server)
    requires queued ==> forall z: ServerId :: !Occupies(a, z, r)
    ensures Conserved(b) <==> anonymous || (queued && a.ops[r].server == s)
  {
    LawIffBalanced(a, b, r, t, s);
    assert Occupies(b, s, r) <==> Occupies(a, s, r) || (queued && s == a.ops[r].server);
    assert Balanced(a, b, r, t, s) <==> anonymous || (queued && a.ops[r].server == s);
  }

  lemma GrantLaw(a: Agent, e: Event)
    requires Basic(a) && Conserved(a) && e.Grant?
    ensures Conserved(Apply(a, e)) <==> Keeps(a, e)
  {
    if e.t in a.tasks && a.tasks[e.t].phase == Waiting {
      var r, s := IdOf(a, e.t), a.tasks[e.t].server;
      assert r in a.ops ==> OperationBasic(a, r);
      WaitElsewhere(a, e, r);
      if TurnFails(a, e.t) {
        TurnFailsEffect(a, e, r);
        LeavingLaw(a, Apply(a, e), r, e.t, s, false);
      } else if a.HasRoom(s) {
        TurnTakesEffect(a, e, r, s);
        TurnTakesLaw(a, Apply(a, e), r, e.t, s, a.tasks[e.t].op.None?, r in a.ops && a.ops[r].status == OpQueued);
      }
    }
  }

  lemma FinishElsewhere(a: Agent, e: Event, r: RequestId)
    requires Basic(a) && e.Finish? && e.t in a.tasks && a.tasks[e.t].HasSlot()
    requires a.tasks[e.t].op == Some(r) || (a.tasks[e.t].op.None? && r !in a.ops)
    ensures Elsewhere(a, Apply(a, e), r, e.t)
  {
    forall z: ServerId, x: RequestId | x != r
      ensures Occupies(a, z, x) <==> Occupies(Apply(a, e), z, x)
    {
      assert x in a.ops ==> OperationBasic(a, x);
      OtherIdsStay(a, e, r, z, x);
    }
    forall z: ServerId, x: TaskId | x != e.t
      ensures HoldsAnonymously(a, z, x) <==> HoldsAnonymously(Apply(a, e), z, x)
    {
      OtherTasksStay(a, e, z, x);
    }
  }

  lemma FinishEffect(a: Agent, e: Event, r: RequestId)
    requires e.Finish? && Enabled(a, e) && e.t in a.tasks && a.tasks[e.t].HasSlot()
    requires a.tasks[e.t].op == Some(r) || (a.tasks[e.t].op.None? && r !in a.ops)
    ensures var b, task := Apply(a, e), a.tasks[e.t];
            && b.configs == a.configs
            && b.counts == (if a.Serves(task.server, task.generation) then Decremented(a.counts, task.server) else a.counts)
            && (forall z: ServerId :: !Occupies(b, z, r) && !HoldsAnonymously(b, z, e.t))
            && (forall z: ServerId :: HoldsAnonymously(a, z, e.t) <==>
                  z == task.server && a.Serves(task.server, task.generation) && task.op.None?)
  {}

  lemma FinishLaw(a: Agent, e: Event)
    requires Basic(a) && Conserved(a) && e.Finish? && Enabled(a, e)
    ensures Conserved(Apply(a, e)) <==> Keeps(a, e)
  {
    if e.t in a.tasks && a.tasks[e.t].HasSlot() {
      var r, task := IdOf(a, e.t), a.tasks[e.t];
      FinishElsewhere(a, e, r);
      FinishEffect(a, e, r);
      LeavingLaw(a, Apply(a, e), r, e.t, task.server, a.Serves(task.server, task.generation));
    }
  }

  // ------------------------------------------------------------------- servers

  // A step on server s alone.
  lemma ServerLaw(a: Agent, b: Agent, s: ServerId)
    requires Conserved(a)
    requires forall z: ServerId | z != s :: b.Count(z) == a.Count(z) && Holders(b, z) == Holders(a, z)
    ensures Conserved(b) <==> Bounded(b) && b.Count(s) == Holders(b, s)
  {
    LawOfCounts(a);
    LawOfCounts(b);
    forall z: ServerId | z != s
      ensures b.Count(z) == Holders(b, z)
    {
      assert a.Count(z) == Holders(a, z);
    }
  }

  // Installing or dropping a configuration only moves the anonymous holders of its server.
  lemma ConfigElsewhere(a: Agent, e: Event, z: ServerId)
    requires (e.Install? && Enabled(a, e)) || e.DropConfig?
    ensures OperationHolders(Apply(a, e), z) == OperationHolders(a, z)
    ensures z != e.s ==> AnonymousHolders(Apply(a, e), z) == AnonymousHolders(a, z)
    ensures z == e.s && e.Install? ==> AnonymousHolders(a, z) == {}
    ensures z == e.s && e.DropConfig? ==> AnonymousHolders(Apply(a, e), z) == {}
  {}

  lemma NobodyAnonymous(a: Agent, s: ServerId)
    ensures AnonymousHolders(a, s) == {} <==> forall t | t in a.tasks :: !HoldsAnonymously(a, s, t)
  {
    assert forall t :: t in AnonymousHolders(a, s) <==> t in a.tasks && HoldsAnonymously(a, s, t);
  }

  lemma InstallBounds(a: Agent, e: Event)
    requires Conserved(a) && e.Install? && Enabled(a, e)
    ensures Bounded(Apply(a, e)) <==> a.Count(e.s) <= e.config.Capacity()
  {
    var b := Apply(a, e);
    assert b.configs[e.s] == e.config;
  }

  lemma InstallLaw(a: Agent, e: Event)
    requires Conserved(a) && e.Install? && Enabled(a, e)
    ensures Conserved(Apply(a, e)) <==> Keeps(a, e)
  {
    var b := Apply(a, e);
    forall z: ServerId
      ensures OperationHolders(b, z) == OperationHolders(a, z)
      ensures if z == e.s then AnonymousHolders(a, z) == {} else AnonymousHolders(b, z) == AnonymousHolders(a, z)
    {
      ConfigElsewhere(a, e, z);
    }
    ServerLaw(a, b, e.s);
    NobodyAnonymous(b, e.s);
    InstallBounds(a, e);
    assert a.Count(e.s) == |OperationHolders(a, e.s)| + |AnonymousHolders(a, e.s)|;
    assert b.Count(e.s) == Holders(b, e.s) <==> AnonymousHolders(b, e.s) == {};
  }

  lemma DropLaw(a: Agent, e: Event)
    requires Conserved(a) && e.DropConfig?
    ensures Conserved(Apply(a, e)) <==> Keeps(a, e)
  {
    var b := Apply(a, e);
    forall z: ServerId
      ensures OperationHolders(b, z) == OperationHolders(a, z)
      ensures if z == e.s then AnonymousHolders(b, z) == {} else AnonymousHolders(b, z) == AnonymousHolders(a, z)
    {
      ConfigElsewhere(a, e, z);
    }
    ServerLaw(a, b, e.s);
    NobodyAnonymous(a, e.s);
    assert a.Count(e.s) == |OperationHolders(a, e.s)| + |AnonymousHolders(a, e.s)|;
    assert b.Count(e.s) == Holders(b, e.s) <==> AnonymousHolders(a, e.s) == {};
  }

  // What a stop or its first half leaves of the holders.
  lemma StopElsewhere(a: Agent, e: Event, z: ServerId)
    requires Basic(a) && (e.Stop? || e.FenceOperations?)
    ensures OperationHolders(Apply(a, e), z) == if z == e.s then {} else OperationHolders(a, z)
    ensures AnonymousHolders(Apply(a, e), z) == if e.Stop? && z == e.s then {} else AnonymousHolders(a, z)
  {
    var b := Apply(a, e);
    forall x: RequestId
      ensures Occupies(b, z, x) <==> z != e.s && Occupies(a, z, x)
    {}
  }

  lemma StopCounts(a: Agent, e: Event)
    requires Conserved(a) && (e.Stop? || e.FenceOperations?)
    ensures Apply(a, e).Count(e.s) == 0 && Bounded(Apply(a, e))
    ensures forall z: ServerId | z != e.s :: Apply(a, e).Count(z) == a.Count(z)
  {}

  lemma StopLaw(a: Agent, e: Event)
    requires Basic(a) && Conserved(a) && (e.Stop? || e.FenceOperations?)
    ensures Conserved(Apply(a, e)) <==> Keeps(a, e)
  {
    var b := Apply(a, e);
    StopCounts(a, e);
    forall z: ServerId | z != e.s
      ensures b.Count(z) == a.Count(z) && Holders(b, z) == Holders(a, z)
    {
      StopElsewhere(a, e, z);
    }
    ServerLaw(a, b, e.s);
    StopElsewhere(a, e, e.s);
    NobodyAnonymous(a, e.s);
  }

  // --------------------------------------------------------------- the theorem

  /**
   * Whatever an agent has been through, a step keeps every counter equal to its holders and
   * within capacity exactly when it passes `Keeps`.
   */
  lemma StepKeepsLaw(a: Agent, e: Event)
    requires Basic(a) && Conserved(a) && Enabled(a, e)
    ensures Basic(Apply(a, e))
    ensures Conserved(Apply(a, e)) <==> Keeps(a, e)
  {
    BasicStep(a, e);
    match e
    case Install(_, _) => InstallLaw(a, e);
    case Stop(_, _) => StopLaw(a, e);
    case FenceOperations(_, _) => StopLaw(a, e);
    case DropConfig(_) => DropLaw(a, e);
    case Reserve(_, _, _, _, _) => ReserveLaw(a, e);
    case Release(_, _, _, _, _) => ReleaseLaw(a, e);
    case Consume(_, _, _, _, _) => ConsumeLaw(a, e);
    case Cancel(_, _, _, _) => CancelLaw(a, e);
    case Enqueue(_, _, _, _) => EnqueueLaw(a, e);
    case Grant(_, _) => GrantLaw(a, e);
    case Unwait(_, _) => UnwaitLaw(a, e);
    case Finish(_, _, _) => FinishLaw(a, e);
    case _ => StartLaw(a, e);
  }

  // --------------------------------------------------------------- over runs

  ghost predicate EnabledRun(a: Agent, es: seq<Event>)
    decreases |es|
  {
    es == [] || (Enabled(a, es[0]) && EnabledRun(Apply(a, es[0]), es[1..]))
  }

  ghost predicate KeepsThroughout(a: Agent, es: seq<Event>)
    decreases |es|
  {
    es == [] || (Keeps(a, es[0]) && KeepsThroughout(Apply(a, es[0]), es[1..]))
  }

  ghost predicate ConservedThroughout(a: Agent, es: seq<Event>)
    decreases |es|
  {
    Conserved(a) && (es == [] || ConservedThroughout(Apply(a, es[0]), es[1..]))
  }

  /** Over any run at all: the law holds in every state it passes exactly when every step passes `Keeps`. */
  lemma {:induction false} RunKeepsLawIff(a: Agent, es: seq<Event>)
    requires Basic(a) && Conserved(a) && EnabledRun(a, es)
    ensures ConservedThroughout(a, es) <==> KeepsThroughout(a, es)
    decreases |es|
  {
    if es != [] {
      StepKeepsLaw(a, es[0]);
      var b := Apply(a, es[0]);
      if Conserved(b) {
        RunKeepsLawIff(b, es[1..]);
      } else {
        assert !ConservedThroughout(b, es[1..]);
      }
    }
  }

  lemma EmptyAgentIsBasic()
    ensures Basic(EmptyAgent) && Conserved(EmptyAgent)
  {
    EmptyAgentConserves();
  }

  lemma LinkedIsBasic(a: Agent)
    requires Linked(a)
    ensures Basic(a)
  {
    forall r | r in a.ops
      ensures OperationBasic(a, r)
    {
      assert OperationOk(a, r);
    }
    forall t | t in a.tasks
      ensures t < a.nextTask && (a.tasks[t].phase == Consumed ==> a.tasks[t].op.Some?)
    {
      assert TaskOk(a, t);
    }
  }

  /** Every step that keeps the links between requests and operations as well keeps the law. */
  lemma SafeStepsKeepLaw(a: Agent, e: Event)
    requires Invariant(a) && Enabled(a, e) && Safe(a, e)
    ensures Keeps(a, e)
  {
    LinkedIsBasic(a);
    SafeStep(a, e);
    StepKeepsLaw(a, e);
  }
}
