/**
 * Slot conservation on one agent: the counter of every server equals its slot holders and
 * never exceeds capacity (`Conserved`), and requests and live operations are each other's
 * (`Linked`). `StepKeepsInvariant` says exactly which steps keep both; `SlotLaw` says which
 * keep the counters alone.
 */
module SlotConservation {
  import opened Common
  import opened Operations
  import opened SlotLedger

  // A cancelling operation whose task is still parked never got a slot.
  predicate Parked(a: Agent, t: Option<TaskId>) {
    t.Some? && t.value in a.tasks && (a.tasks[t.value].phase == Waiting || a.tasks[t.value].phase == Interrupted)
  }

  // Operation r occupies a slot of s: reserved, active, or active-then-cancelling.
  predicate Occupies(a: Agent, s: ServerId, r: RequestId) {
    && r in a.ops
    && a.ops[r].server == s
    && (|| a.ops[r].status == OpReserved
        || a.ops[r].status == OpActive
        || (a.ops[r].status == OpCancelling && !Parked(a, a.ops[r].task)))
  }

  // Task t holds a slot of the live generation of s.
  predicate HoldsLive(a: Agent, s: ServerId, t: TaskId) {
    && t in a.tasks
    && a.tasks[t].server == s
    && a.tasks[t].HasSlot()
    && a.Serves(s, a.tasks[t].generation)
  }

  predicate HoldsAnonymously(a: Agent, s: ServerId, t: TaskId) {
    HoldsLive(a, s, t) && a.tasks[t].op.None?
  }

  function OperationHolders(a: Agent, s: ServerId): set<RequestId> {
    set r | r in a.ops && Occupies(a, s, r)
  }

  function AnonymousHolders(a: Agent, s: ServerId): set<TaskId> {
    set t | t in a.tasks && HoldsAnonymously(a, s, t)
  }

  // The conservation law itself.
  ghost predicate Conserved(a: Agent) {
    && (forall s | s in a.counts :: a.counts[s] > 0)
    && (forall s: ServerId :: a.Count(s) == |OperationHolders(a, s)| + |AnonymousHolders(a, s)|)
    && (forall s | s in a.configs :: a.Count(s) <= a.configs[s].Capacity())
  }

  // A live operation belongs to the running generation and names its task.
  predicate OperationOk(a: Agent, r: RequestId)
    requires r in a.ops
  {
    var op := a.ops[r];
    && (op.task.Some? ==> op.task.value < a.nextTask && op.Live())
    && (op.Live() ==>
          && a.Serves(op.server, op.generation)
          && (op.status != OpReserved ==> op.task.Some?)
          && (op.status == OpReserved ==> op.task.None? && op.token.Some? && !op.dispatched))
    && (op.status == OpQueued ==>
          op.token.None? && op.task.value in a.tasks && a.tasks[op.task.value].phase == Waiting
          && a.tasks[op.task.value].op == Some(r))
    && (op.status == OpActive || op.status == OpCancelling ==>
          op.task.value in a.tasks ==> a.tasks[op.task.value].op == Some(r))
    && (op.status == OpActive && op.task.value in a.tasks ==>
          a.tasks[op.task.value].HasSlot() || a.tasks[op.task.value].phase == Consumed)
    && (op.status == OpCancelling && op.task.value in a.tasks ==> a.tasks[op.task.value].phase != Waiting)
  }

  // A task and the operation under its id, when that operation is still live, are each other's.
  predicate TaskOk(a: Agent, t: TaskId)
    requires t in a.tasks
  {
    var task := a.tasks[t];
    && t < a.nextTask
    && (task.phase == Consumed ==> task.op.Some?)
    && (task.phase == Granted ==> task.streaming)
    && (task.op.Some? ==>
          var r := task.op.value;
          && (r in a.ops && a.ops[r].Live() ==>
                && a.ops[r].task == Some(t)
                && a.ops[r].server == task.server
                && (task.HasSlot() || task.phase == Consumed ==> a.ops[r].generation == task.generation)
                && (task.phase == Consumed ==> a.ops[r].token.Some?)
                && (task.phase == Granted ==> a.ops[r].token.None?))
          && (task.phase == Waiting ==> r in a.ops && a.ops[r].status == OpQueued)
          && (HoldsLive(a, task.server, t) ==> r in a.ops && a.ops[r].Live()))
  }

  ghost predicate Linked(a: Agent) {
    && (forall r {:trigger OperationOk(a, r)} | r in a.ops :: OperationOk(a, r))
    && (forall t {:trigger TaskOk(a, t)} | t in a.tasks :: TaskOk(a, t))
  }

  ghost predicate Invariant(a: Agent) {
    Conserved(a) && Linked(a)
  }

  // No unfinished task still carries the request id r.
  predicate IdFree(a: Agent, r: RequestId) {
    forall t | t in a.tasks :: a.tasks[t].op != Some(r)
  }

  // A release that would give back a slot whose stream is still going to give it back.
  predicate ReleasesOwnedSlot(a: Agent, s: ServerId, r: RequestId, g: int, token: Option<Attempt>) {
    && Releasable(a, s, r, g, token)
    && a.ops[r].status == OpActive
    && a.ops[r].task.value in a.tasks
  }

  /** Exactly the steps that keep `Invariant`. Every clause is a test on the state before the step. */
  predicate Safe(a: Agent, e: Event) {
    match e
    case Install(s, c) =>
      // No task of an earlier process with the same generation is still unwinding.
      forall t | t in a.tasks ::
        !(a.tasks[t].server == s && a.tasks[t].HasSlot() && a.tasks[t].generation == c.generation)
    case FenceOperations(s, _) => forall t | t in a.tasks :: !HoldsLive(a, s, t)
    case DropConfig(s) =>
      && (forall r | r in a.ops :: !(a.ops[r].server == s && a.ops[r].Live()))
      && (forall t | t in a.tasks :: !HoldsLive(a, s, t))
    case Reserve(s, r, g, tok, _) => TakesSlot(a, s, r, g, tok) ==> IdFree(a, r)
    case Enqueue(s, op, expected, _) => Enqueueable(a, s, op, expected) && op.Some? ==> IdFree(a, op.value)
    case Release(s, r, g, token, _) => !ReleasesOwnedSlot(a, s, r, g, token)
    case Cancel(s, r, token, _) =>
      CancelAdmitted(a, s, r, token) ==> !ReleasesOwnedSlot(a, s, r, a.ops[r].generation, token)
    case _ => true
  }

  // ------------------------------------------------------- counting holders

  ghost function Holders(a: Agent, s: ServerId): nat {
    |OperationHolders(a, s)| + |AnonymousHolders(a, s)|
  }

  predicate IsLive(a: Agent, r: RequestId) {
    r in a.ops && a.ops[r].Live()
  }

  // Task t is in the same place before and after.
  predicate SameTask(a: Agent, b: Agent, t: TaskId) {
    && (t in a.tasks <==> t in b.tasks)
    && (t in a.tasks ==>
          && a.tasks[t] == b.tasks[t]
          && (a.Serves(a.tasks[t].server, a.tasks[t].generation) <==> b.Serves(a.tasks[t].server, a.tasks[t].generation)))
  }

  // Operation r is live in both with the same record and task, or in neither.
  predicate SameOperation(a: Agent, b: Agent, r: RequestId) {
    && (IsLive(a, r) <==> IsLive(b, r))
    && (IsLive(a, r) ==>
          && a.ops[r] == b.ops[r]
          && (a.Serves(a.ops[r].server, a.ops[r].generation) ==> b.Serves(a.ops[r].server, a.ops[r].generation))
          && (a.ops[r].task.Some? ==> SameTask(a, b, a.ops[r].task.value)))
    && (r in b.ops && !IsLive(b, r) ==> b.ops[r].task.None?)
  }

  /** A step that changes only operations rs and tasks ts. */
  ghost predicate Touches(a: Agent, b: Agent, rs: set<RequestId>, ts: set<TaskId>) {
    && a.nextTask <= b.nextTask
    && (forall r: RequestId {:trigger SameOperation(a, b, r)} :: r !in rs ==> SameOperation(a, b, r))
    && (forall t: TaskId {:trigger SameTask(a, b, t)} :: t !in ts ==> SameTask(a, b, t))
  }

  lemma LinkedFrame(a: Agent, b: Agent, rs: set<RequestId>, ts: set<TaskId>)
    requires Linked(a) && Touches(a, b, rs, ts)
    requires forall r | r in rs && r in b.ops :: OperationOk(b, r)
    requires forall t | t in b.tasks && (t in ts || (b.tasks[t].op.Some? && b.tasks[t].op.value in rs)) :: TaskOk(b, t)
    ensures Linked(b)
  {
    forall r | r in b.ops
      ensures OperationOk(b, r)
    {
      if r !in rs {
        assert SameOperation(a, b, r);
        if IsLive(b, r) {
          assert OperationOk(a, r);
        }
      }
    }
    forall t | t in b.tasks
      ensures TaskOk(b, t)
    {
      if t !in ts && !(b.tasks[t].op.Some? && b.tasks[t].op.value in rs) {
        assert SameTask(a, b, t);
        assert TaskOk(a, t);
        if b.tasks[t].op.Some? {
          assert SameOperation(a, b, b.tasks[t].op.value);
        }
      }
    }
  }

  // How many holders of s a step adds, when it touches one operation or one task.
  lemma HoldersFrame(a: Agent, b: Agent, s: ServerId, rs: set<RequestId>, ts: set<TaskId>)
    requires Touches(a, b, rs, ts)
    requires forall r | r in rs :: Occupies(a, s, r) <==> Occupies(b, s, r)
    requires forall t | t in ts :: HoldsAnonymously(a, s, t) <==> HoldsAnonymously(b, s, t)
    ensures Holders(a, s) == Holders(b, s)
  {
    forall r: RequestId
      ensures Occupies(a, s, r) <==> Occupies(b, s, r)
    {
      assert r !in rs ==> SameOperation(a, b, r);
    }
    forall t: TaskId
      ensures HoldsAnonymously(a, s, t) <==> HoldsAnonymously(b, s, t)
    {
      assert t !in ts ==> SameTask(a, b, t);
    }
    assert OperationHolders(a, s) == OperationHolders(b, s);
    assert AnonymousHolders(a, s) == AnonymousHolders(b, s);
  }

  lemma OneMoreOperation(a: Agent, b: Agent, s: ServerId, r: RequestId, ts: set<TaskId>)
    requires Touches(a, b, {r}, ts) || Touches(b, a, {r}, ts)
    requires !Occupies(a, s, r) && Occupies(b, s, r)
    requires forall t | t in ts :: HoldsAnonymously(a, s, t) <==> HoldsAnonymously(b, s, t)
    ensures Holders(b, s) == Holders(a, s) + 1
  {
    forall x: RequestId | x != r
      ensures Occupies(a, s, x) <==> Occupies(b, s, x)
    {
      assert SameOperation(a, b, x) || SameOperation(b, a, x);
    }
    forall t: TaskId
      ensures HoldsAnonymously(a, s, t) <==> HoldsAnonymously(b, s, t)
    {
      assert t !in ts ==> SameTask(a, b, t) || SameTask(b, a, t);
    }
    AddedOne(OperationHolders(a, s), OperationHolders(b, s), r);
    assert AnonymousHolders(a, s) == AnonymousHolders(b, s);
  }

  lemma OneMoreTask(a: Agent, b: Agent, s: ServerId, t: TaskId)
    requires Touches(a, b, {}, {t}) || Touches(b, a, {}, {t})
    requires !HoldsAnonymously(a, s, t) && HoldsAnonymously(b, s, t)
    ensures Holders(b, s) == Holders(a, s) + 1
  {
    forall r: RequestId
      ensures Occupies(a, s, r) <==> Occupies(b, s, r)
    {
      assert SameOperation(a, b, r) || SameOperation(b, a, r);
    }
    forall x: TaskId | x != t
      ensures HoldsAnonymously(a, s, x) <==> HoldsAnonymously(b, s, x)
    {
      assert SameTask(a, b, x) || SameTask(b, a, x);
    }
    AddedOne(AnonymousHolders(a, s), AnonymousHolders(b, s), t);
    assert OperationHolders(a, s) == OperationHolders(b, s);
  }

  // The counter of s moves with its holders; the other servers keep theirs.
  lemma ConservedMove(a: Agent, b: Agent, s: ServerId)
    requires Conserved(a) && a.configs == b.configs
    requires forall z: ServerId :: z != s ==> Holders(a, z) == Holders(b, z)
    requires
      || (b.counts == a.counts && Holders(b, s) == Holders(a, s))
      || (b.counts == Incremented(a.counts, s) && s in a.configs && a.HasRoom(s) && Holders(b, s) == Holders(a, s) + 1)
      || (b.counts == Decremented(a.counts, s) && Holders(b, s) + 1 == Holders(a, s))
    ensures Conserved(b)
  {
    assert a.Count(s) == Holders(a, s);
    forall z: ServerId
      ensures b.Count(z) == |OperationHolders(b, z)| + |AnonymousHolders(b, z)|
    {
      assert a.Count(z) == Holders(a, z) && (z != s ==> Holders(a, z) == Holders(b, z));
    }
  }

  // ------------------------------------- steps on one operation and one task

  // Operation r takes a slot of s, or (reading from b to a) gives one back.
  lemma OperationTakes(a: Agent, b: Agent, s: ServerId, r: RequestId, ts: set<TaskId>)
    requires Conserved(a) && Touches(a, b, {r}, ts)
    requires a.configs == b.configs && s in a.configs && a.HasRoom(s) && b.counts == Incremented(a.counts, s)
    requires r !in a.ops || !a.ops[r].Live() || a.ops[r].status == OpQueued
    requires Occupies(b, s, r)
    requires forall z: ServerId, t | t in ts :: HoldsAnonymously(a, z, t) <==> HoldsAnonymously(b, z, t)
    ensures Conserved(b)
  {
    OneMoreOperation(a, b, s, r, ts);
    forall z: ServerId | z != s
      ensures Holders(a, z) == Holders(b, z)
    {
      HoldersFrame(a, b, z, {r}, ts);
    }
    ConservedMove(a, b, s);
  }

  lemma OperationGives(a: Agent, b: Agent, s: ServerId, r: RequestId, ts: set<TaskId>)
    requires Conserved(a) && Touches(a, b, {r}, ts)
    requires a.configs == b.configs && b.counts == Decremented(a.counts, s)
    requires r !in b.ops || !b.ops[r].Live()
    requires Occupies(a, s, r)
    requires forall z: ServerId, t | t in ts :: HoldsAnonymously(a, z, t) <==> HoldsAnonymously(b, z, t)
    ensures Conserved(b)
  {
    OneMoreOperation(b, a, s, r, ts);
    forall z: ServerId | z != s
      ensures Holders(a, z) == Holders(b, z)
    {
      HoldersFrame(a, b, z, {r}, ts);
    }
    ConservedMove(a, b, s);
  }

  lemma SameCounters(a: Agent, b: Agent, rs: set<RequestId>, ts: set<TaskId>)
    requires Conserved(a) && Touches(a, b, rs, ts)
    requires a.configs == b.configs && a.counts == b.counts
    requires forall z: ServerId, r | r in rs :: Occupies(a, z, r) <==> Occupies(b, z, r)
    requires forall z: ServerId, t | t in ts :: HoldsAnonymously(a, z, t) <==> HoldsAnonymously(b, z, t)
    ensures Conserved(b)
  {
    forall z: ServerId
      ensures Holders(a, z) == Holders(b, z)
    {
      HoldersFrame(a, b, z, rs, ts);
    }
    ConservedMove(a, b, 0);
  }

  // A table change that keeps every other live operation as it is.
  lemma TableFrame(a: Agent, b: Agent, r: RequestId, ts: set<TaskId>)
    requires Linked(a) && a.configs == b.configs && a.nextTask <= b.nextTask
    requires forall x | x in b.ops && x != r :: x in a.ops && b.ops[x] == a.ops[x]
    requires forall x | x in a.ops && x != r && a.ops[x].Live() :: x in b.ops
    requires forall t: TaskId | t !in ts :: t in a.tasks <==> t in b.tasks
    requires forall t | t in a.tasks && t !in ts :: a.tasks[t] == b.tasks[t]
    requires forall t | t in ts :: (t in a.tasks && a.tasks[t].op == Some(r)) || (t !in a.tasks && t == a.nextTask)
                                   || (t in a.tasks && a.tasks[t].op.None?)
    ensures Touches(a, b, {r}, ts)
  {
    forall x: RequestId | x != r
      ensures SameOperation(a, b, x)
    {
      if x in a.ops {
        assert OperationOk(a, x);
      }
    }
  }

  // A new operation under an id no task carries, perhaps together with its own new task.
  lemma FreshOperationLinks(a: Agent, b: Agent, r: RequestId, ts: set<TaskId>)
    requires Linked(a) && Touches(a, b, {r}, ts) && IdFree(a, r)
    requires r in b.ops && OperationOk(b, r)
    requires forall t | t in ts && t in b.tasks :: TaskOk(b, t)
    ensures Linked(b)
  {
    forall t | t in b.tasks && t !in ts
      ensures b.tasks[t].op != Some(r)
    {
      assert SameTask(a, b, t);
    }
    LinkedFrame(a, b, {r}, ts);
  }

  // Operation r finished, and no task of the live generation runs under its id.
  lemma FinishedOperationLinks(a: Agent, b: Agent, r: RequestId, ts: set<TaskId>)
    requires Linked(a) && Touches(a, b, {r}, ts) && a.configs == b.configs
    requires r in b.ops ==> !IsLive(b, r) && b.ops[r].task.None?
    requires forall t | t in ts :: t !in b.tasks
    requires forall t | t in a.tasks && a.tasks[t].op == Some(r) && t !in ts ::
               a.tasks[t].phase != Waiting && !HoldsLive(a, a.tasks[t].server, t)
    ensures Linked(b)
  {
    forall t | t in b.tasks && b.tasks[t].op == Some(r)
      ensures TaskOk(b, t)
    {
      assert SameTask(a, b, t) && TaskOk(a, t);
    }
    LinkedFrame(a, b, {r}, ts);
  }

  lemma ReserveTouches(a: Agent, s: ServerId, r: RequestId, g: int, tok: Attempt, now: Time)
    requires Linked(a) && TakesSlot(a, s, r, g, tok)
    ensures Touches(a, TryReserveSlot(a, s, r, g, tok, now), {r}, {})
  {
    EvictedKeepsLive(a.ops - {r});
    TableFrame(a, TryReserveSlot(a, s, r, g, tok, now), r, {});
  }

  lemma ReserveLinks(a: Agent, s: ServerId, r: RequestId, g: int, tok: Attempt, now: Time)
    requires Linked(a) && TakesSlot(a, s, r, g, tok) && IdFree(a, r)
    ensures Linked(TryReserveSlot(a, s, r, g, tok, now))
  {
    ReserveTouches(a, s, r, g, tok, now);
    FreshOperationLinks(a, TryReserveSlot(a, s, r, g, tok, now), r, {});
  }

  lemma ReserveStep(a: Agent, s: ServerId, r: RequestId, g: int, tok: Attempt, now: Time)
    requires Invariant(a) && Safe(a, Reserve(s, r, g, tok, now))
    ensures Invariant(TryReserveSlot(a, s, r, g, tok, now))
  {
    if TakesSlot(a, s, r, g, tok) {
      assert Conserved(TryReserveSlot(a, s, r, g, tok, now)) by {
        ReserveTouches(a, s, r, g, tok, now);
        OperationTakes(a, TryReserveSlot(a, s, r, g, tok, now), s, r, {});
      }
      ReserveLinks(a, s, r, g, tok, now);
    }
  }

  lemma FreshTask(a: Agent)
    requires Linked(a)
    ensures a.nextTask !in a.tasks
  {
    assert a.nextTask in a.tasks ==> TaskOk(a, a.nextTask);
  }

  lemma EnqueueTouches(a: Agent, s: ServerId, op: Option<RequestId>, expected: Option<int>, streaming: bool)
    requires Linked(a) && Enqueueable(a, s, op, expected)
    ensures Touches(a, EnqueueRequest(a, s, op, expected, streaming),
                    if op.Some? then {op.value} else {}, {a.nextTask})
  {
    var b := EnqueueRequest(a, s, op, expected, streaming);
    FreshTask(a);
    if op.Some? {
      EvictedKeepsLive(a.ops);
      TableFrame(a, b, op.value, {a.nextTask});
    } else {
      TableFrame(a, b, 0, {a.nextTask});
      assert 0 in a.ops ==> OperationOk(a, 0);
    }
  }

  lemma EnqueueStep(a: Agent, s: ServerId, op: Option<RequestId>, expected: Option<int>, streaming: bool)
    requires Invariant(a) && Safe(a, Enqueue(s, op, expected, streaming))
    ensures Invariant(EnqueueRequest(a, s, op, expected, streaming))
  {
    if Enqueueable(a, s, op, expected) {
      var b := EnqueueRequest(a, s, op, expected, streaming);
      var rs := if op.Some? then {op.value} else {};
      FreshTask(a);
      EnqueueTouches(a, s, op, expected, streaming);
      assert Conserved(b) by {
        SameCounters(a, b, rs, {a.nextTask});
      }
      if op.Some? {
        FreshOperationLinks(a, b, op.value, {a.nextTask});
      } else {
        LinkedFrame(a, b, {}, {a.nextTask});
      }
    }
  }

  // Under the id of a live operation only its own task can wait, hold a slot or be about to.
  lemma OneTaskEach(a: Agent, r: RequestId, t: TaskId)
    requires Linked(a) && IsLive(a, r) && t in a.tasks && a.tasks[t].op == Some(r)
    ensures a.ops[r].task == Some(t)
  {
    assert TaskOk(a, t);
  }

  lemma ReleaseStep(a: Agent, s: ServerId, r: RequestId, g: int, token: Option<Attempt>, now: Time)
    requires Invariant(a) && !ReleasesOwnedSlot(a, s, r, g, token)
    ensures Invariant(ReleasePending(a, s, r, g, token, now))
  {
    if Releasable(a, s, r, g, token) {
      var b := ReleasePending(a, s, r, g, token, now);
      TableFrame(a, b, r, {});
      assert Conserved(b) by {
        OperationGives(a, b, s, r, {});
      }
      assert IdFree(a, r) by {
        assert OperationOk(a, r);
        if t :| t in a.tasks && a.tasks[t].op == Some(r) {
          OneTaskEach(a, r, t);
        }
      }
      FinishedOperationLinks(a, b, r, {});
    }
  }

  lemma ConsumeStep(a: Agent, s: ServerId, r: RequestId, g: int, tok: Attempt, streaming: bool)
    requires Invariant(a)
    ensures Invariant(ConsumeSlot(a, s, r, g, tok, streaming))
  {
    if Consumable(a, s, r, g, tok) {
      var b := ConsumeSlot(a, s, r, g, tok, streaming);
      assert OperationOk(a, r);
      FreshTask(a);
      TableFrame(a, b, r, {a.nextTask});
      assert Conserved(b) by {
        SameCounters(a, b, {r}, {a.nextTask});
      }
      assert IdFree(a, r) by {
        if t :| t in a.tasks && a.tasks[t].op == Some(r) {
          OneTaskEach(a, r, t);
        }
      }
      FreshOperationLinks(a, b, r, {a.nextTask});
    }
  }

  // A task that moves on, or ends, without giving or taking a slot.
  lemma QuietTaskStep(a: Agent, b: Agent, t: TaskId, r: RequestId)
    requires Invariant(a) && t in a.tasks && a.tasks[t].op == Some(r)
    requires a.configs == b.configs && a.counts == b.counts
    requires Touches(a, b, {r}, {t})
    requires forall z: ServerId :: Occupies(a, z, r) <==> Occupies(b, z, r)
    requires r in b.ops ==> OperationOk(b, r) && (IsLive(b, r) ==> IsLive(a, r))
    requires t in b.tasks ==> TaskOk(b, t) && b.tasks[t].op == Some(r)
    ensures Invariant(b)
  {
    assert Conserved(b) by {
      SameCounters(a, b, {r}, {t});
    }
    forall x | x in b.tasks && x != t && b.tasks[x].op == Some(r)
      ensures TaskOk(b, x)
    {
      assert SameTask(a, b, x);
      OtherTaskKept(a, b, t, r, x);
    }
    LinkedFrame(a, b, {r}, {t});
  }

  // Two tasks under one id: while the operation is live it belongs to one of them.
  lemma OtherTaskKept(a: Agent, b: Agent, t: TaskId, r: RequestId, x: TaskId)
    requires Linked(a) && a.configs == b.configs && a.nextTask <= b.nextTask
    requires t in a.tasks && a.tasks[t].op == Some(r)
    requires x != t && x in a.tasks && x in b.tasks && a.tasks[x] == b.tasks[x]
    requires a.tasks[x].op == Some(r)
    requires IsLive(b, r) ==> IsLive(a, r)
    ensures TaskOk(b, x)
  {
    assert TaskOk(a, x) && TaskOk(a, t);
  }

  lemma AbandonStep(a: Agent, t: TaskId)
    requires Invariant(a)
    ensures Invariant(AbandonHandler(a, t))
  {
    if t in a.tasks && a.tasks[t].phase == Consumed {
      var b := AbandonHandler(a, t);
      assert TaskOk(a, t);
      var r := a.tasks[t].op.value;
      assert r in a.ops ==> OperationOk(a, r);
      TableFrame(a, b, r, {t});
      QuietTaskStep(a, b, t, r);
    }
  }

  lemma BindStep(a: Agent, t: TaskId)
    requires Invariant(a)
    ensures Invariant(BindReserved(a, t))
  {
    var b := BindReserved(a, t);
    if t in a.tasks && a.tasks[t].phase == Consumed {
      assert TaskOk(a, t);
      var r := a.tasks[t].op.value;
      if t in b.tasks {
        assert OperationOk(a, r);
        TableFrame(a, b, r, {t});
        QuietTaskStep(a, b, t, r);
      } else {
        AbandonStep(a, t);
      }
    }
  }

  lemma ResumeStep(a: Agent, t: TaskId)
    requires Invariant(a)
    ensures Invariant(BindStream(a, t))
  {
    var b := BindStream(a, t);
    if t in a.tasks && a.tasks[t].phase == Granted && t in b.tasks && b.tasks[t].phase == Holding {
      assert TaskOk(a, t);
      if a.tasks[t].op.Some? {
        var r := a.tasks[t].op.value;
        assert OperationOk(a, r);
        TableFrame(a, b, r, {t});
        QuietTaskStep(a, b, t, r);
      } else {
        AnonymousTouches(a, b, t);
        assert Conserved(b) by {
          SameCounters(a, b, {}, {t});
        }
        LinkedFrame(a, b, {}, {t});
      }
    }
  }

  lemma CancelOperationStep(a: Agent, r: RequestId, s: ServerId)
    requires Invariant(a)
    ensures Invariant(CancelOperation(a, r, s))
  {
    var b := CancelOperation(a, r, s);
    if Cancellable(a, r, s) {
      assert OperationOk(a, r);
      var t := a.ops[r].task.value;
      if t in a.tasks {
        assert TaskOk(a, t);
        TableFrame(a, b, r, {t});
        QuietTaskStep(a, b, t, r);
      } else {
        TableFrame(a, b, r, {});
        SameCounters(a, b, {r}, {});
        assert IdFree(a, r) by {
          if x :| x in a.tasks && a.tasks[x].op == Some(r) {
            OneTaskEach(a, r, x);
          }
        }
        FreshOperationLinks(a, b, r, {});
      }
    }
  }


  // A task without an operation moves on or ends: no operation names it.
  lemma AnonymousTouches(a: Agent, b: Agent, t: TaskId)
    requires Linked(a) && t in a.tasks && a.tasks[t].op.None?
    requires a.configs == b.configs && a.nextTask == b.nextTask && a.ops == b.ops
    requires b.tasks == a.tasks - {t} || (t in b.tasks && b.tasks == a.tasks[t := b.tasks[t]])
    ensures Touches(a, b, {}, {t})
  {
    forall x: RequestId
      ensures SameOperation(a, b, x)
    {
      if x in a.ops {
        assert OperationOk(a, x);
      }
    }
  }

  lemma GrantLinks(a: Agent, b: Agent, t: TaskId, r: RequestId)
    requires Linked(a) && t in a.tasks && a.tasks[t].op == Some(r) && a.configs == b.configs
    requires Touches(a, b, {r}, {t}) && IsLive(a, r) && r in b.ops
    requires OperationOk(b, r) && t in b.tasks && TaskOk(b, t)
    ensures Linked(b)
  {
    forall x | x in b.tasks && x != t && b.tasks[x].op == Some(r)
      ensures TaskOk(b, x)
    {
      assert SameTask(a, b, x);
      OtherTaskKept(a, b, t, r, x);
    }
    LinkedFrame(a, b, {r}, {t});
  }

  lemma GrantOperation(a: Agent, t: TaskId, r: RequestId, now: Time)
    requires Invariant(a) && t in a.tasks && a.tasks[t].phase == Waiting && a.tasks[t].op == Some(r)
    requires a.tasks[t].server in a.configs && a.HasRoom(a.tasks[t].server)
    requires a.tasks[t].expected.Some? ==> a.configs[a.tasks[t].server].generation == a.tasks[t].expected.value
    ensures Invariant(GrantSlot(a, t, now))
  {
    var b := GrantSlot(a, t, now);
    assert TaskOk(a, t) && OperationOk(a, r);
    TableFrame(a, b, r, {t});
    assert Conserved(b) by {
      OperationTakes(a, b, a.tasks[t].server, r, {t});
    }
    GrantLinks(a, b, t, r);
  }

  lemma GrantAnonymous(a: Agent, t: TaskId, now: Time)
    requires Invariant(a) && t in a.tasks && a.tasks[t].phase == Waiting && a.tasks[t].op.None?
    requires a.tasks[t].server in a.configs && a.HasRoom(a.tasks[t].server)
    requires a.tasks[t].expected.Some? ==> a.configs[a.tasks[t].server].generation == a.tasks[t].expected.value
    ensures Invariant(GrantSlot(a, t, now))
  {
    var b := GrantSlot(a, t, now);
    var s := a.tasks[t].server;
    assert TaskOk(a, t);
    AnonymousTouches(a, b, t);
    assert Conserved(b) by {
      OneMoreTask(a, b, s, t);
      forall z: ServerId | z != s
        ensures Holders(a, z) == Holders(b, z)
      {
        HoldersFrame(a, b, z, {}, {t});
      }
      ConservedMove(a, b, s);
    }
    LinkedFrame(a, b, {}, {t});
  }

  // A parked task leaves without a slot, finishing its operation if that is still live.
  lemma UnwaitAs(a: Agent, t: TaskId, status: OpStatus, now: Time)
    requires Invariant(a) && t in a.tasks && (a.tasks[t].phase == Waiting || a.tasks[t].phase == Interrupted)
    requires status == OpFailed || status == OpCancelled
    ensures Invariant(a.(ops := FinishOperation(a.ops, a.tasks[t].op, status, now), tasks := a.tasks - {t}))
  {
    var b := a.(ops := FinishOperation(a.ops, a.tasks[t].op, status, now), tasks := a.tasks - {t});
    assert TaskOk(a, t);
    if a.tasks[t].op.Some? {
      var r := a.tasks[t].op.value;
      if r in a.ops {
        assert OperationOk(a, r);
      }
      TableFrame(a, b, r, {t});
      QuietTaskStep(a, b, t, r);
    } else {
      AnonymousTouches(a, b, t);
      assert Conserved(b) by {
        SameCounters(a, b, {}, {t});
      }
      LinkedFrame(a, b, {}, {t});
    }
  }

  lemma GrantStep(a: Agent, t: TaskId, now: Time)
    requires Invariant(a)
    ensures Invariant(GrantSlot(a, t, now))
  {
    if t in a.tasks && a.tasks[t].phase == Waiting {
      var s := a.tasks[t].server;
      if !(s in a.configs) || (a.tasks[t].expected.Some? && a.configs[s].generation != a.tasks[t].expected.value) {
        UnwaitAs(a, t, OpFailed, now);
      } else if a.HasRoom(s) {
        if a.tasks[t].op.Some? {
          GrantOperation(a, t, a.tasks[t].op.value, now);
        } else {
          GrantAnonymous(a, t, now);
        }
      }
    }
  }

  lemma FinishOperationTask(a: Agent, t: TaskId, r: RequestId, outcome: OpStatus, now: Time)
    requires Invariant(a) && t in a.tasks && a.tasks[t].HasSlot() && a.tasks[t].op == Some(r)
    requires outcome in {OpCompleted, OpFailed, OpCancelled}
    ensures Invariant(ConnectionFinished(a, t, outcome, now))
  {
    var b := ConnectionFinished(a, t, outcome, now);
    var s := a.tasks[t].server;
    assert TaskOk(a, t);
    if r in a.ops {
      assert OperationOk(a, r);
    }
    TableFrame(a, b, r, {t});
    if HoldsLive(a, s, t) {
      assert Conserved(b) by {
        OperationGives(a, b, s, r, {t});
      }
      forall x | x in a.tasks && a.tasks[x].op == Some(r)
        ensures x == t
      {
        OneTaskEach(a, r, x);
      }
      FinishedOperationLinks(a, b, r, {t});
    } else {
      QuietTaskStep(a, b, t, r);
    }
  }

  lemma FinishAnonymousTask(a: Agent, t: TaskId, outcome: OpStatus, now: Time)
    requires Invariant(a) && t in a.tasks && a.tasks[t].HasSlot() && a.tasks[t].op.None?
    ensures Invariant(ConnectionFinished(a, t, outcome, now))
  {
    var b := ConnectionFinished(a, t, outcome, now);
    var s := a.tasks[t].server;
    AnonymousTouches(a, b, t);
    assert Conserved(b) by {
      if HoldsLive(a, s, t) {
        OneMoreTask(b, a, s, t);
        forall z: ServerId | z != s
          ensures Holders(a, z) == Holders(b, z)
        {
          HoldersFrame(a, b, z, {}, {t});
        }
        ConservedMove(a, b, s);
      } else {
        SameCounters(a, b, {}, {t});
      }
    }
    LinkedFrame(a, b, {}, {t});
  }

  // ------------------------------------------------------- server-wide steps

  lemma InstallStep(a: Agent, s: ServerId, c: Config)
    requires Invariant(a) && Enabled(a, Install(s, c)) && Safe(a, Install(s, c))
    ensures Invariant(InstallConfig(a, s, c))
  {
    var b := InstallConfig(a, s, c);
    forall t: TaskId
      ensures SameTask(a, b, t) || (t in a.tasks && a.tasks[t].server == s && a.tasks[t] == b.tasks[t])
      ensures t in a.tasks ==> TaskOk(b, t)
      ensures forall z: ServerId :: HoldsAnonymously(a, z, t) <==> HoldsAnonymously(b, z, t)
    {
      assert t in a.tasks ==> TaskOk(a, t);
    }
    forall r | r in a.ops
      ensures OperationOk(b, r)
    {
      assert OperationOk(a, r);
    }
    forall z: ServerId
      ensures b.Count(z) == |OperationHolders(b, z)| + |AnonymousHolders(b, z)|
      ensures z == s ==> b.Count(z) == 0
    {
      assert OperationHolders(a, z) == OperationHolders(b, z);
      assert AnonymousHolders(a, z) == AnonymousHolders(b, z);
      assert a.Count(z) == |OperationHolders(a, z)| + |AnonymousHolders(a, z)|;
      if z == s {
        NoHoldersUnserved(a, s);
      }
    }
  }

  // A server without a config has no live operation and no holder.
  lemma NoHoldersUnserved(a: Agent, s: ServerId)
    requires Linked(a) && s !in a.configs
    ensures OperationHolders(a, s) == {} && AnonymousHolders(a, s) == {}
  {
    forall r | r in a.ops
      ensures !Occupies(a, s, r)
    {
      assert OperationOk(a, r);
    }
  }

  // b: the operations of s are failed, and s is either gone or held by no task.
  ghost predicate Fenced(a: Agent, b: Agent, s: ServerId, now: Time) {
    && b == StopServerOperations(a, s, now).(configs := b.configs)
    && (|| b.configs == a.configs - {s}
        || (b.configs == a.configs && forall t | t in a.tasks :: !HoldsLive(a, s, t)))
  }

  lemma FencedOperationOk(a: Agent, b: Agent, s: ServerId, now: Time, r: RequestId)
    requires Linked(a) && Fenced(a, b, s, now) && r in a.ops
    ensures OperationOk(b, r)
  {
    assert OperationOk(a, r);
    if a.ops[r].server != s && a.ops[r].Live() && a.ops[r].task.Some? {
      var t := a.ops[r].task.value;
      forall x | x in a.ops && t in a.tasks
        ensures a.ops[x].Live() && a.ops[x].task == Some(t) ==> x == r
      {
        assert OperationOk(a, x);
      }
    }
  }

  lemma FencedTaskOk(a: Agent, b: Agent, s: ServerId, now: Time, t: TaskId)
    requires Linked(a) && Fenced(a, b, s, now) && t in a.tasks
    ensures TaskOk(b, t)
  {
    assert TaskOk(a, t);
    if a.tasks[t].phase == Waiting && a.tasks[t].op.Some? {
      assert OperationOk(a, a.tasks[t].op.value);
      assert a.ops[a.tasks[t].op.value].server == s ==> FencedTask(a, s, t);
    }
  }

  lemma FencedHolders(a: Agent, b: Agent, s: ServerId, now: Time, z: ServerId)
    requires Fenced(a, b, s, now)
    ensures z == s ==> OperationHolders(b, s) == {} && AnonymousHolders(b, s) == {}
    ensures z != s ==> OperationHolders(b, z) == OperationHolders(a, z) && AnonymousHolders(b, z) == AnonymousHolders(a, z)
  {
    if z != s {
      forall r: RequestId
        ensures Occupies(a, z, r) <==> Occupies(b, z, r)
      {}
      forall t: TaskId
        ensures HoldsAnonymously(a, z, t) <==> HoldsAnonymously(b, z, t)
      {}
    }
  }

  lemma FencedCounts(a: Agent, b: Agent, s: ServerId, now: Time)
    requires Conserved(a) && Fenced(a, b, s, now)
    ensures Conserved(b)
  {
    forall z: ServerId
      ensures b.Count(z) == |OperationHolders(b, z)| + |AnonymousHolders(b, z)|
    {
      FencedHolders(a, b, s, now, z);
      assert a.Count(z) == |OperationHolders(a, z)| + |AnonymousHolders(a, z)|;
    }
  }

  lemma FenceStep(a: Agent, b: Agent, s: ServerId, now: Time)
    requires Invariant(a) && Fenced(a, b, s, now)
    ensures Invariant(b)
  {
    FencedCounts(a, b, s, now);
    forall r | r in b.ops
      ensures OperationOk(b, r)
    {
      FencedOperationOk(a, b, s, now, r);
    }
    forall t | t in b.tasks
      ensures TaskOk(b, t)
    {
      FencedTaskOk(a, b, s, now, t);
    }
  }

  lemma DropStep(a: Agent, s: ServerId)
    requires Invariant(a) && Safe(a, DropConfig(s))
    ensures Invariant(RemoveConfig(a, s))
  {
    var b := RemoveConfig(a, s);
    forall z: ServerId
      ensures b.Count(z) == |OperationHolders(b, z)| + |AnonymousHolders(b, z)|
    {
      assert OperationHolders(b, z) == OperationHolders(a, z);
      assert AnonymousHolders(b, z) == AnonymousHolders(a, z);
    }
    forall r | r in b.ops
      ensures OperationOk(b, r)
    {
      assert OperationOk(a, r);
    }
    forall t | t in b.tasks
      ensures TaskOk(b, t)
    {
      assert TaskOk(a, t);
    }
  }

  // ------------------------------------------------------------- the theorem

  lemma SafeStep(a: Agent, e: Event)
    requires Invariant(a) && Enabled(a, e) && Safe(a, e)
    ensures Invariant(Apply(a, e))
  {
    match e
    case Install(s, c) => InstallStep(a, s, c);
    case Stop(s, now) => FenceStep(a, StopServer(a, s, now), s, now);
    case FenceOperations(s, now) => FenceStep(a, StopServerOperations(a, s, now), s, now);
    case DropConfig(s) => DropStep(a, s);
    case Reserve(s, r, g, tok, now) => ReserveStep(a, s, r, g, tok, now);
    case Release(s, r, g, token, now) => ReleaseStep(a, s, r, g, token, now);
    case Consume(s, r, g, tok, streaming) => ConsumeStep(a, s, r, g, tok, streaming);
    case Bind(t) => BindStep(a, t);
    case Abandon(t) => AbandonStep(a, t);
    case Cancel(s, r, token, now) =>
      if CancelAdmitted(a, s, r, token) {
        ReleaseStep(a, s, r, a.ops[r].generation, token, now);
        CancelOperationStep(a, r, s);
      }
    case Enqueue(s, op, expected, streaming) => EnqueueStep(a, s, op, expected, streaming);
    case Grant(t, now) => GrantStep(a, t, now);
    case Unwait(t, now) => if t in a.tasks && a.tasks[t].phase in {Waiting, Interrupted} { UnwaitAs(a, t, OpCancelled, now); }
    case Resume(t) => ResumeStep(a, t);
    case Finish(t, outcome, now) =>
      if t in a.tasks && a.tasks[t].HasSlot() {
        if a.tasks[t].op.Some? {
          FinishOperationTask(a, t, a.tasks[t].op.value, outcome, now);
        } else {
          FinishAnonymousTask(a, t, outcome, now);
        }
      }
  }

  lemma UnsafeInstall(a: Agent, s: ServerId, c: Config, t: TaskId)
    requires Invariant(a) && s !in a.configs
    requires t in a.tasks && a.tasks[t].server == s && a.tasks[t].HasSlot() && a.tasks[t].generation == c.generation
    ensures !Invariant(InstallConfig(a, s, c))
  {
    var b := InstallConfig(a, s, c);
    assert TaskOk(a, t) && HoldsLive(b, s, t);
    if a.tasks[t].op.Some? {
      if a.tasks[t].op.value in a.ops {
        assert OperationOk(a, a.tasks[t].op.value);
      }
      assert !TaskOk(b, t);
    } else {
      NoHoldersUnserved(a, s);
      assert a.Count(s) == |OperationHolders(a, s)| + |AnonymousHolders(a, s)|;
      assert t in AnonymousHolders(b, s);
      assert b.Count(s) == 0;
    }
  }

  lemma UnsafeFence(a: Agent, s: ServerId, now: Time, t: TaskId)
    requires Invariant(a) && t in a.tasks && HoldsLive(a, s, t)
    ensures !Invariant(StopServerOperations(a, s, now))
  {
    var b := StopServerOperations(a, s, now);
    assert TaskOk(a, t);
    if a.tasks[t].op.Some? {
      assert !TaskOk(b, t);
    } else {
      assert t in AnonymousHolders(b, s);
      assert b.Count(s) == 0;
    }
  }

  lemma UnsafeDrop(a: Agent, s: ServerId)
    requires Invariant(a) && !Safe(a, DropConfig(s))
    ensures !Invariant(RemoveConfig(a, s))
  {
    var b := RemoveConfig(a, s);
    if r :| r in a.ops && a.ops[r].server == s && a.ops[r].Live() {
      assert !OperationOk(b, r);
    } else {
      var t :| t in a.tasks && HoldsLive(a, s, t);
      assert TaskOk(a, t);
      assert t in AnonymousHolders(a, s);
      assert a.Count(s) == |OperationHolders(a, s)| + |AnonymousHolders(a, s)|;
      assert AnonymousHolders(b, s) == {};
      assert OperationHolders(b, s) == {};
    }
  }

  lemma UnsafeAdmission(a: Agent, b: Agent, r: RequestId, t: TaskId)
    requires Linked(a) && t in a.tasks && a.tasks[t].op == Some(r)
    requires t in b.tasks && b.tasks[t] == a.tasks[t]
    requires r in b.ops && b.ops[r].Live() && b.ops[r].task != Some(t)
    ensures !Invariant(b)
  {
    assert !TaskOk(b, t);
  }

  lemma UnsafeRelease(a: Agent, s: ServerId, r: RequestId, g: int, token: Option<Attempt>, now: Time)
    requires Invariant(a) && ReleasesOwnedSlot(a, s, r, g, token)
    ensures !Invariant(ReleasePending(a, s, r, g, token, now))
  {
    var b := ReleasePending(a, s, r, g, token, now);
    assert OperationOk(a, r);
    var t := a.ops[r].task.value;
    assert TaskOk(a, t);
    assert HoldsLive(b, s, t);
    assert !TaskOk(b, t);
  }

  lemma UnsafeStep(a: Agent, e: Event)
    requires Invariant(a) && Enabled(a, e) && !Safe(a, e)
    ensures !Invariant(Apply(a, e))
  {
    match e
    case Install(s, c) =>
      var t :| t in a.tasks && a.tasks[t].server == s && a.tasks[t].HasSlot() && a.tasks[t].generation == c.generation;
      UnsafeInstall(a, s, c, t);
    case FenceOperations(s, now) =>
      var t :| t in a.tasks && HoldsLive(a, s, t);
      UnsafeFence(a, s, now, t);
    case DropConfig(s) => UnsafeDrop(a, s);
    case Reserve(s, r, g, tok, now) =>
      var t :| t in a.tasks && a.tasks[t].op == Some(r);
      UnsafeAdmission(a, Apply(a, e), r, t);
    case Release(s, r, g, token, now) => UnsafeRelease(a, s, r, g, token, now);
    case Cancel(s, r, token, now) => UnsafeRelease(a, s, r, a.ops[r].generation, token, now);
    case Enqueue(s, op, expected, streaming) =>
      var t :| t in a.tasks && a.tasks[t].op == op;
      FreshTask(a);
      UnsafeAdmission(a, Apply(a, e), op.value, t);
    case _ =>
  }

  /** A step of the agent keeps the counters right and every slot linked to its owner exactly when it is safe. */
  lemma StepKeepsInvariant(a: Agent, e: Event)
    requires Invariant(a) && Enabled(a, e)
    ensures Invariant(Apply(a, e)) <==> Safe(a, e)
  {
    if Safe(a, e) {
      SafeStep(a, e);
    } else {
      UnsafeStep(a, e);
    }
  }

  // --------------------------------------------------------------- runs

  ghost function Run(a: Agent, es: seq<Event>): Agent
    decreases |es|
  {
    if es == [] then a else Run(Apply(a, es[0]), es[1..])
  }

  ghost predicate SafeRun(a: Agent, es: seq<Event>)
    decreases |es|
  {
    es == [] || (Enabled(a, es[0]) && Safe(a, es[0]) && SafeRun(Apply(a, es[0]), es[1..]))
  }

  /** In every state a safe run reaches, each counter equals its holders and stays within capacity. */
  lemma {:induction false} RunsConserveSlots(es: seq<Event>, a: Agent)
    requires Invariant(a) && SafeRun(a, es)
    ensures Invariant(Run(a, es)) && Conserved(Run(a, es))
    decreases |es|
  {
    if es != [] {
      SafeStep(a, es[0]);
      RunsConserveSlots(es[1..], Apply(a, es[0]));
    }
  }

  lemma EmptyAgentConserves()
    ensures Invariant(EmptyAgent)
  {
    forall s: ServerId
      ensures OperationHolders(EmptyAgent, s) == {} && AnonymousHolders(EmptyAgent, s) == {}
    {}
  }

  // Carrying any reservation id makes a cancel or an expiry safe, so every cancel
  // the backend sends (always with the header) conserves slots.
  lemma TokenMakesReleaseSafe(a: Agent, s: ServerId, r: RequestId, g: int, tok: Attempt, now: Time)
    requires Invariant(a)
    ensures Safe(a, Release(s, r, g, Some(tok), now)) && Safe(a, Cancel(s, r, Some(tok), now))
  {
    if r in a.ops {
      assert OperationOk(a, r);
      if a.ops[r].task.Some? && a.ops[r].task.value in a.tasks {
        assert TaskOk(a, a.ops[r].task.value);
      }
    }
  }
}
