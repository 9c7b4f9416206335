/**
 * The agent code itself: one object whose fields the handlers update in place.
 * Every method is proved equal to the transition of SlotLedger it carries out, so
 * the conservation theorems are about these methods.
 */
module ServerManagers {
  import opened Common
  import opened Operations
  import opened SlotLedger

  lemma OldestUnique(ops: Table, j: RequestId, k: RequestId)
    requires IsOldest(ops, j) && IsOldest(ops, k)
    ensures j == k
  {}

  // Some live operation of s among rs names task t.
  ghost predicate NamedBy(ops: Table, s: ServerId, t: TaskId, rs: set<RequestId>) {
    exists r | r in rs && r in ops :: ops[r].server == s && ops[r].Live() && ops[r].task == Some(t)
  }

  lemma NamedByOneMore(ops: Table, s: ServerId, t: TaskId, rs: set<RequestId>, r: RequestId)
    requires r in ops
    ensures NamedBy(ops, s, t, rs + {r}) <==>
            NamedBy(ops, s, t, rs) || (ops[r].server == s && ops[r].Live() && ops[r].task == Some(t))
  {
    if ops[r].server == s && ops[r].Live() && ops[r].task == Some(t) {
      assert r in rs + {r};
    }
  }

  // The tasks after the operations rs of s have been failed and their tasks cancelled.
  ghost function InterruptedBy(tasks: map<TaskId, Task>, ops: Table, s: ServerId, rs: set<RequestId>): map<TaskId, Task> {
    map t | t in tasks ::
      if tasks[t].phase == Waiting && NamedBy(ops, s, t, rs) then tasks[t].(phase := Interrupted) else tasks[t]
  }

  lemma InterruptedByOneMore(tasks: map<TaskId, Task>, ops: Table, s: ServerId, rs: set<RequestId>, r: RequestId)
    requires r in ops
    ensures InterruptedBy(tasks, ops, s, rs + {r}) ==
            if ops[r].server == s && ops[r].Live() then Interrupt(InterruptedBy(tasks, ops, s, rs), ops[r].task)
            else InterruptedBy(tasks, ops, s, rs)
  {
    forall t: TaskId
      ensures NamedBy(ops, s, t, rs + {r}) <==>
              NamedBy(ops, s, t, rs) || (ops[r].server == s && ops[r].Live() && ops[r].task == Some(t))
    {
      NamedByOneMore(ops, s, t, rs, r);
    }
  }

  // The table after the operations rs of s have been failed.
  function FailedBy(ops: Table, s: ServerId, now: Time, rs: set<RequestId>): Table {
    map r | r in ops :: if r in rs then FailServerOperations(ops, s, now)[r] else ops[r]
  }

  lemma AllVisited(a: Agent, s: ServerId, now: Time)
    ensures FailedBy(a.ops, s, now, a.ops.Keys) == FailServerOperations(a.ops, s, now)
    ensures InterruptedBy(a.tasks, a.ops, s, a.ops.Keys) == StopServerOperations(a, s, now).tasks
    ensures InterruptedBy(a.tasks, a.ops, s, {}) == a.tasks
  {
    forall t | t in a.tasks
      ensures NamedBy(a.ops, s, t, a.ops.Keys) <==> FencedTask(a, s, t)
    {}
  }

  class ServerManager {
    var configs: map<ServerId, Config>
    var activeRequests: map<ServerId, nat>
    var operations: Table
    var tasks: map<TaskId, Task>
    var nextTask: TaskId

    ghost function State(): Agent
      reads this
    {
      Agent(configs, activeRequests, operations, tasks, nextTask)
    }

    constructor ()
      ensures State() == EmptyAgent
    {
      configs, activeRequests, operations, tasks, nextTask := map[], map[], map[], map[], 0;
    }

    // ------------------------------------------------ inference_operations.py

    // The head of `completed`: the finished operation with the least (finished_at, key).
    method OldestFinished() returns (k: RequestId)
      requires Finished(operations) != {}
      ensures IsOldest(operations, k)
    {
      var left := Finished(operations);
      k :| k in left;
      left := left - {k};
      while left != {}
        invariant left <= Finished(operations) && k in Finished(operations) && k !in left
        invariant forall r | r in Finished(operations) && r !in left && r != k :: Before(operations, k, r)
        decreases left
      {
        var x :| x in left;
        if Before(operations, x, k) {
          k := x;
        }
        left := left - {x};
      }
    }

    method StartOperation(r: RequestId, op: Operation) returns (started: bool)
      modifies this`operations
      ensures started == (r !in old(operations))
      ensures operations == if started then Operations.StartOperation(old(operations), r, op) else old(operations)
    {
      if r in operations {
        return false;
      }
      var surplus := Surplus(operations);
      while surplus > 0 && Finished(operations) != {}
        invariant surplus >= 0
        invariant EvictOldest(operations, surplus) == Evicted(old(operations))
        decreases surplus
      {
        var k := OldestFinished();
        OldestUnique(operations, k, OldestOf(operations));
        operations := operations - {k};
        surplus := surplus - 1;
      }
      operations := operations[r := op];
      return true;
    }

    method FinishOperation(r: Option<RequestId>, status: OpStatus, now: Time)
      modifies this`operations
      ensures operations == Operations.FinishOperation(old(operations), r, status, now)
      ensures operations ==
                if r.Some? && r.value in old(operations)
                   && old(operations)[r.value].status in {OpQueued, OpReserved, OpActive, OpCancelling}
                then old(operations)[r.value := old(operations)[r.value].(status := status, timer := None, finishedAt := now,
                                                                         task := None)]
                else old(operations)
    {
      if r.None? {
        return;
      }
      if r.value in operations && operations[r.value].Live() {
        var op := operations[r.value].(timer := None);
        op := op.(status := status);
        op := op.(finishedAt := now);
        operations := operations[r.value := op.(task := None)];
      }
    }

    method ReserveOperation(s: ServerId, r: RequestId, g: int, tok: Attempt) returns (reserved: bool)
      requires r in operations ==> operations[r].status == OpCancelled && !operations[r].dispatched
      modifies this`operations
      ensures reserved
      ensures operations == Operations.StartOperation(old(operations) - {r}, r,
                              Operation(s, g, OpReserved, Some(tok), false, None, None, 0))
    {
      operations := operations - {r};
      reserved := StartOperation(r, Operation(s, g, OpReserved, Some(tok), false, None, None, 0));
    }

    method CancelOperation(r: RequestId, s: ServerId) returns (accepted: bool)
      modifies this`operations, this`tasks
      ensures accepted == Cancellable(old(State()), r, s)
      ensures State() == SlotLedger.CancelOperation(old(State()), r, s)
      ensures accepted <==>
                && r in old(operations) && old(operations)[r].server == s
                && old(operations)[r].status in {OpQueued, OpActive} && old(operations)[r].task.Some?
      ensures !accepted ==> operations == old(operations) && tasks == old(tasks)
      ensures accepted ==>
                && operations == old(operations)[r := old(operations)[r].(status := OpCancelling)]
                && var t := old(operations)[r].task.value;
                   tasks == if t in old(tasks) && old(tasks)[t].phase == Waiting
                            then old(tasks)[t := old(tasks)[t].(phase := Interrupted)] else old(tasks)
    {
      if !(r in operations) || operations[r].server != s {
        return false;
      }
      var op := operations[r];
      if !(op.status in {OpQueued, OpActive}) || op.task.None? {
        return false;
      }
      operations := operations[r := op.(status := OpCancelling)];
      var t := op.task.value;
      if t in tasks && tasks[t].phase == Waiting {
        tasks := tasks[t := tasks[t].(phase := Interrupted)];
      }
      return true;
    }

    // stop_server_operations: the loop over the table, then the counter.
    method StopServerOperations(s: ServerId, now: Time)
      modifies this`operations, this`tasks, this`activeRequests
      ensures State() == SlotLedger.StopServerOperations(old(State()), s, now)
      ensures activeRequests == old(activeRequests) - {s}
      ensures operations == map r | r in old(operations) ::
                if old(operations)[r].server == s && old(operations)[r].status in {OpQueued, OpReserved, OpActive, OpCancelling}
                then old(operations)[r].(status := OpFailed, timer := None, finishedAt := now, task := None)
                else old(operations)[r]
    {
      ghost var was := State();
      AllVisited(was, s, now);
      var left := operations.Keys;
      ghost var seen: set<RequestId> := {};
      while left != {}
        invariant seen !! left && seen + left == was.ops.Keys
        invariant activeRequests == was.counts
        invariant operations == FailedBy(was.ops, s, now, seen)
        invariant tasks == InterruptedBy(was.tasks, was.ops, s, seen)
        decreases left
      {
        var r :| r in left;
        left := left - {r};
        InterruptedByOneMore(was.tasks, was.ops, s, seen, r);
        seen := seen + {r};
        var op := operations[r];
        if op.server == s && op.Live() {
          operations := operations[r := op.(timer := None, status := OpFailed, finishedAt := now, task := None)];
          tasks := Interrupt(tasks, op.task);
        }
        assert operations == FailedBy(was.ops, s, now, seen);
      }
      activeRequests := activeRequests - {s};
      assert seen == was.ops.Keys;
    }

    // --------------------------------------------------------------- proxy.py

    method TakeSlot(s: ServerId)
      modifies this`activeRequests
      ensures activeRequests == Incremented(old(activeRequests), s)
      ensures activeRequests == old(activeRequests)[s := if s in old(activeRequests) then old(activeRequests)[s] + 1 else 1]
    {
      var active := if s in activeRequests then activeRequests[s] else 0;
      activeRequests := activeRequests[s := active + 1];
    }

    method GiveSlot(s: ServerId)
      modifies this`activeRequests
      ensures activeRequests == Decremented(old(activeRequests), s)
      ensures activeRequests ==
                if s in old(activeRequests) && old(activeRequests)[s] > 1
                then old(activeRequests)[s := old(activeRequests)[s] - 1]
                else old(activeRequests) - {s}
    {
      var active: int := if s in activeRequests then activeRequests[s] else 0;
      var remaining := active - 1;
      if remaining > 0 {
        activeRequests := activeRequests[s := remaining];
      } else {
        activeRequests := activeRequests - {s};
      }
    }

    method TryReserveInferenceSlot(s: ServerId, r: RequestId, g: int, tok: Attempt, now: Time)
      returns (result: ReserveResult)
      modifies this`operations, this`activeRequests
      ensures result == ReserveOutcome(old(State()), s, r, g, tok)
      ensures State() == TryReserveSlot(old(State()), s, r, g, tok, now)
      ensures !result.Accepted? || (r in old(operations) && old(operations)[r].status == OpReserved) ==> State() == old(State())
      ensures result.Accepted? && !(r in old(operations) && old(operations)[r].status == OpReserved) ==>
                && s in configs
                && (if s in old(activeRequests) then old(activeRequests)[s] else 0)
                     < (if configs[s].parallel > 1 then configs[s].parallel else 1)
                && activeRequests == old(activeRequests)[s := if s in old(activeRequests) then old(activeRequests)[s] + 1 else 1]
                && r in operations && operations[r] == Operation(s, g, OpReserved, Some(tok), false, None, Some(now + 15_000), 0)
    {
      if !(s in configs) || configs[s].generation != g {
        return GenerationChanged;
      }
      if r in operations {
        var existing := operations[r];
        if existing.server == s {
          if existing.generation == g && existing.status == OpReserved && existing.token == Some(tok) {
            return Accepted;
          }
        }
        if existing.server != s || existing.status != OpCancelled || existing.dispatched {
          return Exists;
        }
      }
      var active := if s in activeRequests then activeRequests[s] else 0;
      if active >= configs[s].Capacity() {
        return Full;
      }
      assert TakesSlot(old(State()), s, r, g, tok);
      var reserved := ReserveOperation(s, r, g, tok);
      TakeSlot(s);
      operations := operations[r := operations[r].(timer := Some(now + RESERVATION_TTL))];
      assert operations == Operations.StartOperation(old(operations) - {r}, r,
        Operation(s, g, OpReserved, Some(tok), false, None, Some(now + RESERVATION_TTL), 0));
      return Accepted;
    }

    method ReleasePendingReservation(s: ServerId, r: RequestId, g: int, tok: Option<Attempt>, now: Time)
      returns (released: bool)
      modifies this`operations, this`activeRequests
      ensures released == Releasable(old(State()), s, r, g, tok)
      ensures State() == ReleasePending(old(State()), s, r, g, tok, now)
      ensures !released ==> State() == old(State())
      ensures released ==>
                && r in old(operations) && old(operations)[r].server == s && old(operations)[r].generation == g
                && old(operations)[r].token == tok && old(operations)[r].status in {OpReserved, OpActive}
                && operations == old(operations)[r := old(operations)[r].(status := OpCancelled, timer := None,
                                                                          finishedAt := now, task := None)]
                && activeRequests == if s in old(activeRequests) && old(activeRequests)[s] > 1
                                     then old(activeRequests)[s := old(activeRequests)[s] - 1]
                                     else old(activeRequests) - {s}
    {
      if !(r in operations) || operations[r].server != s || operations[r].generation != g || operations[r].token != tok {
        return false;
      }
      var op := operations[r];
      var done := op.task.Some? && (op.task.value !in tasks
                                    || (tasks[op.task.value].phase == Granted && tasks[op.task.value].streaming));
      if op.status != OpReserved && !(op.status == OpActive && done) {
        return false;
      }
      operations := operations[r := op.(timer := None)];
      GiveSlot(s);
      FinishOperation(Some(r), OpCancelled, now);
      return true;
    }

    method ConsumeInferenceSlot(s: ServerId, r: RequestId, g: int, tok: Attempt, streaming: bool)
      returns (consumed: bool)
      modifies this`operations, this`tasks, this`nextTask
      ensures consumed == Consumable(old(State()), s, r, g, tok)
      ensures State() == ConsumeSlot(old(State()), s, r, g, tok, streaming)
      ensures consumed <==>
                && s in configs && configs[s].generation == g
                && r in old(operations) && old(operations)[r].server == s && old(operations)[r].generation == g
                && old(operations)[r].token == Some(tok) && old(operations)[r].status == OpReserved
      ensures !consumed ==> State() == old(State())
      ensures consumed ==>
                && operations == old(operations)[r := old(operations)[r].(status := OpActive, dispatched := true,
                                                                          task := Some(old(nextTask)))]
                && tasks == old(tasks)[old(nextTask) := Task(s, Some(r), g, Some(g), streaming, Consumed)]
                && nextTask == old(nextTask) + 1
    {
      if !(s in configs) || configs[s].generation != g {
        return false;
      }
      if !(r in operations) || operations[r].server != s || operations[r].generation != g
         || operations[r].token != Some(tok) || operations[r].status != OpReserved {
        return false;
      }
      var op := operations[r].(status := OpActive);
      op := op.(dispatched := true);
      operations := operations[r := op.(task := Some(nextTask))];
      tasks := tasks[nextTask := Task(s, Some(r), g, Some(g), streaming, Consumed)];
      nextTask := nextTask + 1;
      return true;
    }

    // _connection_started up to its wait loop.
    method EnterSlotQueue(s: ServerId, op: Option<RequestId>, expected: Option<int>, streaming: bool)
      returns (entered: bool)
      modifies this`operations, this`tasks, this`nextTask
      ensures entered == Enqueueable(old(State()), s, op, expected)
      ensures State() == EnqueueRequest(old(State()), s, op, expected, streaming)
      ensures entered <==>
                op.Some? ==>
                  && op.value !in old(operations) && s in configs
                  && (expected.Some? ==> configs[s].generation == expected.value)
      ensures !entered ==> State() == old(State())
      ensures entered ==>
                && tasks == old(tasks)[old(nextTask) := Task(s, op, 0, expected, streaming, Waiting)]
                && nextTask == old(nextTask) + 1
                && (op.None? ==> operations == old(operations))
                && (op.Some? ==>
                      && op.value in operations
                      && operations[op.value]
                         == Operation(s, configs[s].generation, OpQueued, None, false, Some(old(nextTask)), None, 0))
    {
      if op.Some? {
        if op.value in operations || !(s in configs) {
          return false;
        }
        if expected.Some? && configs[s].generation != expected.value {
          return false;
        }
        var started := StartOperation(op.value,
          Operation(s, configs[s].generation, OpQueued, None, false, Some(nextTask), None, 0));
      }
      tasks := tasks[nextTask := Task(s, op, 0, expected, streaming, Waiting)];
      nextTask := nextTask + 1;
      return true;
    }

    // One turn of that loop for the parked task t.
    method WaitTurn(t: TaskId, now: Time)
      requires t in tasks && tasks[t].phase == Waiting
      modifies this`operations, this`tasks, this`activeRequests
      ensures State() == GrantSlot(old(State()), t, now)
      ensures var task := old(tasks)[t];
              var count := if task.server in old(activeRequests) then old(activeRequests)[task.server] else 0;
              if task.server !in configs || (task.expected.Some? && configs[task.server].generation != task.expected.value) then
                && t !in tasks && activeRequests == old(activeRequests)
                && (task.op.Some? && task.op.value in old(operations)
                    && old(operations)[task.op.value].status in {OpQueued, OpReserved, OpActive, OpCancelling} ==>
                      task.op.value in operations && operations[task.op.value].status == OpFailed)
              else if count < (if configs[task.server].parallel > 1 then configs[task.server].parallel else 1) then
                && activeRequests == old(activeRequests)[task.server := count + 1]
                && tasks == old(tasks)[t := task.(phase := if task.streaming then Granted else Holding,
                                                  generation := configs[task.server].generation)]
                && operations == (if task.op.Some? && task.op.value in old(operations)
                                     && old(operations)[task.op.value].status == OpQueued
                                  then old(operations)[task.op.value := old(operations)[task.op.value].(status := OpActive)]
                                  else old(operations))
              else State() == old(State())
    {
      var task := tasks[t];
      if !(task.server in configs)
         || (task.expected.Some? && configs[task.server].generation != task.expected.value) {
        FinishOperation(task.op, OpFailed, now);
        tasks := tasks - {t};
        return;
      }
      var active := if task.server in activeRequests then activeRequests[task.server] else 0;
      if active < configs[task.server].Capacity() {
        if task.op.Some? && task.op.value in operations && operations[task.op.value].status == OpQueued {
          operations := operations[task.op.value := operations[task.op.value].(status := OpActive)];
        }
        TakeSlot(task.server);
        task := task.(generation := configs[task.server].generation);
        tasks := tasks[t := task.(phase := if task.streaming then Granted else Holding)];
      }
    }

    // The parked task t receives its cancellation.
    method WaitCancelled(t: TaskId, now: Time)
      requires t in tasks && (tasks[t].phase == Waiting || tasks[t].phase == Interrupted)
      modifies this`operations, this`tasks
      ensures State() == CancelWaiting(old(State()), t, now)
      ensures tasks == old(tasks) - {t}
      ensures operations ==
                (var r := old(tasks)[t].op;
                 if r.Some? && r.value in old(operations)
                    && old(operations)[r.value].status in {OpQueued, OpReserved, OpActive, OpCancelling}
                 then old(operations)[r.value := old(operations)[r.value].(status := OpCancelled, timer := None,
                                                                          finishedAt := now, task := None)]
                 else old(operations))
    {
      FinishOperation(tasks[t].op, OpCancelled, now);
      tasks := tasks - {t};
    }

    method BindOperationTask(r: Option<RequestId>, t: TaskId)
      modifies this`operations
      ensures operations ==
              if r.Some? && r.value in old(operations) && old(operations)[r.value].status == OpActive
              then old(operations)[r.value := old(operations)[r.value].(timer := None, task := Some(t))]
              else old(operations)
    {
      if r.Some? && r.value in operations && operations[r.value].status == OpActive {
        var op := operations[r.value].(timer := None);
        operations := operations[r.value := op.(task := Some(t))];
      }
    }

    // Head of proxy_request and proxy_stream when the slot was reserved.
    method StartReserved(t: TaskId) returns (bound: bool)
      requires t in tasks && tasks[t].phase == Consumed && tasks[t].op.Some?
      modifies this`operations, this`tasks
      ensures State() == BindReserved(old(State()), t)
      ensures bound <==> t in tasks
      ensures bound <==>
                var r := old(tasks)[t].op.value;
                r in old(operations) && old(operations)[r].server == old(tasks)[t].server && old(operations)[r].status == OpActive
      ensures !bound ==> tasks == old(tasks) - {t} && operations == old(operations)
      ensures bound ==>
                && tasks == old(tasks)[t := old(tasks)[t].(phase := Holding)]
                && var r := old(tasks)[t].op.value;
                   operations == old(operations)[r := old(operations)[r].(timer := None, task := Some(t))]
    {
      var task := tasks[t];
      var r := task.op.value;
      if !(r in operations) || operations[r].server != task.server || operations[r].status != OpActive {
        tasks := tasks - {t};
        return false;
      }
      BindOperationTask(task.op, t);
      tasks := tasks[t := task.(phase := Holding)];
      return true;
    }

    // proxy_stream after its slot wait: continue, or unwind through ConnectionFinished.
    method ResumeStream(t: TaskId) returns (bound: bool)
      requires t in tasks && tasks[t].phase == Granted
      modifies this`operations, this`tasks
      ensures State() == BindStream(old(State()), t)
      ensures t in tasks && (bound <==> tasks[t].phase == Holding)
      ensures bound <==>
                var r := old(tasks)[t].op;
                r.Some? ==> r.value in old(operations) && old(operations)[r.value].server == old(tasks)[t].server
                            && old(operations)[r.value].status == OpActive
      ensures !bound ==> tasks == old(tasks) && operations == old(operations)
      ensures bound ==>
                && tasks == old(tasks)[t := old(tasks)[t].(phase := Holding)]
                && var r := old(tasks)[t].op;
                   operations == if r.Some? then old(operations)[r.value := old(operations)[r.value].(timer := None, task := Some(t))]
                                 else old(operations)
    {
      var task := tasks[t];
      if task.op.Some? {
        var r := task.op.value;
        if !(r in operations) || operations[r].server != task.server || operations[r].status != OpActive {
          return false;
        }
      }
      BindOperationTask(task.op, t);
      tasks := tasks[t := task.(phase := Holding)];
      return true;
    }

    method ConnectionFinished(t: TaskId, outcome: OpStatus, now: Time)
      requires t in tasks && tasks[t].HasSlot()
      modifies this`operations, this`tasks, this`activeRequests
      ensures State() == SlotLedger.ConnectionFinished(old(State()), t, outcome, now)
      ensures tasks == old(tasks) - {t}
      ensures var s := old(tasks)[t].server;
              activeRequests ==
                if s !in configs || configs[s].generation != old(tasks)[t].generation then old(activeRequests)
                else if s in old(activeRequests) && old(activeRequests)[s] > 1
                then old(activeRequests)[s := old(activeRequests)[s] - 1]
                else old(activeRequests) - {s}
      ensures operations ==
                (var r := old(tasks)[t].op;
                 if r.Some? && r.value in old(operations)
                    && old(operations)[r.value].status in {OpQueued, OpReserved, OpActive, OpCancelling}
                 then old(operations)[r.value := old(operations)[r.value].(status := outcome, timer := None,
                                                                          finishedAt := now, task := None)]
                 else old(operations))
    {
      var task := tasks[t];
      if task.server in configs && configs[task.server].generation == task.generation {
        GiveSlot(task.server);
      }
      FinishOperation(task.op, outcome, now);
      tasks := tasks - {t};
    }

    // ------------------------------------------------- api/routes/proxy.py

    method CancelInferenceOperation(s: ServerId, r: RequestId, tok: Option<Attempt>, now: Time)
      returns (cancelled: bool)
      modifies this`operations, this`tasks, this`activeRequests
      ensures State() == CancelRoute(old(State()), s, r, tok, now)
      ensures cancelled <==>
                CancelAdmitted(old(State()), s, r, tok)
                && (Releasable(old(State()), s, r, old(operations[r].generation), tok) || Cancellable(old(State()), r, s))
      ensures !cancelled ==> State() == old(State())
      ensures (r !in old(operations) || old(operations)[r].server != s
               || (old(operations)[r].token.Some? && old(operations)[r].token != tok)) ==> !cancelled
      ensures (r in old(operations) && old(operations)[r].server == s && old(operations)[r].token == tok
               && old(operations)[r].status == OpReserved) ==>
                && cancelled
                && operations == old(operations)[r := old(operations)[r].(status := OpCancelled, timer := None,
                                                                          finishedAt := now, task := None)]
                && activeRequests == if s in old(activeRequests) && old(activeRequests)[s] > 1
                                     then old(activeRequests)[s := old(activeRequests)[s] - 1]
                                     else old(activeRequests) - {s}
      ensures (r in old(operations) && old(operations)[r].server == s
               && (old(operations)[r].token.Some? ==> old(operations)[r].token == tok)
               && old(operations)[r].status in {OpQueued, OpActive} && old(operations)[r].task.Some?) ==>
                && cancelled
                && r in operations && operations[r].status in {OpCancelled, OpCancelling}
                && (operations[r].status == OpCancelling ==> activeRequests == old(activeRequests))
    {
      var known := r in operations && operations[r].server == s;
      if known && operations[r].token.Some? && operations[r].token != tok {
        return false;
      }
      if known && operations[r].status in {OpReserved, OpActive} {
        var accepted := ReleasePendingReservation(s, r, operations[r].generation, tok, now);
        if accepted {
          return true;
        }
      }
      cancelled := CancelOperation(r, s);
    }
  }
}
