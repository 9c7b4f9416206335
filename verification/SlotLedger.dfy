/**
 * Agent slot admission as transitions on values (proxy.py, inference_operations.py
 * and the cancel route). One transition is one block of agent code that runs without
 * giving up the event loop. `ServerManagers` states the same code with mutable fields.
 */
module SlotLedger {
  import opened Common
  import opened Operations

  datatype Config = Config(generation: int, parallel: int)
  {
    // try_reserve_inference_slot: max(int(get_effective_capacity(server_id)), 1)
    function Capacity(): (c: int)
      ensures c >= 1
    {
      Max(parallel, 1)
    }
  }

  // Where a request task is. A task that ended is no longer in `tasks`.
  datatype Phase =
    | Waiting      // parked on the server's slot condition
    | Interrupted  // parked, with its cancellation already requested
    | Granted      // slot taken, streaming task not bound to the operation yet
    | Holding      // bound to its slot and talking to the upstream
    | Consumed     // reservation consumed, response not started yet

  // One call of proxy_request / proxy_stream with its local _SlotReservation.
  datatype Task = Task(
    server: ServerId,
    op: Option<RequestId>,
    generation: int,             // reservation.generation once a slot is held
    expected: Option<int>,       // X-Inference-Slot-Generation
    streaming: bool,
    phase: Phase)
  {
    predicate HasSlot() {
      phase == Granted || phase == Holding
    }
  }

  datatype Agent = Agent(
    configs: map<ServerId, Config>,
    counts: map<ServerId, nat>,  // _active_inference_requests
    ops: Table,
    tasks: map<TaskId, Task>,
    nextTask: TaskId)
  {
    function Count(s: ServerId): nat {
      if s in counts then counts[s] else 0
    }

    predicate Serves(s: ServerId, g: int) {
      s in configs && configs[s].generation == g
    }

    predicate HasRoom(s: ServerId)
      requires s in configs
    {
      Count(s) < configs[s].Capacity()
    }

    // operation["task"].done(): the slot was granted to a stream whose waiting task
    // has returned and whose streaming task is not bound yet, or it is gone.
    predicate TaskDone(t: Option<TaskId>) {
      t.Some? && (t.value !in tasks || (tasks[t.value].phase == Granted && tasks[t.value].streaming))
    }
  }

  const EmptyAgent := Agent(map[], map[], map[], map[], 0)

  function Incremented(counts: map<ServerId, nat>, s: ServerId): map<ServerId, nat> {
    counts[s := (if s in counts then counts[s] else 0) + 1]
  }

  // remaining = get - 1; store it when positive, pop the key otherwise.
  function Decremented(counts: map<ServerId, nat>, s: ServerId): map<ServerId, nat> {
    if s in counts && counts[s] > 1 then counts[s := counts[s] - 1] else counts - {s}
  }

  // ---------------------------------------------------------------- servers

  function InstallConfig(a: Agent, s: ServerId, c: Config): Agent {
    a.(configs := a.configs[s := c])
  }

  function RemoveConfig(a: Agent, s: ServerId): Agent {
    a.(configs := a.configs - {s})
  }

  // task.cancel() on a parked task; a running one unwinds through ConnectionFinished.
  function Interrupt(tasks: map<TaskId, Task>, t: Option<TaskId>): map<TaskId, Task> {
    if t.Some? && t.value in tasks && tasks[t.value].phase == Waiting
    then tasks[t.value := tasks[t.value].(phase := Interrupted)]
    else tasks
  }

  predicate FencedTask(a: Agent, s: ServerId, t: TaskId)
    requires t in a.tasks
  {
    exists r | r in a.ops :: a.ops[r].server == s && a.ops[r].Live() && a.ops[r].task == Some(t)
  }

  // stop_server_operations: fail the live operations, wake their tasks, drop the counter.
  function StopServerOperations(a: Agent, s: ServerId, now: Time): Agent {
    a.(
      ops := FailServerOperations(a.ops, s, now),
      counts := a.counts - {s},
      tasks := map t | t in a.tasks ::
                 if a.tasks[t].phase == Waiting && FencedTask(a, s, t)
                 then a.tasks[t].(phase := Interrupted)
                 else a.tasks[t])
  }

  function StopServer(a: Agent, s: ServerId, now: Time): Agent {
    RemoveConfig(StopServerOperations(a, s, now), s)
  }

  // ----------------------------------------------------------- reservations

  datatype ReserveResult = Accepted | Full | Exists | GenerationChanged

  function ReserveOutcome(a: Agent, s: ServerId, r: RequestId, g: int, tok: Attempt): ReserveResult {
    if !a.Serves(s, g) then GenerationChanged
    else if r in a.ops && a.ops[r].server == s && a.ops[r].generation == g
            && a.ops[r].status == OpReserved && a.ops[r].token == Some(tok) then Accepted
    else if r in a.ops && (a.ops[r].server != s || a.ops[r].status != OpCancelled || a.ops[r].dispatched) then Exists
    else if !a.HasRoom(s) then Full
    else Accepted
  }

  // Whether an accepted call takes a new slot, rather than repeating its own reservation.
  predicate TakesSlot(a: Agent, s: ServerId, r: RequestId, g: int, tok: Attempt) {
    ReserveOutcome(a, s, r, g, tok) == Accepted && !(r in a.ops && a.ops[r].status == OpReserved)
  }

  ghost function TryReserveSlot(a: Agent, s: ServerId, r: RequestId, g: int, tok: Attempt, now: Time): Agent {
    if TakesSlot(a, s, r, g, tok) then
      a.(
        ops := StartOperation(a.ops - {r}, r,
                 Operation(s, g, OpReserved, Some(tok), false, None, Some(now + RESERVATION_TTL), 0)),
        counts := Incremented(a.counts, s))
    else a
  }

  predicate Releasable(a: Agent, s: ServerId, r: RequestId, g: int, tok: Option<Attempt>) {
    && r in a.ops
    && a.ops[r].server == s
    && a.ops[r].generation == g
    && a.ops[r].token == tok
    && (a.ops[r].status == OpReserved || (a.ops[r].status == OpActive && a.TaskDone(a.ops[r].task)))
  }

  function ReleasePending(a: Agent, s: ServerId, r: RequestId, g: int, tok: Option<Attempt>, now: Time): Agent {
    if Releasable(a, s, r, g, tok) then
      a.(
        counts := Decremented(a.counts, s),
        ops := FinishOperation(a.ops, Some(r), OpCancelled, now))
    else a
  }

  predicate Consumable(a: Agent, s: ServerId, r: RequestId, g: int, tok: Attempt) {
    && a.Serves(s, g)
    && r in a.ops
    && a.ops[r].server == s
    && a.ops[r].generation == g
    && a.ops[r].token == Some(tok)
    && a.ops[r].status == OpReserved
  }

  function ConsumeSlot(a: Agent, s: ServerId, r: RequestId, g: int, tok: Attempt, streaming: bool): Agent {
    if Consumable(a, s, r, g, tok) then
      a.(
        ops := a.ops[r := a.ops[r].(status := OpActive, dispatched := true, task := Some(a.nextTask))],
        tasks := a.tasks[a.nextTask := Task(s, Some(r), g, Some(g), streaming, Consumed)],
        nextTask := a.nextTask + 1)
    else a
  }

  // Start of proxy_request / proxy_stream with capacity_reserved: bind, or give up
  // without releasing when the operation is no longer active.
  function BindReserved(a: Agent, t: TaskId): Agent {
    if t in a.tasks && a.tasks[t].phase == Consumed && a.tasks[t].op.Some? then
      var r := a.tasks[t].op.value;
      if r in a.ops && a.ops[r].server == a.tasks[t].server && a.ops[r].status == OpActive then
        a.(
          ops := a.ops[r := a.ops[r].(timer := None, task := Some(t))],
          tasks := a.tasks[t := a.tasks[t].(phase := Holding)])
      else
        a.(tasks := a.tasks - {t})
    else a
  }

  // The handler ended before its response body ever ran.
  function AbandonHandler(a: Agent, t: TaskId): Agent {
    if t in a.tasks && a.tasks[t].phase == Consumed then a.(tasks := a.tasks - {t}) else a
  }

  // ------------------------------------------------------------ cancel route

  predicate Cancellable(a: Agent, r: RequestId, s: ServerId) {
    && r in a.ops
    && a.ops[r].server == s
    && (a.ops[r].status == OpQueued || a.ops[r].status == OpActive)
    && a.ops[r].task.Some?
  }

  function CancelOperation(a: Agent, r: RequestId, s: ServerId): Agent {
    if Cancellable(a, r, s) then
      a.(
        ops := a.ops[r := a.ops[r].(status := OpCancelling)],
        tasks := Interrupt(a.tasks, a.ops[r].task))
    else a
  }

  predicate CancelAdmitted(a: Agent, s: ServerId, r: RequestId, tok: Option<Attempt>) {
    r in a.ops && a.ops[r].server == s && (a.ops[r].token.Some? ==> a.ops[r].token == tok)
  }

  // cancel_inference_operation: refuse another attempt's token, then try to give the
  // slot back, then ask the running task to stop.
  function CancelRoute(a: Agent, s: ServerId, r: RequestId, tok: Option<Attempt>, now: Time): Agent {
    if !CancelAdmitted(a, s, r, tok) then a
    else if Releasable(a, s, r, a.ops[r].generation, tok) then
      ReleasePending(a, s, r, a.ops[r].generation, tok, now)
    else
      CancelOperation(a, r, s)
  }

  // ------------------------------------------------- requests without a lease

  // Head of _connection_started: register, then wait for a slot.
  predicate Enqueueable(a: Agent, s: ServerId, op: Option<RequestId>, expected: Option<int>) {
    op.Some? ==>
      && op.value !in a.ops
      && s in a.configs
      && (expected.Some? ==> a.configs[s].generation == expected.value)
  }

  ghost function EnqueueRequest(a: Agent, s: ServerId, op: Option<RequestId>, expected: Option<int>, streaming: bool): Agent {
    if !Enqueueable(a, s, op, expected) then a
    else
      a.(
        ops := if op.Some? then
                 StartOperation(a.ops, op.value,
                   Operation(s, a.configs[s].generation, OpQueued, None, false, Some(a.nextTask), None, 0))
               else a.ops,
        tasks := a.tasks[a.nextTask := Task(s, op, 0, expected, streaming, Waiting)],
        nextTask := a.nextTask + 1)
  }

  function ActivateOperation(ops: Table, r: Option<RequestId>): Table {
    if r.Some? && r.value in ops && ops[r.value].status == OpQueued
    then ops[r.value := ops[r.value].(status := OpActive)]
    else ops
  }

  // One turn of the wait loop in _connection_started.
  function GrantSlot(a: Agent, t: TaskId, now: Time): Agent {
    if !(t in a.tasks && a.tasks[t].phase == Waiting) then a
    else
      var task := a.tasks[t];
      if !(task.server in a.configs)
         || (task.expected.Some? && a.configs[task.server].generation != task.expected.value) then
        a.(ops := FinishOperation(a.ops, task.op, OpFailed, now), tasks := a.tasks - {t})
      else if a.HasRoom(task.server) then
        a.(
          ops := ActivateOperation(a.ops, task.op),
          counts := Incremented(a.counts, task.server),
          tasks := a.tasks[t := task.(
                     phase := if task.streaming then Granted else Holding,
                     generation := a.configs[task.server].generation)])
      else a
  }

  // CancelledError inside the wait.
  function CancelWaiting(a: Agent, t: TaskId, now: Time): Agent {
    if t in a.tasks && (a.tasks[t].phase == Waiting || a.tasks[t].phase == Interrupted) then
      a.(ops := FinishOperation(a.ops, a.tasks[t].op, OpCancelled, now), tasks := a.tasks - {t})
    else a
  }

  // The stream resumes after its wait: it goes on only if its operation is still active.
  function BindStream(a: Agent, t: TaskId): Agent {
    if t in a.tasks && a.tasks[t].phase == Granted then
      var task := a.tasks[t];
      if task.op.None? then
        a.(tasks := a.tasks[t := task.(phase := Holding)])
      else if task.op.value in a.ops && a.ops[task.op.value].server == task.server
              && a.ops[task.op.value].status == OpActive then
        a.(
          ops := a.ops[task.op.value := a.ops[task.op.value].(timer := None, task := Some(t))],
          tasks := a.tasks[t := task.(phase := Holding)])
      else a
    else a
  }

  // _release_reservation followed by _connection_finished.
  function ConnectionFinished(a: Agent, t: TaskId, outcome: OpStatus, now: Time): Agent {
    if t in a.tasks && a.tasks[t].HasSlot() then
      var task := a.tasks[t];
      a.(
        counts := if a.Serves(task.server, task.generation) then Decremented(a.counts, task.server) else a.counts,
        ops := FinishOperation(a.ops, task.op, outcome, now),
        tasks := a.tasks - {t})
    else a
  }

  // ------------------------------------------------------------------ events

  datatype Event =
    | Install(s: ServerId, config: Config)
    | Stop(s: ServerId, now: Time)
    | FenceOperations(s: ServerId, now: Time)   // first half of a stop
    | DropConfig(s: ServerId)                   // second half; also a failed start
    | Reserve(s: ServerId, r: RequestId, g: int, tok: Attempt, now: Time)
    | Release(s: ServerId, r: RequestId, g: int, token: Option<Attempt>, now: Time)
    | Consume(s: ServerId, r: RequestId, g: int, tok: Attempt, streaming: bool)
    | Bind(t: TaskId)
    | Abandon(t: TaskId)
    | Cancel(s: ServerId, r: RequestId, token: Option<Attempt>, now: Time)
    | Enqueue(s: ServerId, op: Option<RequestId>, expected: Option<int>, streaming: bool)
    | Grant(t: TaskId, now: Time)
    | Unwait(t: TaskId, now: Time)
    | Resume(t: TaskId)
    | Finish(t: TaskId, outcome: OpStatus, now: Time)

  // A process is installed only where none is recorded, and a request ends in a final status.
  predicate Enabled(a: Agent, e: Event) {
    match e
    case Install(s, _) => s !in a.configs
    case Finish(_, outcome, _) => outcome in {OpCompleted, OpFailed, OpCancelled}
    case _ => true
  }

  ghost function Apply(a: Agent, e: Event): Agent {
    match e
    case Install(s, c) => InstallConfig(a, s, c)
    case Stop(s, now) => StopServer(a, s, now)
    case FenceOperations(s, now) => StopServerOperations(a, s, now)
    case DropConfig(s) => RemoveConfig(a, s)
    case Reserve(s, r, g, tok, now) => TryReserveSlot(a, s, r, g, tok, now)
    case Release(s, r, g, token, now) => ReleasePending(a, s, r, g, token, now)
    case Consume(s, r, g, tok, streaming) => ConsumeSlot(a, s, r, g, tok, streaming)
    case Bind(t) => BindReserved(a, t)
    case Abandon(t) => AbandonHandler(a, t)
    case Cancel(s, r, token, now) => CancelRoute(a, s, r, token, now)
    case Enqueue(s, op, expected, streaming) => EnqueueRequest(a, s, op, expected, streaming)
    case Grant(t, now) => GrantSlot(a, t, now)
    case Unwait(t, now) => CancelWaiting(a, t, now)
    case Resume(t) => BindStream(a, t)
    case Finish(t, outcome, now) => ConnectionFinished(a, t, outcome, now)
  }

  // -------------------------------------------------- what an admission does to the table

  function ReservedOperation(e: Event): Operation
    requires e.Reserve?
  {
    Operation(e.s, e.g, OpReserved, Some(e.tok), false, None, Some(e.now + RESERVATION_TTL), 0)
  }

  function QueuedOperation(a: Agent, e: Event): Operation
    requires e.Enqueue? && e.s in a.configs
  {
    Operation(e.s, a.configs[e.s].generation, OpQueued, None, false, Some(a.nextTask), None, 0)
  }

  // The entry of x: retention may drop it when its operation is over, and nothing else may.
  predicate Retained(a: Agent, b: Agent, x: RequestId) {
    && (x in b.ops ==> x in a.ops && b.ops[x] == a.ops[x])
    && (x in a.ops && a.ops[x].Live() ==> x in b.ops)
  }

  // b is a after the admission e, as far as operation x is concerned.
  predicate AdmittedAt(a: Agent, b: Agent, e: Event, x: RequestId) {
    && b.configs == a.configs
    && (e.Reserve? ==>
          b.tasks == a.tasks && b.nextTask == a.nextTask
          && if TakesSlot(a, e.s, e.r, e.g, e.tok) then
               && b.counts == Incremented(a.counts, e.s)
               && if x == e.r then x in b.ops && b.ops[x] == ReservedOperation(e) else Retained(a, b, x)
             else b == a)
    && (e.Enqueue? ==>
          if Enqueueable(a, e.s, e.op, e.expected) then
            && b.counts == a.counts && b.nextTask == a.nextTask + 1
            && b.tasks == a.tasks[a.nextTask := Task(e.s, e.op, 0, e.expected, e.streaming, Waiting)]
            && if e.op == Some(x) then x in b.ops && b.ops[x] == QueuedOperation(a, e) else Retained(a, b, x)
          else b == a)
  }

  lemma StartKeeps(ops: Table, r: RequestId, op: Operation, x: RequestId)
    ensures var started := Operations.StartOperation(ops, r, op);
            if x == r then x in started && started[x] == op
            else (x in started ==> x in ops && started[x] == ops[x]) && (x in ops && ops[x].Live() ==> x in started)
  {
    EvictedKeeps(ops, x);
  }

  lemma ReservedAt(a: Agent, s: ServerId, r: RequestId, g: int, tok: Attempt, now: Time, x: RequestId)
    ensures AdmittedAt(a, TryReserveSlot(a, s, r, g, tok, now), Reserve(s, r, g, tok, now), x)
  {
    StartKeeps(a.ops - {r}, r, ReservedOperation(Reserve(s, r, g, tok, now)), x);
  }

  lemma EnqueuedAt(a: Agent, s: ServerId, op: Option<RequestId>, expected: Option<int>, streaming: bool, x: RequestId)
    ensures AdmittedAt(a, EnqueueRequest(a, s, op, expected, streaming), Enqueue(s, op, expected, streaming), x)
  {
    if Enqueueable(a, s, op, expected) && op.Some? {
      StartKeeps(a.ops, op.value, QueuedOperation(a, Enqueue(s, op, expected, streaming)), x);
    }
  }

  lemma AdmissionAt(a: Agent, e: Event, x: RequestId)
    requires e.Reserve? || e.Enqueue?
    ensures AdmittedAt(a, Apply(a, e), e, x)
  {
    match e
    case Reserve(s, r, g, tok, now) => ReservedAt(a, s, r, g, tok, now, x);
    case Enqueue(s, op, expected, streaming) => EnqueuedAt(a, s, op, expected, streaming, x);
  }
}
