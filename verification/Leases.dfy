/**
 * The backend's database as a value, and each of its transactions as a function.
 * `Scheduling` carries the same transactions out with mutable tables.
 */
module Leases {
  import opened Common

  datatype LeaseStatus = Queued | Reserving | Active | Released | Cancelled | Expired | Failed

  datatype Reason =
    | Completed | Failure | Cancellation | ClientDisconnected | RequestAbandoned | QueueTimeout | QueueCleared
    | AdmissionError | DisconnectedOrCleared | ServerUnavailable | ServerGenerationChanged
    | AgentCancelled | AgentFailed | AgentUnknown | ExpiredOrUnavailable | ServerMissing | StopRequested

  datatype Lease = Lease(
    request: RequestId,
    model: ModelId,
    preferred: Option<ServerId>,
    requiredAgent: Option<AgentId>,
    queuedAt: Time,
    expiresAt: Time,                    // lease_expires_at
    status: LeaseStatus,
    server: Option<ServerId>,
    generation: Option<int>,
    attempt: Option<Attempt>,           // reservation_id
    reservationExpires: Option<Time>,
    startedAt: Option<Time>,
    releasedAt: Option<Time>,
    reason: Option<Reason>)
  {
    predicate Terminal() {
      status in {Released, Cancelled, Expired, Failed}
    }

    function Ended(s: LeaseStatus, why: Reason, now: Time): Lease {
      this.(status := s, reason := Some(why), releasedAt := Some(now))
    }

    function Requeued(): Lease {
      this.(status := Queued, attempt := None, reservationExpires := None, server := None, generation := None)
    }
  }

  datatype ServerStatus =
    | Uninitialized | Preparing | MetadataGathering | InitializationFailed
    | Stopped | Starting | Running | Stopping | Errored

  datatype Health = Unknown | Healthy | Unhealthy

  datatype ServerRow = ServerRow(
    model: ModelId,
    agent: AgentId,
    status: ServerStatus,
    health: Health,
    generation: int,
    effectiveCapacity: int,
    startedAt: Option<Time>)
  {
    predicate Available() {
      status == Running && health == Healthy
    }

    // server_capacity
    function Capacity(): (c: int)
      ensures c >= 1
    {
      Max(effectiveCapacity, 1)
    }

    function Bumped(): ServerRow {
      this.(generation := generation + 1, status := Starting, health := Unknown, startedAt := None)
    }
  }

  datatype Db = Db(leases: map<LeaseId, Lease>, servers: map<ServerId, ServerRow>)

  // ------------------------------------------------------------ admission

  // Leases that fill the slots of server s, as the claim counts them.
  predicate Occupies(db: Db, s: ServerId, id: LeaseId, now: Time)
    requires s in db.servers
  {
    && id in db.leases
    && db.leases[id].server == Some(s)
    && db.leases[id].generation == Some(db.servers[s].generation)
    && (db.leases[id].status == Reserving || (db.leases[id].status == Active && db.leases[id].expiresAt > now))
  }

  function Occupants(db: Db, s: ServerId, now: Time): set<LeaseId>
    requires s in db.servers
  {
    set id | id in db.leases && Occupies(db, s, id, now)
  }

  // Leases that stand in the queue the server draws from.
  predicate Competes(db: Db, s: ServerId, id: LeaseId, now: Time)
    requires s in db.servers
  {
    && id in db.leases
    && db.leases[id].status in {Queued, Reserving}
    && db.leases[id].expiresAt > now
    && Fits(db.leases[id], s, db.servers[s])
  }

  predicate Fits(l: Lease, s: ServerId, row: ServerRow) {
    && l.model == row.model
    && (l.preferred.None? || l.preferred == Some(s))
    && (l.requiredAgent.None? || l.requiredAgent == Some(row.agent))
  }

  // Queue order: (queued_at, id).
  predicate Older(l: Lease, id: LeaseId, m: Lease, jd: LeaseId) {
    l.queuedAt < m.queuedAt || (l.queuedAt == m.queuedAt && id < jd)
  }

  ghost predicate IsHead(db: Db, s: ServerId, id: LeaseId, now: Time)
    requires s in db.servers
  {
    && Competes(db, s, id, now)
    && forall jd | jd in db.leases && jd != id && Competes(db, s, jd, now) ::
         Older(db.leases[id], id, db.leases[jd], jd)
  }

  predicate Settled(row: ServerRow, now: Time) {
    row.startedAt.Some? ==> !(0 <= now - row.startedAt.value < SERVER_READY_COOLDOWN)
  }

  ghost predicate Claimable(db: Db, id: LeaseId, s: ServerId, now: Time) {
    && s in db.servers
    && db.servers[s].Available()
    && Settled(db.servers[s], now)
    && |Occupants(db, s, now)| < db.servers[s].Capacity()
    && IsHead(db, s, id, now)
    && db.leases[id].status == Queued
  }

  ghost function Claim(db: Db, id: LeaseId, s: ServerId, attempt: Attempt, now: Time): Db {
    if Claimable(db, id, s, now) then
      db.(leases := db.leases[id := db.leases[id].(
            status := Reserving,
            server := Some(s),
            generation := Some(db.servers[s].generation),
            attempt := Some(attempt),
            reservationExpires := Some(now + RESERVATION_RECOVERY))])
    else db
  }

  predicate Finalizable(db: Db, id: LeaseId, s: ServerId, g: int, attempt: Attempt, now: Time) {
    && s in db.servers
    && db.servers[s].Available()
    && db.servers[s].generation == g
    && id in db.leases
    && db.leases[id].status == Reserving
    && db.leases[id].attempt == Some(attempt)
    && db.leases[id].expiresAt > now
    && db.leases[id].reservationExpires.Some?
    && db.leases[id].reservationExpires.value > now
  }

  function Finalize(db: Db, id: LeaseId, s: ServerId, g: int, attempt: Attempt, now: Time): Db {
    if Finalizable(db, id, s, g, attempt, now) then
      db.(leases := db.leases[id := db.leases[id].(
            status := Active,
            startedAt := Some(now),
            expiresAt := now + ACTIVE_LEASE_TTL,
            reservationExpires := None)])
    else db
  }

  // The database half of `cleanup`.
  function Cleanup(db: Db, id: LeaseId, attempt: Attempt, now: Time): Db {
    if id in db.leases && db.leases[id].attempt == Some(attempt) then
      var l := db.leases[id];
      if l.status == Active then db.(leases := db.leases[id := l.Ended(Cancelled, RequestAbandoned, now)])
      else if l.status == Reserving then db.(leases := db.leases[id := l.Requeued()])
      else db
    else db
  }

  // ---------------------------------------------------------------- queue

  function Enqueue(db: Db, id: LeaseId, request: RequestId, model: ModelId, preferred: Option<ServerId>,
                   requiredAgent: Option<AgentId>, queuedAt: Time, deadline: Time): Db {
    if id in db.leases || (exists jd | jd in db.leases :: db.leases[jd].request == request) then db
    else
      db.(leases := db.leases[id := Lease(request, model, preferred, requiredAgent, queuedAt, deadline,
                                          Queued, None, None, None, None, None, None, None)])
  }

  datatype QueueCheck = Ready | NotYet | Lost

  // _ensure_queued: an overdue reservation of one's own lease goes back to the queue.
  function CheckQueued(db: Db, id: LeaseId, now: Time): QueueCheck {
    if !(id in db.leases) then Lost
    else if db.leases[id].status == Reserving && db.leases[id].reservationExpires.Some? then
      if db.leases[id].reservationExpires.value > now then NotYet else Ready
    else if db.leases[id].status == Queued then Ready
    else Lost
  }

  function EnsureQueued(db: Db, id: LeaseId, now: Time): Db {
    if id in db.leases && db.leases[id].status == Reserving && CheckQueued(db, id, now) == Ready
    then db.(leases := db.leases[id := db.leases[id].Requeued()])
    else db
  }

  function FinishQueued(db: Db, id: LeaseId, status: LeaseStatus, why: Reason, now: Time): Db {
    if id in db.leases && db.leases[id].status in {Queued, Reserving}
    then db.(leases := db.leases[id := db.leases[id].Ended(status, why, now)])
    else db
  }

  function ClearQueue(db: Db, now: Time): Db {
    db.(leases := map id | id in db.leases ::
          if db.leases[id].status in {Queued, Reserving}
          then db.leases[id].Ended(Cancelled, QueueCleared, now)
          else db.leases[id])
  }

  // --------------------------------------------------------------- handle

  // release, cancel and _mark_cancelled: end one's active lease of one's generation.
  predicate Endable(db: Db, id: LeaseId, g: int) {
    id in db.leases && db.leases[id].status == Active && db.leases[id].generation == Some(g)
  }

  function EndActive(db: Db, id: LeaseId, g: int, status: LeaseStatus, why: Reason, now: Time): Db {
    if Endable(db, id, g) then db.(leases := db.leases[id := db.leases[id].Ended(status, why, now)]) else db
  }

  predicate Renewable(db: Db, id: LeaseId, s: ServerId, g: int) {
    Endable(db, id, g) && s in db.servers && db.servers[s].Available() && db.servers[s].generation == g
  }

  function Renew(db: Db, id: LeaseId, s: ServerId, g: int, now: Time): Db {
    if Renewable(db, id, s, g)
    then db.(leases := db.leases[id := db.leases[id].(expiresAt := now + ACTIVE_LEASE_TTL)])
    else db
  }

  // -------------------------------------------------------- server events

  function InvalidateServerLeases(leases: map<LeaseId, Lease>, s: ServerId, why: Reason, now: Time): map<LeaseId, Lease> {
    map id | id in leases ::
      if leases[id].server == Some(s) && leases[id].status == Active
      then leases[id].Ended(Failed, why, now)
      else leases[id]
  }

  // _matching_server: the event names a server of the sender, and its live generation if any.
  predicate Matches(db: Db, s: ServerId, agent: AgentId, g: Option<int>) {
    && s in db.servers
    && db.servers[s].agent == agent
    && (g.Some? ==> db.servers[s].generation == g.value)
  }

  datatype AgentEvent =
    | ServerError
    | HealthChanged(healthy: bool)
    | ServerStarted(capacity: Option<int>)
    | ServerStopped

  function AfterEvent(row: ServerRow, e: AgentEvent, now: Time): ServerRow {
    match e
    case ServerError => row.(status := Errored, health := Unhealthy)
    case HealthChanged(healthy) =>
      if healthy then row.(health := Healthy, status := if row.status == Starting then Running else row.status)
      else row.(health := Unhealthy)
    case ServerStarted(capacity) =>
      if row.status in {Starting, Running} then
        row.(status := Running, health := Healthy,
             effectiveCapacity := if capacity.Some? then Max(capacity.value, 1) else row.effectiveCapacity,
             startedAt := if row.startedAt.Some? then row.startedAt else Some(now))
      else row
    case ServerStopped =>
      row.(status := if row.status in {Preparing, MetadataGathering} then row.status else Stopped, health := Unknown)
  }

  predicate Invalidates(e: AgentEvent) {
    e.ServerError? || e.ServerStopped? || (e.HealthChanged? && !e.healthy)
  }

  function HandleEvent(db: Db, s: ServerId, agent: AgentId, g: Option<int>, e: AgentEvent, now: Time): Db {
    if !Matches(db, s, agent, g) then db
    else
      Db(if Invalidates(e) then InvalidateServerLeases(db.leases, s, ServerUnavailable, now) else db.leases,
         db.servers[s := AfterEvent(db.servers[s], e, now)])
  }

  // ------------------------------------------------------------ lifecycle

  // reserve_server_start
  function ReserveStart(db: Db, s: ServerId): Db {
    if s in db.servers && !(db.servers[s].status in {Starting, Running, Stopping})
    then db.(servers := db.servers[s := db.servers[s].Bumped()])
    else db
  }

  // ensure_server_ready under the row lock: join a startup in progress, or start anew.
  function StartForRequest(db: Db, s: ServerId): Db {
    if s in db.servers && !(db.servers[s].status in {Starting, Running})
    then db.(servers := db.servers[s := db.servers[s].Bumped()])
    else db
  }

  function ActiveOn(db: Db, s: ServerId): set<LeaseId> {
    set id | id in db.leases && db.leases[id].server == Some(s) && db.leases[id].status == Active
  }

  predicate Stoppable(db: Db, s: ServerId, force: bool) {
    s in db.servers && (force || ActiveOn(db, s) == {})
  }

  // request_server_stop, first transaction: fence admission, fail what is active.
  function RequestStop(db: Db, s: ServerId, force: bool, now: Time): Db {
    if Stoppable(db, s, force) then
      Db(InvalidateServerLeases(db.leases, s, StopRequested, now),
         db.servers[s := db.servers[s].(status := Stopping, health := Unknown)])
    else db
  }

  // Its last transaction, when the agent stopped the server.
  function SettleStop(db: Db, s: ServerId, g: int): Db {
    if s in db.servers && db.servers[s].generation == g && db.servers[s].status == Stopping
    then db.(servers := db.servers[s := db.servers[s].(status := Stopped, health := Unknown)])
    else db
  }

  // initialize_server: its generation bump, under the row lock.
  function BumpForInitialization(db: Db, s: ServerId): Db {
    if s in db.servers then db.(servers := db.servers[s := db.servers[s].(generation := db.servers[s].generation + 1)]) else db
  }

  function FailLost(leases: map<LeaseId, Lease>, lost: set<ServerId>, now: Time): map<LeaseId, Lease> {
    map id | id in leases ::
      if leases[id].status == Active && leases[id].server.Some? && leases[id].server.value in lost
      then leases[id].Ended(Failed, ServerUnavailable, now)
      else leases[id]
  }

  // _mark_agent_servers_unavailable: the agent's starting and running servers, as it read them.
  function MarkUnavailable(db: Db, lost: set<ServerId>, now: Time): Db {
    Db(FailLost(db.leases, lost, now),
       map s | s in db.servers ::
         if s in lost then db.servers[s].(status := Stopped, health := Unknown) else db.servers[s])
  }

  // ---------------------------------------- server writes that read without a lock

  datatype Late =
    | Acknowledged(expected: int, reported: Option<int>, capacity: Option<int>, now: Time)   // dispatch_start, answered
    | StartFailed(expected: int)                                                             // dispatch_start, failed
    | StartLost(expected: int)                                                               // dispatch_start, connection lost
    | StopFailed(g: int)                                                                     // request_server_stop, failed
    | StatusSet(status: ServerStatus)                                                        // initialize_server, benchmark

  // What the transaction makes of the row it read.
  function Wanted(seen: ServerRow, late: Late): ServerRow {
    match late
    case Acknowledged(expected, reported, capacity, now) =>
      if seen.status in {Starting, Running} && seen.generation == expected && (reported.Some? ==> reported.value == expected)
      then seen.(status := Running, health := Healthy,
                 startedAt := if seen.startedAt.Some? then seen.startedAt else Some(now),
                 effectiveCapacity := if capacity.Some? then Max(capacity.value, 1) else seen.effectiveCapacity)
      else seen
    case StartFailed(expected) =>
      if seen.generation == expected && seen.status == Starting then seen.(status := Errored) else seen
    case StartLost(expected) =>
      if seen.generation == expected && seen.status == Starting then seen.(health := Unknown) else seen
    case StopFailed(g) =>
      if seen.generation == g && seen.status == Stopping then seen.(status := Errored, health := Unknown) else seen
    case StatusSet(status) =>
      if status in {Preparing, MetadataGathering, InitializationFailed, Stopped}
      then seen.(status := status, health := Unknown) else seen
  }

  // The generation the late message speaks for, if any.
  function GenerationOf(late: Late): Option<int> {
    match late
    case Acknowledged(expected, _, _, _) => Some(expected)
    case StartFailed(expected) => Some(expected)
    case StartLost(expected) => Some(expected)
    case StopFailed(g) => Some(g)
    case StatusSet(_) => None
  }

  // The write carries the columns it changed, and leaves the others as they are by then.
  function Overwritten(row: ServerRow, seen: ServerRow, wanted: ServerRow): ServerRow {
    row.(status := if wanted.status != seen.status then wanted.status else row.status,
         health := if wanted.health != seen.health then wanted.health else row.health,
         startedAt := if wanted.startedAt != seen.startedAt then wanted.startedAt else row.startedAt,
         effectiveCapacity := if wanted.effectiveCapacity != seen.effectiveCapacity then wanted.effectiveCapacity
                              else row.effectiveCapacity)
  }

  function LateWrite(db: Db, s: ServerId, seen: ServerRow, late: Late): Db {
    if s in db.servers
    then db.(servers := db.servers[s := Overwritten(db.servers[s], seen, Wanted(seen, late))])
    else db
  }

  // ------------------------------------------------------- reconciliation

  datatype Verdict =
    | Extend                                     // live, or the agent could not answer
    | Close(status: LeaseStatus, why: Reason)

  // What the bulk updates of one pass do to one lease.
  function Decide(l: Lease, row: Option<ServerRow>, oldGeneration: bool, verdict: Option<Verdict>, now: Time): Lease {
    match l.status
    case Reserving =>
      if l.expiresAt <= now then l.Ended(Expired, QueueTimeout, now)
      else if l.reservationExpires.Some? && l.reservationExpires.value <= now then l.Requeued()
      else l
    case Queued => if l.expiresAt <= now then l.Ended(Expired, QueueTimeout, now) else l
    case Active =>
      if oldGeneration then l.Ended(Failed, ServerGenerationChanged, now)
      else if l.expiresAt <= now && verdict.Some? && verdict.value.Close? then
        l.Ended(verdict.value.status, verdict.value.why, now)
      else
        var kept := if l.expiresAt <= now && verdict.Some? then l.(expiresAt := now + ACTIVE_LEASE_TTL) else l;
        if row.Some? then
          if kept.generation == Some(row.value.generation) && (!row.value.Available() || kept.expiresAt <= now)
          then kept.Ended(Failed, ExpiredOrUnavailable, now) else kept
        else if kept.server.None? || kept.expiresAt <= now then kept.Ended(Failed, ServerMissing, now)
        else kept
    case _ => l
  }

  function RowOf(db: Db, l: Lease): Option<ServerRow> {
    if l.server.Some? && l.server.value in db.servers then Some(db.servers[l.server.value]) else None
  }

  predicate FailedHere(db: Db, id: LeaseId, after: Lease, s: ServerId) {
    && id in db.leases
    && db.leases[id].status == Active
    && db.leases[id].server == Some(s)
    && after.status == Failed
    && after.reason == Some(ExpiredOrUnavailable)
  }

  function Verdicts(verdicts: map<LeaseId, Verdict>, id: LeaseId): Option<Verdict> {
    if id in verdicts then Some(verdicts[id]) else None
  }

  function DecideAll(db: Db, oldGeneration: set<LeaseId>, verdicts: map<LeaseId, Verdict>, now: Time): map<LeaseId, Lease> {
    map id | id in db.leases ::
      Decide(db.leases[id], RowOf(db, db.leases[id]), id in oldGeneration, Verdicts(verdicts, id), now)
  }

  // A server that lost leases because it is unavailable is told to stop.
  predicate FencedByPass(db: Db, decided: map<LeaseId, Lease>, s: ServerId)
    requires s in db.servers
  {
    && !db.servers[s].Available()
    && db.servers[s].status in {Running, Starting}
    && exists id | id in decided :: FailedHere(db, id, decided[id], s)
  }

  function ReconcileWrites(db: Db, oldGeneration: set<LeaseId>, verdicts: map<LeaseId, Verdict>, now: Time): Db {
    var decided := DecideAll(db, oldGeneration, verdicts, now);
    Db(decided,
       map s | s in db.servers ::
         if FencedByPass(db, decided, s) then db.servers[s].(status := Stopping) else db.servers[s])
  }

  // ---------------------------------------------------------- transactions

  datatype Tx =
    | TxEnqueue(id: LeaseId, request: RequestId, model: ModelId, preferred: Option<ServerId>,
                requiredAgent: Option<AgentId>, queuedAt: Time, deadline: Time)
    | TxClaim(id: LeaseId, s: ServerId, attempt: Attempt, now: Time)
    | TxFinalize(id: LeaseId, s: ServerId, g: int, attempt: Attempt, now: Time)
    | TxCleanup(id: LeaseId, attempt: Attempt, now: Time)
    | TxEnsureQueued(id: LeaseId, now: Time)
    | TxFinishQueued(id: LeaseId, status: LeaseStatus, why: Reason, now: Time)
    | TxClearQueue(now: Time)
    | TxEndActive(id: LeaseId, g: int, status: LeaseStatus, why: Reason, now: Time)
    | TxRenew(id: LeaseId, s: ServerId, g: int, now: Time)
    | TxReconcile(oldGeneration: set<LeaseId>, verdicts: map<LeaseId, Verdict>, now: Time)
    | TxEvent(s: ServerId, agent: AgentId, generation: Option<int>, event: AgentEvent, now: Time)
    | TxReserveStart(s: ServerId)
    | TxStartForRequest(s: ServerId)
    | TxRequestStop(s: ServerId, force: bool, now: Time)
    | TxSettleStop(s: ServerId, g: int)
    | TxBumpForInitialization(s: ServerId)
    | TxMarkUnavailable(lost: set<ServerId>, now: Time)
    | TxLate(s: ServerId, seen: ServerRow, late: Late)

  // Terminal statuses are the only ones the ending transactions write.
  predicate WellFormed(tx: Tx) {
    match tx
    case TxFinishQueued(_, status, _, _) => status in {Expired, Cancelled, Failed}
    case TxEndActive(_, _, status, _, _) => status in {Released, Cancelled, Failed}
    case TxReconcile(_, verdicts, _) =>
      forall id | id in verdicts && verdicts[id].Close? :: verdicts[id].status in {Released, Cancelled, Failed}
    case _ => true
  }

  ghost function Commit(db: Db, tx: Tx): Db {
    match tx
    case TxEnqueue(id, request, model, preferred, agent, queuedAt, deadline) =>
      Enqueue(db, id, request, model, preferred, agent, queuedAt, deadline)
    case TxClaim(id, s, attempt, now) => Claim(db, id, s, attempt, now)
    case TxFinalize(id, s, g, attempt, now) => Finalize(db, id, s, g, attempt, now)
    case TxCleanup(id, attempt, now) => Cleanup(db, id, attempt, now)
    case TxEnsureQueued(id, now) => EnsureQueued(db, id, now)
    case TxFinishQueued(id, status, why, now) => FinishQueued(db, id, status, why, now)
    case TxClearQueue(now) => ClearQueue(db, now)
    case TxEndActive(id, g, status, why, now) => EndActive(db, id, g, status, why, now)
    case TxRenew(id, s, g, now) => Renew(db, id, s, g, now)
    case TxReconcile(gone, verdicts, now) => ReconcileWrites(db, gone, verdicts, now)
    case TxEvent(s, agent, g, e, now) => HandleEvent(db, s, agent, g, e, now)
    case TxReserveStart(s) => ReserveStart(db, s)
    case TxStartForRequest(s) => StartForRequest(db, s)
    case TxRequestStop(s, force, now) => RequestStop(db, s, force, now)
    case TxSettleStop(s, g) => SettleStop(db, s, g)
    case TxBumpForInitialization(s) => BumpForInitialization(db, s)
    case TxMarkUnavailable(lost, now) => MarkUnavailable(db, lost, now)
    case TxLate(s, seen, late) => LateWrite(db, s, seen, late)
  }
}
