/**
 * The two-party protocol: leases and server rows in the backend's database, slots and
 * operations on the agents, the claims that run between them, and messages that may be
 * lost, delayed, reordered and (cancels and dispatches) delivered any number of times.
 */
module TwoParty {
  import opened Common
  import opened Leases
  import opened LeaseLifecycle
  import Ledger = SlotLedger
  import Reservations

  // Where _reserve_and_activate is, for one attempt.
  datatype Phase =
    | Asking      // the reservation request is out
    | Confirmed   // the agent accepted; finalize comes next
    | Committed   // finalize committed; the handle is not returned yet
    | Returned    // the handle is out: it may dispatch, renew, cancel and release
    | GivenUp     // cleanup: cancel on the agent, then undo in the database

  datatype ClaimRecord = ClaimRecord(
    lease: LeaseId, request: RequestId, server: ServerId, agent: AgentId, generation: int,
    at: Time,              // `now` as the claim read it
    phase: Phase)

  datatype World = World(
    now: Time,
    db: Db,
    agents: map<AgentId, Ledger.Agent>,
    claims: map<Attempt, ClaimRecord>,
    strays: set<Attempt>,           // given up while their finalize still runs
    // messages in flight
    reserves: set<Attempt>,
    answers: set<Attempt>,
    cancels: set<Attempt>,
    dispatches: set<Attempt>,
    // history
    accepted: map<Attempt, Time>,   // when the agent took the slot
    disturbed: set<Attempt>,        // after accepting, the agent stopped that server or ended an older request under that id
    withdrawn: set<Attempt>,        // after accepting, the agent received a cancel of that attempt
    committed: set<Attempt>,        // finalize committed
    consumed: seq<Attempt>)         // reservations consumed for dispatch, in order

  datatype Step =
    | Tick(to: Time)
    | ClaimLease(id: LeaseId, s: ServerId, a: Attempt, at: Time)
    | DeliverReserve(a: Attempt)
    | HearAccepted(a: Attempt)
    | GiveUp(a: Attempt)            // refusal, time-out, error or cancellation while asking
    | TryFinalize(a: Attempt)
    | AbandonFinalize(a: Attempt)   // cancelled twice while finalizing
    | StrayFinalize(a: Attempt)
    | ReturnHandle(a: Attempt)
    | LoseHandle(a: Attempt)        // cancelled after the commit
    | SendCancel(a: Attempt)
    | CleanUp(a: Attempt, at: Time)
    | SendDispatch(a: Attempt)
    | DeliverCancel(a: Attempt)
    | DeliverDispatch(a: Attempt, streaming: bool)
    | ExpireReservation(a: Attempt)
    | UseHandle(a: Attempt, tx: Tx)
    | AgentStep(agent: AgentId, e: Ledger.Event)
    | OtherTx(tx: Tx)

  function ReserveEvent(w: World, a: Attempt): Ledger.Event
    requires a in w.claims
  {
    Ledger.Reserve(w.claims[a].server, w.claims[a].request, w.claims[a].generation, a, w.now)
  }

  function CancelEvent(w: World, a: Attempt): Ledger.Event
    requires a in w.claims
  {
    Ledger.Cancel(w.claims[a].server, w.claims[a].request, Some(a), w.now)
  }

  function ConsumeEvent(w: World, a: Attempt, streaming: bool): Ledger.Event
    requires a in w.claims
  {
    Ledger.Consume(w.claims[a].server, w.claims[a].request, w.claims[a].generation, a, streaming)
  }

  function ExpiryEvent(w: World, a: Attempt): Ledger.Event
    requires a in w.claims
  {
    Ledger.Release(w.claims[a].server, w.claims[a].request, w.claims[a].generation, Some(a), w.now)
  }

  // Agent steps that no attempt's message or timer causes.
  predicate IsLocal(e: Ledger.Event) {
    !e.Reserve? && !e.Release? && !e.Consume? && (e.Cancel? ==> e.token.None?)
  }

  predicate HandleTx(c: ClaimRecord, tx: Tx, now: Time) {
    || (tx.TxEndActive? && tx.id == c.lease && tx.g == c.generation && WellFormed(tx))
    || (tx.TxRenew? && tx.id == c.lease && tx.s == c.server && tx.g == c.generation && tx.now <= now)
  }

  predicate IsOther(tx: Tx) {
    WellFormed(tx) && !tx.TxClaim? && !tx.TxFinalize? && !tx.TxCleanup? && !tx.TxEndActive? && !tx.TxRenew?
  }

  predicate In(w: World, a: Attempt, phases: set<Phase>) {
    a in w.claims && w.claims[a].phase in phases
  }

  predicate AgentOf(w: World, a: Attempt) {
    a in w.claims && w.claims[a].agent in w.agents
  }

  ghost predicate Can(w: World, step: Step) {
    match step
    case Tick(to) => w.now <= to
    case ClaimLease(id, s, a, at) => at <= w.now && a !in w.claims && Claimable(w.db, id, s, at)
    case DeliverReserve(a) => a in w.reserves && AgentOf(w, a)
    case HearAccepted(a) => a in w.answers && In(w, a, {Asking})
    case GiveUp(a) => In(w, a, {Asking})
    case TryFinalize(a) => In(w, a, {Confirmed})
    case AbandonFinalize(a) => In(w, a, {Confirmed})
    case StrayFinalize(a) => a in w.strays && a in w.claims
    case ReturnHandle(a) => In(w, a, {Committed})
    case LoseHandle(a) => In(w, a, {Committed})
    case SendCancel(a) => In(w, a, {Returned, GivenUp})
    case CleanUp(a, at) => In(w, a, {GivenUp}) && at <= w.now
    case SendDispatch(a) => In(w, a, {Returned})
    case DeliverCancel(a) => a in w.cancels && AgentOf(w, a)
    case DeliverDispatch(a, _) => a in w.dispatches && AgentOf(w, a)
    case ExpireReservation(a) => a in w.accepted && w.now >= w.accepted[a] + RESERVATION_TTL && AgentOf(w, a)
    case UseHandle(a, tx) => In(w, a, {Returned}) && HandleTx(w.claims[a], tx, w.now)
    case AgentStep(aid, e) => aid in w.agents && IsLocal(e) && Ledger.Enabled(w.agents[aid], e)
    case OtherTx(tx) => IsOther(tx)
  }

  function To(w: World, a: Attempt, phase: Phase): World
    requires a in w.claims
  {
    w.(claims := w.claims[a := w.claims[a].(phase := phase)])
  }

  ghost function OnAgent(w: World, aid: AgentId, e: Ledger.Event): World
    requires aid in w.agents
  {
    w.(agents := w.agents[aid := Ledger.Apply(w.agents[aid], e)])
  }

  function Takes(w: World, a: Attempt): bool
    requires AgentOf(w, a)
  {
    var c := w.claims[a];
    Ledger.TakesSlot(w.agents[c.agent], c.server, c.request, c.generation, a)
  }

  function Answer(w: World, a: Attempt): Ledger.ReserveResult
    requires AgentOf(w, a)
  {
    var c := w.claims[a];
    Ledger.ReserveOutcome(w.agents[c.agent], c.server, c.request, c.generation, a)
  }

  predicate Consumes(w: World, a: Attempt)
    requires AgentOf(w, a)
  {
    var c := w.claims[a];
    Ledger.Consumable(w.agents[c.agent], c.server, c.request, c.generation, a)
  }

  ghost function DisturbedBy(w: World, aid: AgentId, e: Ledger.Event): set<Attempt>
    requires aid in w.agents
  {
    set a | a in w.accepted && a in w.claims && w.claims[a].agent == aid
            && Reservations.Disturbs(w.agents[aid], e, w.claims[a].server, w.claims[a].request)
  }

  ghost function Next(w: World, step: Step): World
    requires Can(w, step)
  {
    match step
    case Tick(to) => w.(now := to)
    case ClaimLease(id, s, a, at) =>
      w.(
        db := Claim(w.db, id, s, a, at),
        claims := w.claims[a := ClaimRecord(id, w.db.leases[id].request, s, w.db.servers[s].agent,
                                            w.db.servers[s].generation, at, Asking)],
        reserves := w.reserves + {a})
    case DeliverReserve(a) =>
      OnAgent(w, w.claims[a].agent, ReserveEvent(w, a)).(
        reserves := w.reserves - {a},
        answers := if Answer(w, a).Accepted? then w.answers + {a} else w.answers,
        accepted := if Takes(w, a) then w.accepted[a := w.now] else w.accepted)
    case HearAccepted(a) => To(w, a, Confirmed)
    case GiveUp(a) => To(w, a, GivenUp)
    case TryFinalize(a) =>
      var c := w.claims[a];
      if Finalizable(w.db, c.lease, c.server, c.generation, a, w.now) then
        To(w, a, Committed).(
          db := Finalize(w.db, c.lease, c.server, c.generation, a, w.now),
          committed := w.committed + {a})
      else To(w, a, GivenUp)
    case AbandonFinalize(a) => To(w, a, GivenUp).(strays := w.strays + {a})
    case StrayFinalize(a) =>
      var c := w.claims[a];
      if Finalizable(w.db, c.lease, c.server, c.generation, a, w.now) then
        w.(db := Finalize(w.db, c.lease, c.server, c.generation, a, w.now),
           committed := w.committed + {a},
           strays := w.strays - {a})
      else w.(strays := w.strays - {a})
    case ReturnHandle(a) => To(w, a, Returned)
    case LoseHandle(a) => To(w, a, GivenUp)
    case SendCancel(a) => w.(cancels := w.cancels + {a})
    case CleanUp(a, at) => w.(db := Cleanup(w.db, w.claims[a].lease, a, at))
    case SendDispatch(a) => w.(dispatches := w.dispatches + {a})
    case DeliverCancel(a) =>
      OnAgent(w, w.claims[a].agent, CancelEvent(w, a)).(
        withdrawn := if a in w.accepted then w.withdrawn + {a} else w.withdrawn)
    case DeliverDispatch(a, streaming) =>
      OnAgent(w, w.claims[a].agent, ConsumeEvent(w, a, streaming)).(
        consumed := if Consumes(w, a) then w.consumed + [a] else w.consumed)
    case ExpireReservation(a) => OnAgent(w, w.claims[a].agent, ExpiryEvent(w, a))
    case UseHandle(a, tx) => w.(db := Commit(w.db, tx))
    case AgentStep(aid, e) => OnAgent(w, aid, e).(disturbed := w.disturbed + DisturbedBy(w, aid, e))
    case OtherTx(tx) => w.(db := Commit(w.db, tx))
  }

  // ------------------------------------------------------------- invariant

  // The lease names the attempt that claimed it, where and until when.
  predicate LeaseLinked(w: World, id: LeaseId)
    requires id in w.db.leases
  {
    var l := w.db.leases[id];
    && (l.attempt.Some? ==>
          var a := l.attempt.value;
          && a in w.claims && w.claims[a].lease == id
          && l.server == Some(w.claims[a].server) && l.generation == Some(w.claims[a].generation)
          && (l.status == Reserving ==> l.reservationExpires == Some(w.claims[a].at + RESERVATION_RECOVERY)))
    && (l.startedAt.Some? ==> l.attempt.Some? && l.attempt.value in w.committed)
  }

  predicate ClaimOk(w: World, a: Attempt)
    requires a in w.claims
  {
    var c := w.claims[a];
    && c.at <= w.now
    && c.lease in w.db.leases && w.db.leases[c.lease].request == c.request
    && (a in w.committed ==> w.db.leases[c.lease].attempt == Some(a) && w.db.leases[c.lease].startedAt.Some?)
    && (c.phase in {Committed, Returned} ==> a in w.committed)
    && (c.phase in {Asking, Confirmed} ==> a !in w.committed)
    && (c.phase in {Confirmed, Committed, Returned} ==> a in w.accepted)
    && (a in w.accepted ==> a !in w.reserves && c.at <= w.accepted[a])
    && (a in w.answers ==> a in w.accepted)
    && (a in w.strays ==> c.phase == GivenUp && a in w.accepted)
    && (a in w.dispatches ==> c.phase == Returned)
    && (a in w.cancels ==> c.phase in {Returned, GivenUp})
    && (a in w.consumed ==> a in w.dispatches)
  }

  ghost predicate BackendInv(w: World) {
    && DbOk(w.db)
    && (forall id {:trigger LeaseLinked(w, id)} | id in w.db.leases :: LeaseLinked(w, id))
    && (forall a {:trigger ClaimOk(w, a)} | a in w.claims :: ClaimOk(w, a))
    && w.committed <= w.claims.Keys && w.reserves <= w.claims.Keys && w.accepted.Keys <= w.claims.Keys
    && w.strays <= w.claims.Keys && w.answers <= w.claims.Keys && w.cancels <= w.claims.Keys && w.dispatches <= w.claims.Keys
    && (forall a | a in w.consumed :: a in w.claims)
    && (forall i, j | 0 <= i < j < |w.consumed| :: w.consumed[i] != w.consumed[j])
  }

  // A token on an agent is an accepted attempt, in its own place; what was dispatched was consumed.
  predicate TokenOk(w: World, aid: AgentId, r: RequestId)
    requires aid in w.agents && r in w.agents[aid].ops
  {
    var op := w.agents[aid].ops[r];
    op.token.Some? ==>
      var a := op.token.value;
      && a in w.accepted && a in w.claims
      && w.claims[a].agent == aid && w.claims[a].request == r
      && w.claims[a].server == op.server && w.claims[a].generation == op.generation
      && (op.dispatched ==> a in w.consumed)
      && (op.status == Ledger.Operations.OpReserved ==> a !in w.consumed)
  }

  // The agent of attempt a holds a slot reserved for exactly that attempt.
  predicate Held(w: World, a: Attempt)
    requires a in w.claims
  {
    var c := w.claims[a];
    c.agent in w.agents && Reservations.HeldFor(w.agents[c.agent], c.server, c.request, c.generation, a)
  }

  // Accepted, never handed out, its timer has not fired, and nothing took the reservation away.
  predicate Undisturbed(w: World, a: Attempt) {
    && In(w, a, {Asking, Confirmed, Committed, GivenUp})
    && a in w.accepted && a !in w.disturbed && a !in w.withdrawn
    && w.now < w.accepted[a] + RESERVATION_TTL
  }

  // Once disturbed or withdrawn, a reservation is gone for good.
  predicate LostStaysLost(w: World, a: Attempt)
    requires a in w.claims
  {
    a in w.disturbed || a in w.withdrawn ==> a in w.accepted && !Held(w, a)
  }

  ghost predicate AgentInv(w: World) {
    && (forall aid, r {:trigger TokenOk(w, aid, r)} | aid in w.agents && r in w.agents[aid].ops :: TokenOk(w, aid, r))
    && (forall a {:trigger Undisturbed(w, a)} | a in w.claims && Undisturbed(w, a) :: Held(w, a))
    && (forall a {:trigger LostStaysLost(w, a)} | a in w.claims :: LostStaysLost(w, a))
    && w.disturbed + w.withdrawn <= w.claims.Keys
  }

  ghost predicate Inv(w: World) {
    BackendInv(w) && AgentInv(w)
  }
}
