# Inference-slot admission, server lifecycle and log feeds: a verified model

A control plane (the backend, with PostgreSQL) hands requests to machines (agents) that run
llama-server processes with a fixed number of slots. A request waits in a first-in first-out
queue of leases; the head of the queue is claimed in one transaction, the agent is asked for a
real slot with no lock held, and a second transaction makes the lease active. Agents keep
operations, slot counters and timers in memory. Nothing but guarded updates, fencing
generations, attempt ids and a 12 second against 15 second deadline keeps the two in step.

`dafny verify dfyconfig.toml` checks the whole project.

## Reading order

| files | what they hold |
|---|---|
| `Common`, `Operations`, `SlotLedger` | one agent as a value: operation table, counters, requests; one transition per block of code between two awaits |
| `ServerManager` | the same code as a class that updates its dictionaries in place, each method equal to its transition |
| `SlotConservation`, `SlotLaw`, `SlotAnswers`, `SlotBreaks`, `SlotLeaks`, `Reservations` | what every step keeps, exactly when: the full invariant and the counter law alone; what a request is answered; how a slot is miscounted or lost; how long a reservation stands |
| `Leases`, `Admission`, `Scheduling` | the database as a value with one function per transaction; who is claimed, in columns; the same transactions as methods over mutable tables, each with every column it writes |
| `LeaseLifecycle`, `LeaseRuns`, `StartFence`, `StopFence`, `Occupancy`, `Reconciliation` | the lease machine, queue order, generation, start and stop fences, occupancy, the reconciliation pass |
| `TwoParty`, `TwoPartySafety`, `TwoPartyTheorems`, `CrossHostTiming`, `LeftoverRequest` | backend, agents and messages together: dispatch authority, attempt fencing, cross-host timing and the run that defeats it |
| `Acquire`, `AcquireExits` | one `acquire` call with cancellation at every await, and how it may end |
| `MakeRoom` | eviction of idle servers for VRAM |
| `ProcessFence`, `Health` | start and stop fencing of processes; health hysteresis |
| `LogRing`, `LogFeed`, `VisibleFeed`, `FeedAgreement` | the bounded log ring, cursor polling, the merged tail in the browser, and their agreement with the unbounded log |

## Assumptions

- One step is one database transaction, one `async with condition` block, one route handler or
  one stretch of code without an await. Anything may happen between two steps.
- A claim re-reads the server row under its lock, and a finalize commits at the instant of its
  deadline check. Clocks of backend and agents advance at the same rate; time passes between
  any two steps.
- Attempt ids are fresh. A reservation request reaches its agent at most once; cancels and
  dispatches may be lost, delayed, reordered and delivered any number of times.
- Slot generations handed to agents are positive: the backend bumps before every start. The
  concurrency of a configuration is the number the process was started with
  (agent/app/services/llama_server.py:571-580).
- Agents do not restart. In the two-party runs an agent takes any step of its ledger at any
  time, including both halves of a stop around the wait for its process and cancels without a
  header. What that does to its counters is a theorem of its own
  (`TwoPartyTheorems.AgentConservesIff`).
- Transactions read committed rows. Those that lock the row they write are one step. The answer
  to a start (backend/app/services/server_startup.py:400-464), the error branch of a stop
  (backend/app/services/server_lifecycle.py:98-112) and the status writes of an initialization
  (backend/app/services/server_startup.py:532-541, 611-620) and of a benchmark
  (backend/app/services/benchmark.py:149-156) lock nothing: they are a read, then at any later
  time a write of the columns they changed (`Leases.LateWrite`).
- The shielded undo of a claim, the shielded `cancel` of a handle and the shielded release of a
  slot run to completion.

## What the code does not keep

Each of these is proved with the exact condition and, where marked, a concrete instance.

- A cancel without a reservation header can give one slot back twice
  (`SlotLeaks.HeaderlessCancelReleasesTwice`, with an instance).
- A stop fences its operations before it waits for the process and drops the configuration after.
  Whenever a request holds a slot at that moment, a new request and the end of that one inside the
  window leave the counter wrong (`SlotLaw.StepKeepsLaw`, `SlotBreaks.StopWindowBreaksLaw`, with an
  instance); without the stop the same steps are harmless (`SlotBreaks.OverlapAloneKeepsLaw`).
- A cancel that lands between the consumption of a reservation and the start of its response
  strands the slot until the server stops (`SlotLeaks.StepKeepsNoOrphans`,
  `SlotLeaks.CancelDuringHandoffStrands`).
- A cancellation in the teardown of `acquire`, after a successful claim, drops the handle of an
  active lease (`AcquireExits.LeaksExactlyWhenCutShort`, with an instance).
- A second cancellation while a claim is finalized abandons the finalize; it may commit between
  the two statements of the undo, and the lease stays active
  (`AcquireExits.LeaksIffNeverEndedItself`, `AcquireExits.AbandonedFinalizeStrays`).
- A start acknowledgement that read its server before a stop and writes after it brings the
  stopped generation back (`StopFence.OnlyOverlookedStopsRevive`,
  `StopFence.AcknowledgementOverwritesStop`).
- The answer to a start that read its server before the server was stopped and started again
  writes over the row of the newer generation: an acknowledgement puts it into service before its
  process answered, a failure marks it failed (`StartFence.StaleMessagesChangeNothing`,
  `StartFence.LateWriteOnStartingServer`, and for every starting server
  `StartFence.StaleAnswerHitsNewProcess`).
- A request left over under the id of a new attempt takes that attempt's reservation with it when
  it ends, and the finalize commits all the same (`CrossHostTiming.FinalizedSlotIsHeldIff`,
  `LeftoverRequest.OldRequestTakesReservation`, an instance).
- A renewal that comes after its lease ran out can overfill a server
  (`Occupancy.RenewalBound`, with an instance), and so can a reconciliation pass that extends
  run-out leases because their agent did not answer (`Occupancy.PassBound`, with an instance) and
  a smaller capacity confirmed within a generation (`Occupancy.CapacityBound`). No other
  transaction can (`Occupancy.StepKeepsBound`).
- An expired lease that is still active blocks eviction for VRAM
  (`MakeRoom.FitsIffStoppableSuffice`, with an instance): the idle test counts unexpired leases,
  the stop counts all active ones.
- A start whose process cannot be spawned does not burn its generation
  (`ProcessFence.FailedStartBurnsIffSpawned`).
- A stop that ends after its server was started again forgets the new process
  (`ProcessFence.TrackedStep`, with an instance).
- A server announced unhealthy can be announced unhealthy again after a fresh start, with no
  healthy transition in between (`Health.RepeatsOnlyAfterReset`).
- A poll reply that live events overtook is taken for a feed reset
  (`FeedAgreement.StaleReplyDropsNewestIff`), and two overlapping polls can then lose lines
  although no gap is flagged (`FeedAgreement.PollLeavesHoleIff`, with an instance).

Where comments and code differ, the model follows the code: `mergeEntries` keeps an entry whose
number equals the cursor (its comment drops it, frontend/src/hook/logMerge.ts:27-35), and a client
that is told of a gap merges what it got instead of starting over from the tail, as the ring's
description has it (agent/app/services/log_buffers.py:27-31, frontend/src/hook/useLogFeed.ts:100-107).

## Model

| member | source | states |
|---|---|---|
| `Operations.EvictionKeepsLive` | agent/app/services/inference_operations.py:26-38 | retention never drops or changes a live operation, and drops exactly as many finished ones as it needs, or all of them |
| `Operations.EvictionIsOldestFirst` | agent/app/services/inference_operations.py:27-38 | whatever retention drops finished before (or at the same time with a smaller key than) every finished operation it keeps |
| `Operations.RetentionBound` | agent/app/services/inference_operations.py:26-39 | the table stays within 4096 entries after a registration unless it was already full of live operations, and below that nothing is dropped |
| `SlotConservation.StepKeepsInvariant` | agent/app/services/proxy.py:530-762 | a step keeps the whole ledger invariant (the counter law, and every request linked to the operation it works for) if and only if it is `Safe`; every clause of `Safe` is a test on the state before the step |
| `SlotConservation.RunsConserveSlots` | agent/app/services/proxy.py:530-762 | over every run of safe steps the invariant holds, so each server's counter equals its live-generation holders and never exceeds capacity |
| `SlotConservation.TokenMakesReleaseSafe` | agent/app/api/routes/proxy.py:83-121 | every cancel or expiry that carries a reservation id conserves slots, so all the cancels the backend sends do |
| `SlotConservation.EmptyAgentConserves` | agent/app/services/llama_server.py:54-69 | a fresh agent satisfies the law |
| `SlotLaw.BasicStep` | agent/app/services/inference_operations.py:13-186 | whatever an agent is put through, a live operation that left the reserved state has a request of its own, and a request still in a wait turn never works for a cancelling operation |
| `SlotLaw.StepKeepsLaw` | agent/app/services/proxy.py:530-762 | the counter law by itself: in any state an agent can be driven into, `counter == reserved, active, active-then-cancelling and operation-less holders`, within capacity, survives a step if and only if the step is one of `Keeps`, a test on the state before |
| `SlotLaw.RunKeepsLawIff` | agent/app/services/proxy.py:530-762 | over every run from there the law holds in each state passed if and only if every step is one of `Keeps` |
| `SlotLaw.SafeStepsKeepLaw` | agent/app/services/proxy.py:530-762 | a step that keeps the links as well is one of `Keeps` |
| `SlotAnswers.AnswersAre` | agent/app/services/proxy.py:622-667 | the four answers to a reservation request, each with its exact condition over generation, table entry, counter and concurrency, and when a slot is taken |
| `SlotAnswers.RunsStayWithinParallel` | agent/app/services/proxy.py:654-666 | over every run that keeps the counter law neither the counter of a server nor its number of holders exceeds the concurrency its process was started with |
| `SlotAnswers.GrantsIff` | agent/app/services/proxy.py:579-603 | a parked request gets a slot if and only if its process is the one it expects and fewer slots are taken than that concurrency |
| `SlotBreaks.StaleRequestBreaksLaw` | agent/app/services/proxy.py:734-762 | a request of the running process whose operation has ended: one new request and the end of the old one, and the counter no longer counts the new one |
| `SlotBreaks.OverlapAloneKeepsLaw` | agent/app/services/proxy.py:734-762 | in a state of the invariant the same three steps keep the law, so what breaks it below is what came before them |
| `SlotBreaks.StopWindowBreaksLaw` | agent/app/services/llama_server.py:476-492 | the two halves of a stop: for every request that holds a slot of the server, the law is lost at once (an operation-less holder) or by exactly these steps inside the window: one new request, and the end of that one |
| `SlotBreaks.StopWindowExample` | agent/app/services/llama_server.py:476-492 | the concrete run from a state that satisfies the invariant: two streams, one new request, one old end |
| `SlotBreaks.OwnedReleaseBreaksLaw` | agent/app/services/proxy.py:677-716 | a release without a token of a slot that a granted stream still owns keeps the law by itself and loses it by exactly these steps: one new request, and the end of that stream |
| `SlotBreaks.ReusedGenerationBreaksLaw` | agent/app/services/llama_server.py:406-407 | a process installed under the generation of one whose request is still unwinding: the same, or the law is lost at once; the start fence excludes it for positive generations |
| `SlotBreaks.DroppedConfigBreaksLaw` | agent/app/services/llama_server.py:491-496 | a configuration dropped under a request that holds a slot breaks the law at once or when that request ends |
| `SlotBreaks.PendingOperationsSurviveDrop` | agent/app/services/llama_server.py:491-496 | with operations that are only queued, reserved or stranded the drop keeps the law |
| `SlotLeaks.HeaderlessCancelReleasesTwice` | agent/app/api/routes/proxy.py:109-114 | a cancel without a reservation header, on a stream whose slot is granted but not yet resumed, followed by that stream's own release, breaks conservation exactly when another request holds a slot too |
| `SlotLeaks.HeaderlessCancelExample` | agent/app/api/routes/proxy.py:109-114 | a concrete state that satisfies the law: two streams on two slots; the counter ends at 0 while one still runs |
| `SlotLeaks.StepKeepsNoOrphans` | agent/app/services/inference_operations.py:147-160 | every cancelling operation has a running request that will finish it, and a step keeps that if and only if it is not a cancel that lands between the consumption of a reservation and the start of its response |
| `SlotLeaks.OrphanHoldsItsSlot` | agent/app/services/inference_operations.py:163-182 | an operation orphaned that way occupies its slot through every run at all that does not stop its server, whatever it does to other servers and counters |
| `SlotLeaks.CancelDuringHandoffStrands` | agent/app/api/routes/proxy.py:109-115 | a cancel with the right token that meets a consumed, not yet started stream leaves the operation cancelling and its slot occupied through every such run |
| `ServerManagers.ServerManager.OldestFinished` | agent/app/services/inference_operations.py:27-34 | finds the finished operation with the least (finished_at, key) |
| `ServerManagers.ServerManager.StartOperation` | agent/app/services/inference_operations.py:21-46 | registers a request id once and evicts exactly what the retention specification says |
| `ServerManagers.ServerManager.FinishOperation` | agent/app/services/inference_operations.py:53-68 | ends a live operation and leaves a finished one alone |
| `ServerManagers.ServerManager.ReserveOperation` | agent/app/services/inference_operations.py:90-102 | replaces a cancelled, never dispatched operation by a reserved one |
| `ServerManagers.ServerManager.CancelOperation` | agent/app/services/inference_operations.py:147-160 | asks the running request to stop exactly when its operation is queued or active and has one |
| `ServerManagers.ServerManager.StopServerOperations` | agent/app/services/inference_operations.py:163-186 | the loop over the table fails every live operation of that server, wakes its parked requests and drops the counter, and touches no other server |
| `ServerManagers.ServerManager.TryReserveInferenceSlot` | agent/app/services/proxy.py:622-667 | the four answers; a slot is taken only below the process's concurrency, and the entry, its 15 second timer and the counter are written out |
| `ServerManagers.ServerManager.ReleasePendingReservation` | agent/app/services/proxy.py:677-716 | releases exactly a matching unconsumed (or done) reservation and gives one slot back |
| `ServerManagers.ServerManager.ConsumeInferenceSlot` | agent/app/services/proxy.py:718-732 | consumes exactly a reserved operation of that server, generation and token |
| `ServerManagers.ServerManager.EnterSlotQueue` | agent/app/services/proxy.py:555-578 | registers a request without a reservation and parks it |
| `ServerManagers.ServerManager.WaitTurn` | agent/app/services/proxy.py:579-603 | one turn of the wait loop: fail, take a slot below the process's concurrency, or keep waiting |
| `ServerManagers.ServerManager.WaitCancelled` | agent/app/services/proxy.py:605-608 | a cancelled wait finishes its operation and takes no slot |
| `ServerManagers.ServerManager.BindOperationTask` | agent/app/services/inference_operations.py:79-87 | binds only an active operation and stops its timer |
| `ServerManagers.ServerManager.StartReserved` | agent/app/services/proxy.py:151-156 | a reserved request goes on only while its operation is still active, otherwise it ends without releasing |
| `ServerManagers.ServerManager.ResumeStream` | agent/app/services/proxy.py:348-355 | a resumed stream binds its operation or unwinds |
| `ServerManagers.ServerManager.ConnectionFinished` | agent/app/services/proxy.py:734-762 | gives the slot back only to the generation it was taken from, and finishes the operation |
| `ServerManagers.ServerManager.CancelInferenceOperation` | agent/app/api/routes/proxy.py:83-121 | the cancel route: refuse another attempt's token, else release, else ask the request to stop |
| `Reservations.TokenOrigin` | agent/app/services/proxy.py:622-667 | an operation carries a token only from the reservation request that put it there |
| `Reservations.HeldStays` | agent/app/services/proxy.py:622-762 | a reserved attempt is still reserved after every step that neither speaks for it nor stops its server nor is the end of a leftover request under the same id |
| `Reservations.DisturbedIsGone` | agent/app/services/proxy.py:605-608 | conversely a stop of the server, or the end of a leftover request under the same id, takes the reservation away |
| `Reservations.ReserveSpares` | agent/app/services/proxy.py:636-650 | a reservation request replaces another attempt's operation only if that one was cancelled and never dispatched |
| `Reservations.OtherTokensUntouched` | agent/app/services/proxy.py:677-732 | a cancel, an expiry or a dispatch that carries another attempt's token changes nothing under this one |
| `LeaseLifecycle.LeaseStep` | backend/app/services/inference_scheduler.py:1262-1317 | every modelled transaction of backend, handles and agents moves a lease only along queued, reserving, active, terminal (and back from reserving to queued), with the columns each status carries and released_at set exactly on an end |
| `LeaseLifecycle.DbOkStep` | backend/app/services/inference_scheduler.py:1241-1279 | request ids stay unique and a lease never carries a generation its server has not reached |
| `Admission.ClaimSucceedsIff` | backend/app/services/inference_scheduler.py:1005-1070 | who is claimed, in columns alone: the server is running, healthy and not started within 3 s, its generation has a free slot, and the lease is the oldest waiting one of its model that names no other server and no other agent |
| `Admission.PinnedElsewhereIsPassed` | backend/app/services/inference_scheduler.py:1042-1064 | a lease pinned to another server is not claimed here, and however long it waits makes no difference to any other |
| `LeaseRuns.EveryStepIsLegal` | backend/app/services/inference_scheduler.py:1158-1231 | the same over whole runs: a lease appears queued and every later change is an edge of the machine |
| `LeaseRuns.TerminalIsAbsorbing` | backend/app/services/inference_scheduler.py:1262-1279 | a terminal row is never written again, by anyone |
| `LeaseRuns.OneActivationOneEnd` | backend/app/services/inference_scheduler.py:1158-1231 | a lease is activated at most once and terminated at most once, so every end has one winning writer |
| `LeaseRuns.OlderIsServedFirst` | backend/app/services/inference_scheduler.py:1042-1081 | first in, first out: when a younger lease is claimed on a server that an older queued lease fits, the older one is activated before that or never |
| `LeaseRuns.OlderReservationBlocks` | backend/app/services/inference_scheduler.py:1044-1070 | an older open reservation blocks the claim of a younger lease |
| `LeaseRuns.SpentStays` | backend/app/services/inference_scheduler.py:1145-1157 | an expired or ended lease is never activated later |
| `LeaseRuns.GenerationsGrow` | backend/app/services/server_lifecycle.py:18-40 | a server's generation never decreases, in any run |
| `LeaseRuns.AttemptOrigin` | backend/app/services/inference_scheduler.py:1072-1081 | a lease's attempt, server and generation are those of the one claim that made the attempt |
| `LeaseRuns.ActivationsAreCurrent` | backend/app/services/inference_scheduler.py:1145-1165 | a lease is only ever activated at its server's current generation |
| `LeaseRuns.RenewalsAreCurrent` | backend/app/services/inference_scheduler.py:176-201 | a handle only ever renews a lease at its server's current generation |
| `StartFence.StaleMessagesChangeNothing` | backend/app/services/agent_manager.py:483-513 | once a server moved past a generation, a message stamped with it (event, start acknowledgement, failed or lost start, failed or settled stop) changes nothing, however late, if and only if it is not an unlocked write that heeded the older row it had read and still has a column to write; lease rows it never changes |
| `StartFence.LateWriteOnStartingServer` | backend/app/services/server_startup.py:400-464 | what an unlocked write of any age makes of a server just bumped for a start: available, running or failed exactly under tests on the row it had read |
| `StartFence.StaleAnswerHitsNewProcess` | backend/app/services/server_startup.py:400-425 | for every starting server: the answer to the start reads, a forced stop and a new start commit, the answer writes; an acknowledgement puts the next generation into service before its process answered, a failure marks it failed |
| `StartFence.BecomesAvailableIff` | backend/app/services/agent_manager.py:531-585 | a transaction makes an unavailable server available if and only if it is a started or healthy event that matches it, while it is starting or running, or a heeded acknowledgement that writes or meets both columns |
| `StartFence.ServedOnlyWhenAnswered` | backend/app/services/server_startup.py:740-747 | over whole runs: within a generation a server comes into service only by an event or acknowledgement of that generation, or by an acknowledgement of an older one that read before the bump |
| `StartFence.ClaimNeedsAnswer` | backend/app/services/server_startup.py:740-747 | after a bump no lease is claimed on the server under the new generation before one of these |
| `StopFence.StopFencesAndEmpties` | backend/app/services/server_lifecycle.py:54-88 | a stop is refused exactly when it is not forced and a lease is active; otherwise the server is stopping, has no active lease, those it had failed, and nothing else changed |
| `StopFence.EventEmptiesServer` | backend/app/services/agent_manager.py:515-617 | an error, a stop or an unhealthy report of the live process leaves its server unavailable and without active leases, and touches nothing else |
| `StopFence.DownUntilBumped` | backend/app/services/agent_manager.py:563-602 | within a generation a server that is neither starting nor running stays so, whatever commits, unless an acknowledgement that had read it while it was starting writes late |
| `StopFence.StoppedGenerationIsDead` | backend/app/services/server_lifecycle.py:71-88 | from then on, and while no such late write commits, no lease is claimed, finalized or renewed on that server under that generation, in any run |
| `StopFence.OnlyOverlookedStopsRevive` | backend/app/services/server_startup.py:403-417 | a down server comes back within its generation if and only if the transaction is an acknowledgement that read it while it was starting |
| `StopFence.AcknowledgementOverwritesStop` | backend/app/services/server_startup.py:403-425 | for every starting server: acknowledgement reads, a forced stop commits, the acknowledgement writes, and the server is available again under the stopped generation |
| `Occupancy.OccupancyIff` | backend/app/services/inference_scheduler.py:1012-1081 | over every run, reserving plus unexpired active leases of a server's generation stay within its capacity if and only if every transaction is one that `Admits` allows, a test on the database before it |
| `Occupancy.StepKeepsBound` | backend/app/services/inference_scheduler.py:1012-1081 | the same for each transaction: only a renewal, a reconciliation pass, a started event and a late write can break the bound, each exactly when its guard says so; claims, finalizes and all others never do |
| `Occupancy.PassBound` | backend/app/services/inference_scheduler.py:565-663 | a reconciliation pass keeps the bound if and only if the occupants it leaves and the run-out leases it extends fit together |
| `Occupancy.UnansweredPassOverfills` | backend/app/services/inference_scheduler.py:604-616 | a concrete pass with an agent that does not answer, which overfills a server |
| `Occupancy.CapacityBound` | backend/app/services/server_startup.py:403-420 | an acknowledgement or a started event that writes a capacity keeps the bound if and only if the occupants fit the capacity that results |
| `Occupancy.RenewalBound` | backend/app/services/inference_scheduler.py:176-201 | a renewal keeps that bound if and only if the lease had not run out or a slot is still free |
| `Occupancy.LateRenewalOverfills` | backend/app/services/inference_scheduler.py:176-201 | a concrete late renewal that overfills a server |
| `Occupancy.ConfirmedCapacityBound` | backend/app/services/agent_manager.py:563-585 | a started event that confirms a capacity keeps the bound if and only if the occupants still fit |
| `Reconciliation.PassReachesNormalForm` | backend/app/services/inference_scheduler.py:565-720 | after an uninterrupted pass every active lease is unexpired, on a running healthy server, at its current generation, and no queued or reserving lease is overdue |
| `Reconciliation.SecondPassChangesNothing` | backend/app/services/inference_scheduler.py:419-720 | a second pass at the same time changes nothing, whatever the agents answer then |
| `Reconciliation.PassKeepsOrder` | backend/app/services/inference_scheduler.py:565-720 | a database already in that form is left exactly as it is |
| `Reconciliation.DecisionOnSteadyServer` | backend/app/services/inference_scheduler.py:510-663 | for a server that stays running, healthy and in generation the bulk updates equal one decision per lease: untouched when unexpired; extended to now+90 s when live or unanswerable; released, cancelled or failed with the matching reason when the agent says so or no longer lists it |
| `Reconciliation.PassDecides` | backend/app/services/inference_scheduler.py:565-720 | what a whole pass makes of every lease, in columns: overdue, requeued, of a past generation, of an unavailable or missing server, answered for, or untouched, each with its status and reason |
| `Reconciliation.PassStops` | backend/app/services/inference_scheduler.py:675-705 | which servers a pass tells to stop: exactly those starting or unhealthy that an active lease of their generation fails with |
| `Reconciliation.UnansweredIsNeverEnded` | backend/app/services/inference_scheduler.py:484-530 | an expired lease ends if and only if a complete answer of its agent no longer reports it live under its generation |
| `Scheduling.LeaseTables.CountOccupied` | backend/app/services/inference_scheduler.py:1027-1041 | counts exactly the reserving and unexpired active leases of the live generation |
| `Scheduling.LeaseTables.OldestCompatible` | backend/app/services/inference_scheduler.py:1042-1064 | finds the head of the queue the server draws from, or that there is none |
| `Scheduling.LeaseTables.Claim` | backend/app/services/inference_scheduler.py:980-1085 | claims if and only if admission is open, the server is available, settled and has room, and the lease is the queued head; writes status, server, generation, attempt and the 12 second deadline |
| `Scheduling.LeaseTables.Finalize` | backend/app/services/inference_scheduler.py:1129-1166 | activates if and only if server, generation, attempt and both deadlines still match, until now + 90 s |
| `Scheduling.LeaseTables.Cleanup` | backend/app/services/inference_scheduler.py:1202-1232 | ends this attempt's active lease, requeues its reserving one, touches no other attempt |
| `Scheduling.LeaseTables.EnsureQueued` | backend/app/services/inference_scheduler.py:1319-1340 | the three answers and the requeue of an overdue reservation |
| `Scheduling.LeaseTables.FinishQueued` | backend/app/services/inference_scheduler.py:1262-1279 | ends a lease only while it still waits |
| `Scheduling.LeaseTables.QueueRequest` | backend/app/services/inference_scheduler.py:1241-1260 | a request is queued once, under its own deadline |
| `Scheduling.LeaseTables.ClearQueue` | backend/app/services/inference_scheduler.py:1301-1317 | cancels exactly what still waits |
| `Scheduling.LeaseTables.EndActive` | backend/app/services/inference_scheduler.py:243-262 | ends an active lease only under its own generation |
| `Scheduling.LeaseTables.Renew` | backend/app/services/inference_scheduler.py:176-205 | renews until now + 90 s only an active lease on its available server in generation, and reports otherwise that ownership was lost |
| `Scheduling.LeaseTables.RequestServerStop` | backend/app/services/server_lifecycle.py:43-89 | fences the server and fails its active leases, or refuses when it is busy and not forced |
| `Scheduling.LeaseTables.SettleServerStop` | backend/app/services/server_lifecycle.py:114-130 | a stop the agent carried out marks the server stopped only while the same generation is still stopping |
| `Scheduling.LeaseTables.FailServerStop` | backend/app/services/server_lifecycle.py:101-112 | the error branch reads without a lock: what it saw decides, and only the columns it changed are written over whatever is there by then |
| `Scheduling.LeaseTables.ReserveServerStart` | backend/app/services/server_lifecycle.py:18-40 | bumps the generation unless the server is starting, running or stopping |
| `Scheduling.LeaseTables.StartOrJoin` | backend/app/services/server_startup.py:711-747 | under the row lock: refuse a server that is gone, join a startup in progress, refuse an agent that is not online, else bump and start |
| `Scheduling.LeaseTables.DispatchAcknowledged` | backend/app/services/server_startup.py:400-425 | an acknowledgement counts when the row it read was starting or running at the expected generation, and writes only the columns it changed over the row of the commit |
| `Scheduling.LeaseTables.DispatchFailed` | backend/app/services/server_startup.py:426-464 | a lost or failed start response, read and written the same way |
| `Scheduling.LeaseTables.SetServerStatus` | backend/app/services/server_startup.py:532-541 | a status written by an initialization or a benchmark, read and written the same way |
| `Scheduling.LeaseTables.BumpForInitialization` | backend/app/services/server_startup.py:516-530 | bumps the generation under the row lock and leaves status and health |
| `Scheduling.LeaseTables.MarkAgentServersUnavailable` | backend/app/services/agent_manager.py:337-360 | the servers of an unreachable agent are stopped and the loop fails exactly their active leases |
| `Scheduling.LeaseTables.HandleServerEvent` | backend/app/services/agent_manager.py:483-617 | each of the four server events: ignored when stale or foreign, else the row and lease changes it makes |
| `Scheduling.LeaseTables.ReconcileWriting` | backend/app/services/inference_scheduler.py:565-720 | the bulk updates and the loop over unavailable servers together equal the per-lease decision and the stop fence |
| `Scheduling.LeaseTables.ReconcileStaleLeases` | backend/app/services/inference_scheduler.py:419-720 | a whole pass equals that decision on what it read |
| `TwoPartySafety.InvStep` | backend/app/services/inference_scheduler.py:980-1239 | every step of the protocol keeps the joint invariant of database, agents, claims and messages: messages lost, delayed or reordered, agents taking any step of their own, finalizes abandoned by a second cancellation |
| `TwoPartySafety.DeliveriesAreFresh` | agent/app/services/inference_operations.py:105-121 | a dispatch is consumed for the first time, and a reservation request takes its slot once |
| `TwoPartyTheorems.Reachable` | backend/app/services/inference_scheduler.py:980-1239 | the joint invariant holds in every world of every run |
| `TwoPartyTheorems.ConsumptionFollowsFinalize` | agent/app/api/routes/proxy.py:224-234 | dispatch authority: an agent consumes a reservation only if the backend's finalize of that same attempt had committed, and the operation it consumes is that attempt's |
| `TwoPartyTheorems.RequestConsumedOnce` | agent/app/services/inference_operations.py:105-121 | each request is consumed at most once over all its attempts and all agents |
| `CrossHostTiming.FinalizedSlotIsHeldIff` | backend/app/services/inference_scheduler.py:30-32 | cross-host timing: when a finalize commits, the agent still holds exactly that attempt as reserved if and only if since accepting it neither stopped that server nor ended an older request under the same id nor, for a finalize abandoned by its call, received its cancel; this is where 12 s against 15 s matters |
| `LeftoverRequest.OldRequestTakesReservation` | agent/app/services/proxy.py:734-762 | a concrete run without any stop: a stream under the same id is cancelled without a header, the attempt is accepted, the old stream ends and takes the reservation with it, the finalize commits |
| `TwoPartyTheorems.EarlierAttemptChangesNothing` | backend/app/services/inference_scheduler.py:1189-1232 | no ABA: whatever an attempt does after its claim, however late (its reservation request included), no lease row of another attempt changes, and no agent operation of another attempt does, except that the request takes the place of a cancelled, never dispatched one and retention may drop one that is over |
| `TwoPartyTheorems.GivenUpIsUndone` | backend/app/services/inference_scheduler.py:1189-1239 | nothing of an attempt that is given up stays: its cleanup takes the lease from it, its cancel or its timer the reservation |
| `TwoPartyTheorems.FinalizedAttemptIsServed` | backend/app/services/inference_scheduler.py:1158-1183 | one that is finalized in time, handed over and dispatched while its agent still holds the reservation becomes an active, dispatched operation with a request of its own |
| `TwoPartyTheorems.AgentConservesIff` | agent/app/services/proxy.py:530-762 | slots under the protocol: an agent's counters equal its holders throughout a run if and only if every step it takes, on messages, timers and its own, is one of `Keeps` |
| `Acquire.ForeignLeaves` | backend/app/services/inference_scheduler.py:1287-1317 | transactions of others end or requeue a waiting lease, or leave it; they never claim or activate it |
| `Acquire.StepIsTransaction` | backend/app/services/inference_scheduler.py:1342-1468 | every step of a call is one transaction of the lease machine, or touches no row |
| `Acquire.OkStep` | backend/app/services/inference_scheduler.py:1356-1468 | what the lease row may look like at each point of the call, kept by every step of the call, of others, of the client, of errors before or after their transaction committed, and of any number of cancellations, including those that leave a finalize or a handler's transaction running |
| `AcquireExits.LeaksExactlyWhenCutShort` | backend/app/services/inference_scheduler.py:1461-1468 | a call that raises leaves a live lease behind if and only if its teardown was cut short (while it waited for the disconnect monitor after a successful claim, or after a handler that was itself interrupted) or an abandoned finalize committed inside its undo |
| `AcquireExits.LeaksIffNeverEndedItself` | backend/app/services/inference_scheduler.py:1373-1468 | when nobody else ends the lease, a call that raised leaks it if and only if such a finalize slipped in or none of the call's own ending writes committed |
| `AcquireExits.AbandonedFinalizeStrays` | backend/app/services/inference_scheduler.py:1168-1232 | in every state where a claim is finalized and was cancelled once, a second cancellation and the finalize committing between the two statements of the undo leave the lease active |
| `AcquireExits.BodyInterruptionsNeverLeak` | backend/app/services/inference_scheduler.py:1373-1468 | however often the call is cancelled, disconnected, cleared or failed at any await, once it has exited its lease is terminal unless its handle was returned, provided no handler was left before its transaction committed, the teardown was not interrupted with the handle claimed, and no abandoned finalize commits between the two statements of an undo |
| `AcquireExits.ReturnedHandleWasActivated` | backend/app/services/inference_scheduler.py:1168-1183 | a returned handle names the attempt this call finalized, and its lease was activated as that attempt |
| `AcquireExits.WritesAre` | backend/app/services/inference_scheduler.py:1434-1468 | the status and reason each way of ending leaves on a waiting lease, or on an active one whose client is gone |
| `AcquireExits.RaisesIff` | backend/app/services/inference_scheduler.py:1370-1433 | which exception a call raises and exactly what for: what surfaced, a passed deadline, a client seen gone before or after the claim, a lease that was ended |
| `AcquireExits.InterruptedCallRaises` | backend/app/services/inference_scheduler.py:1436-1460 | no cancellation or error is swallowed: a call interrupted anywhere ends by raising what surfaced last |
| `AcquireExits.ExitsThroughTeardown` | backend/app/services/inference_scheduler.py:1461-1468 | a call that raises has tried to end its lease in its teardown, unless that was interrupted |
| `AcquireExits.HandleOnlyWhileConnected` | backend/app/services/inference_scheduler.py:1395-1406 | a handle is handed over only for a committed, uninterrupted finalize to a client that has not gone away |
| `AcquireExits.MonitorWrites` | backend/app/services/inference_scheduler.py:1287-1300 | the disconnect monitor cancels the lease if it still waits, and only then |
| `AcquireExits.NeverWaitsForOwnReservation` | backend/app/services/inference_scheduler.py:1319-1340 | `_ensure_queued` never answers "not yet" to the call that owns the lease |
| `AcquireExits.TeardownCancellationLeaks` | backend/app/services/inference_scheduler.py:1461-1464 | a concrete run in which one cancellation in the teardown drops an active lease |
| `MakeRoom.Fleet.FindCandidates` | backend/app/services/inference_scheduler.py:833-856 | exactly the running servers on the target's host and, when it has one, its GPU, in query order |
| `MakeRoom.Fleet.FirstIdle` | backend/app/services/inference_scheduler.py:866-869 | the first candidate without unexpired active leases |
| `MakeRoom.Fleet.StopIdle` | backend/app/services/inference_scheduler.py:805-815 | stops a server unless any active lease is left, expired or not |
| `MakeRoom.Fleet.MakeRoom` | backend/app/services/inference_scheduler.py:817-877 | the polling loop equals its poll-by-poll specification |
| `MakeRoom.EvictsShortestPrefix` | backend/app/services/inference_scheduler.py:817-877 | exactly the shortest prefix of the least recently used idle servers after which the target fits is stopped; it stops short only at the deadline or in front of a server it takes for idle but may not stop |
| `MakeRoom.EvictRemoves` | backend/app/services/inference_scheduler.py:866-874 | exactly those servers are gone, every other one is untouched |
| `MakeRoom.EvictsLeastRecentlyUsed` | backend/app/services/inference_scheduler.py:842-845 | an evicted server was used before every idle one that stays |
| `MakeRoom.BusyServersStay` | backend/app/services/inference_scheduler.py:833-869 | no server with active leases, on another host or on another GPU is ever stopped, whatever the outcome |
| `MakeRoom.FitsBesideTheRest` | backend/app/services/inference_scheduler.py:857-865 | the memory tested is that of the servers on the target's own host and GPU: a target that got its room fits beside what is left there, and where it fits from the start nothing is stopped |
| `MakeRoom.FitsIffStoppableSuffice` | backend/app/services/inference_scheduler.py:817-877 | given time the target gets its room if and only if the stoppable idle servers suffice; without expired-but-active leases, if and only if all idle ones do |
| `MakeRoom.NoTelemetryNoEviction` | backend/app/services/inference_scheduler.py:859-861 | without telemetry nothing is stopped and the wait times out |
| `MakeRoom.ExpiredLeaseStarves` | backend/app/services/inference_scheduler.py:791-803 | a concrete fleet in which an expired lease on the first idle server blocks an eviction that would do |
| `ProcessFence.ProcessTable.BeginStart` | agent/app/services/llama_server.py:264-269 | refuse a generation that is not newer than the recorded one, else replace it or go on |
| `ProcessFence.ProcessTable.SpawnLocked` | agent/app/services/llama_server.py:271-275 | spawns if and only if the generation is not fenced and the process can be started |
| `ProcessFence.ProcessTable.FailStart` | agent/app/services/llama_server.py:437-449 | a failed start forgets and kills whatever process is recorded |
| `ProcessFence.ProcessTable.BeginStop` | agent/app/services/llama_server.py:464-472 | a stop that names another generation finds nothing to stop |
| `ProcessFence.ProcessTable.EndStop` | agent/app/services/llama_server.py:491-499 | the end of a stop forgets whatever process is recorded |
| `ProcessFence.LaunchedGenerationsIncrease` | agent/app/services/llama_server.py:271-275 | for any order, delay or repetition of starts and stops the positive generations launched for a server strictly increase, and no unfenced one follows a positive one |
| `ProcessFence.FailedStartBurnsIffSpawned` | agent/app/services/llama_server.py:405-449 | a failed start burns its generation if and only if a process had been spawned for it |
| `ProcessFence.TrackedStep` | agent/app/services/llama_server.py:464-499 | a step loses track of a running process if and only if it overwrites or drops the record of one |
| `ProcessFence.OneLiveProcess` | agent/app/services/llama_server.py:260-278 | while no step does that, a server has at most one live process, the recorded one |
| `ProcessFence.OverlappingStopsLoseAProcess` | agent/app/services/llama_server.py:464-499 | a concrete run of two overlapping stops and a start that ends with two live processes of one server |
| `Health.HealthMonitor.RecordCheck` | agent/app/services/llama_server.py:122-143 | the dictionaries, the healthy set and the published event after one check |
| `Health.HealthMonitor.Check` | agent/app/services/llama_server.py:116-143 | after any history of checks the dictionaries are what the history says, the healthy set agrees with the recorded status, and what was published are its transitions |
| `Health.HealthMonitor.StartSucceeded` | agent/app/services/llama_server.py:412-416 | a start that reaches health resets the record |
| `Health.HealthMonitor.Remove` | agent/app/services/llama_server.py:165-178 | removal forgets the record |
| `Health.UnhealthyIffDown` | agent/app/services/llama_server.py:116-144 | a server is recorded as unhealthy if and only if some three consecutive failures since its last start or removal have not since been followed by two consecutive successes |
| `Health.RepeatsOnlyAfterReset` | agent/app/services/llama_server.py:132-144 | published transitions alternate, first to unhealthy, except that an unhealthy server that was started or removed since may be announced unhealthy again: exactly then a transition repeats the one before |
| `Health.AlternatesWithinOneStart` | agent/app/services/llama_server.py:132-144 | between one start and the next, transitions strictly alternate |
| `LogRing.CursorLogRing.FirstCursor` | agent/app/services/log_buffers.py:38-41 | the number of the oldest retained line |
| `LogRing.CursorLogRing.Append` | agent/app/services/log_buffers.py:51-57 | the log grows by the next number and the ring keeps exactly its newest lines |
| `LogRing.CursorLogRing.Extend` | agent/app/services/log_buffers.py:59-61 | the non-blank lines of a chunk, numbered consecutively |
| `LogRing.ChunksJoin` | agent/app/services/log_buffers.py:59-61 | a line is numbered if and only if it is not blank, however the output was cut into chunks |
| `LogRing.CursorLogRing.After` | agent/app/services/log_buffers.py:63-71 | the retained lines from the cursor on, capped; a gap if and only if the cursor lies before the oldest retained line |
| `LogRing.CursorLogRing.Tail` | agent/app/services/log_buffers.py:73-76 | the newest retained lines |
| `LogRing.GetServerLogs` | agent/app/services/llama_server.py:609-656 | the cursor reply is the one the log prescribes; the bootstrap reply ends at the end of the log |
| `LogRing.ReplySpan` | agent/app/services/llama_server.py:635-645 | where a reply starts and ends, and where it sends the client next |
| `LogRing.PollsAreFaithful` | agent/app/services/llama_server.py:635-645 | chained polls refine the log: each line between the first and last cursor is delivered once and in order, except exactly those evicted before their turn |
| `LogRing.NoGapNoLoss` | agent/app/services/log_buffers.py:63-71 | without a flagged gap the replies concatenate to exactly that segment of the log |
| `LogRing.GapIffLoss` | agent/app/services/log_buffers.py:63-71 | over any chain of polls: no reply flags a gap if and only if the client was given every line between where it began and its cursor |
| `LogRing.PollsCatchUp` | agent/app/services/log_buffers.py:63-71 | despite the 500-line cap, n polls without new lines advance by 500 n up to the end of the log |
| `LogFeed.ToLines` | frontend/src/hook/logMerge.ts:15-24 | numbers given by the entry, else counted from the start |
| `LogFeed.PayloadsAreRead` | frontend/src/hook/logMerge.ts:75-98 | which member of a payload is read, and how plain streams are numbered |
| `LogFeed.Zip` | frontend/src/hook/logMerge.ts:49-63 | the first loop of unionLines, with the rest of both inputs still to come |
| `LogFeed.UnionLines` | frontend/src/hook/logMerge.ts:49-67 | the loops yield the last 2000 lines of the union |
| `LogFeed.UnionIsSortedUnion` | frontend/src/hook/logMerge.ts:44-67 | for ascending inputs that union is the one sorted union without duplicates, and no other answer fits |
| `VisibleFeed.LogFeedRefs.Refetched` | frontend/src/hook/useLogFeed.ts:73-113 | a bootstrap or a poll reply applied to the refs |
| `VisibleFeed.LogFeedRefs.OnEvents` | frontend/src/hook/useLogFeed.ts:137-166 | a live batch applied to the refs; it asks for a poll if and only if some event begins past the cursor reached by then on a bootstrapped feed |
| `VisibleFeed.AlwaysOrderly` | frontend/src/hook/useLogFeed.ts:73-166 | for any interleaving of bootstraps, polls, live batches and resets the tail is strictly ascending and below the cursor |
| `FeedAgreement.RepliesRoundTrip` | frontend/src/hook/logMerge.ts:75-98 | a cursor reply is read back exactly as it was sent |
| `FeedAgreement.EventsRoundTrip` | frontend/src/hook/useLogFeed.ts:152-160 | the unnumbered lines of a live event get back the numbers they have in the log |
| `FeedAgreement.LiveNeverLeavesHole` | frontend/src/hook/useLogFeed.ts:147-164 | once bootstrapped, a live event of any stretch of the log never leaves a hole in the tail |
| `FeedAgreement.BatchKeepsUpOrAsks` | frontend/src/hook/useLogFeed.ts:147-164 | a batch of stretches of the log asks for a poll if and only if one of them was dropped for beginning past the cursor; if it does not ask, the cursor is past the end of every one |
| `FeedAgreement.PollLeavesHoleIff` | frontend/src/hook/useLogFeed.ts:89-109 | a poll reply leaves a hole if and only if it brings new lines that begin past the cursor it meets, with lines above it |
| `FeedAgreement.StaleReplyDropsNewestIff` | frontend/src/hook/useLogFeed.ts:95-99 | a reply to the same feed is mistaken for a restarted one, dropping the newest visible line, if and only if live lines moved the cursor past its end |
| `FeedAgreement.OverlappingPollsLoseLines` | frontend/src/hook/useLogFeed.ts:89-109 | two overlapping polls with live lines in between lose lines although no reply flags a gap |
| `FeedAgreement.OpenedMirrors` | frontend/src/hook/useLogFeed.ts:77-87 | a feed that adopts the retained tail shows exactly it |
| `FeedAgreement.TailMirrorsLog` | frontend/src/hook/useLogFeed.ts:73-166 | after any timely replies and any live events, lost, repeated or reordered, the tail is exactly the last 2000 lines of the log from where the feed began up to its cursor, which never goes back |

## Left out

- HTTP, WebSocket and SSE bytes, retries, subprocess handling and downloads: only accepted or
  refused, lost or delayed, and completed, failed or cancelled are modelled.
- asyncio internals: how a cancellation is delivered, the wedging of the disconnect monitor and
  its two-second bound. A cancellation that lands while a shielded undo is already awaited for
  the second time (backend/app/services/inference_scheduler.py:1234-1239) is outside the model.
- `acquire` and the two-party protocol are modelled on values, as step relations, because what
  matters there is the interleaving with other actors; the transactions and agent blocks they
  are made of are proved on mutable tables in `Scheduling` and `ServerManagers`.
- Acquire.OkStep: does not model `_prepare_target` beyond "it may take any time and raise";
  `MakeRoom` models its eviction loop, and the advisory lock around it is left out.
- MakeRoom.Fleet.MakeRoom: the fleet is closed while it runs; a stop that the agent refuses
  raises out of the loop and is not modelled.
- Scheduling.LeaseTables.RequestServerStop: the call to the agent between its two transactions
  is the environment's: SettleServerStop follows a stop that was carried out, FailServerStop one
  that raised.
- Scheduling.LeaseTables.FailServerStop: the error it raises after its write is not modelled.
- Scheduling.LeaseTables.DispatchAcknowledged: the ports a start answers with, which only edit the
  server's configuration, are not modelled.
- The snapshot an agent sends when it registers (backend/app/services/agent_manager.py:99-189):
  it may set a server back to running from any status, so it does not keep a stop fence.
- Agent restarts: all agent-side fencing state is in memory.
- Deletion of servers, agents or models, whose foreign keys null columns of lease rows; database
  errors in the shielded undo of a claim and in the `cancel` of a handle.
- Benchmark admission beyond a flag, advisory locks, metrics, token statistics, pins and aliases,
  the other platform managers (halogen, gufo, halogen-flash), command lines and option checks.
- Contiguity of the feed while its bootstrap is in flight, replies that outlive a change of
  feed, and a ring restarted under the same id: the frontend does not guarantee them.
- LogRing.GetServerLogs: draining the pipes before log forwarding started, and the per-stream
  copies of the lines in a reply, are not modelled.
- Health.HealthMonitor.Check: the error text and failure count an event carries are not modelled.
