/**
 * A run in which nobody stops the server, and yet the reservation of a finalized attempt is gone: a
 * stream under the same id was cancelled without a header and ended after the reservation was made.
 */
module LeftoverRequest {
  import opened Common
  import opened Operations
  import opened Leases
  import opened TwoParty
  import opened TwoPartyTheorems
  import opened CrossHostTiming
  import Ledger = SlotLedger
  import Reservations

  // Server 1 of agent 1 has one slot, lease 2 waits for it under request id 7.
  const ROW := ServerRow(0, 1, Running, Healthy, 1, 1, None)
  const WAITING := Lease(7, 0, None, None, 0, 600_000, Queued, None, None, None, None, None, None, None)
  const RESERVED := WAITING.(status := Reserving, server := Some(1), generation := Some(1), attempt := Some(5),
                             reservationExpires := Some(RESERVATION_RECOVERY))
  const ACTIVATED := RESERVED.(status := Active, startedAt := Some(0), expiresAt := ACTIVE_LEASE_TTL, reservationExpires := None)
  const CLAIM := ClaimRecord(2, 7, 1, 1, 1, 0, Asking)

  // A stream that came without a lease, under the same id; then the reservation of attempt 5.
  const STREAM := Operation(1, 1, OpQueued, None, false, Some(0), None, 0)
  const HELD := Operation(1, 1, OpReserved, Some(5), false, None, Some(RESERVATION_TTL), 0)
  const PARKED := Ledger.Task(1, Some(7), 0, None, true, Ledger.Waiting)
  const GRANTED := PARKED.(generation := 1, phase := Ledger.Granted)

  function Serving(op: Operation, count: nat, tasks: map<TaskId, Ledger.Task>): Ledger.Agent {
    Ledger.Agent(map[1 := Ledger.Config(1, 1)], if count > 0 then map[1 := count] else map[], map[7 := op], tasks, 1)
  }

  // The agent, the lease and the attempt before step k.
  function AgentBefore(k: nat): Ledger.Agent {
    match k
    case 0 => Ledger.EmptyAgent
    case 1 => Ledger.EmptyAgent.(configs := map[1 := Ledger.Config(1, 1)])
    case 2 => Serving(STREAM, 0, map[0 := PARKED])
    case 3 => Serving(STREAM.(status := OpActive), 1, map[0 := GRANTED])
    case 4 => Serving(STREAM.(status := OpCancelled, task := None), 0, map[0 := GRANTED])
    case 5 => Serving(STREAM.(status := OpCancelled, task := None), 0, map[0 := GRANTED])
    case 6 => Serving(HELD, 1, map[0 := GRANTED])
    case 7 => Serving(HELD, 1, map[0 := GRANTED])
    case _ => Serving(HELD.(status := OpCancelled, timer := None), 0, map[])
  }

  function PhaseBefore(k: nat): Phase {
    if k < 7 then Asking else if k < 9 then Confirmed else Committed
  }

  function WorldBefore(k: nat): World {
    World(0, if k < 5 then QUEUE else if k < 9 then CLAIMED else SERVED, map[1 := AgentBefore(k)],
          if k < 5 then map[] else map[5 := CLAIM.(phase := PhaseBefore(k))], {},
          if k == 5 then {5} else {}, if k < 6 then {} else {5}, {}, {},
          if k < 6 then map[] else map[5 := 0], if k < 8 then {} else {5}, {}, if k < 9 then {} else {5}, [])
  }

  function Scripted(k: nat): Step {
    match k
    case 0 => AgentStep(1, Ledger.Install(1, Ledger.Config(1, 1)))
    case 1 => AgentStep(1, Ledger.Enqueue(1, Some(7), None, true))
    case 2 => AgentStep(1, Ledger.Grant(0, 0))
    case 3 => AgentStep(1, Ledger.Cancel(1, 7, None, 0))
    case 4 => ClaimLease(2, 1, 5, 0)
    case 5 => DeliverReserve(5)
    case 6 => HearAccepted(5)
    case 7 => AgentStep(1, Ledger.Finish(0, OpCancelled, 0))
    case _ => TryFinalize(5)
  }

  lemma SmallTable(ops: Table, r: RequestId, op: Operation)
    requires |ops| <= 1
    ensures StartOperation(ops, r, op) == ops[r := op]
  {}

  lemma StreamIsParked()
    ensures Ledger.Apply(AgentBefore(1), Ledger.Enqueue(1, Some(7), None, true)) == AgentBefore(2)
  {
    SmallTable(map[], 7, STREAM);
  }

  lemma StreamIsGranted()
    ensures Ledger.Apply(AgentBefore(2), Ledger.Grant(0, 0)) == AgentBefore(3)
  {}

  lemma StreamIsCancelled()
    ensures Ledger.Apply(AgentBefore(3), Ledger.Cancel(1, 7, None, 0)) == AgentBefore(4)
  {}

  lemma AttemptIsReserved()
    ensures Ledger.TakesSlot(AgentBefore(5), 1, 7, 1, 5)
    ensures Ledger.Apply(AgentBefore(5), Ledger.Reserve(1, 7, 1, 5, 0)) == AgentBefore(6)
  {
    assert AgentBefore(5).ops - {7} == map[];
    SmallTable(map[], 7, HELD);
  }

  lemma StreamEnds()
    ensures Ledger.Apply(AgentBefore(7), Ledger.Finish(0, OpCancelled, 0)) == AgentBefore(8)
    ensures Reservations.EndsRequest(AgentBefore(7), Ledger.Finish(0, OpCancelled, 0), 7)
  {}

  // A step of the agent before any attempt was accepted.
  lemma EarlyStep(k: nat, e: Ledger.Event)
    requires k < 4 && Scripted(k) == AgentStep(1, e) && Ledger.Apply(AgentBefore(k), e) == AgentBefore(k + 1)
    ensures Can(WorldBefore(k), Scripted(k)) && Next(WorldBefore(k), Scripted(k)) == WorldBefore(k + 1)
  {
    assert DisturbedBy(WorldBefore(k), 1, e) == {};
    assert WorldBefore(k).agents[1 := AgentBefore(k + 1)] == WorldBefore(k + 1).agents;
  }

  const QUEUE := Db(map[2 := WAITING], map[1 := ROW])
  const CLAIMED := Db(map[2 := RESERVED], map[1 := ROW])
  const SERVED := Db(map[2 := ACTIVATED], map[1 := ROW])

  lemma QueueHeadIsClaimed()
    ensures Claimable(QUEUE, 2, 1, 0) && Claim(QUEUE, 2, 1, 5, 0) == CLAIMED
  {
    assert Occupants(QUEUE, 1, 0) == {};
    assert IsHead(QUEUE, 1, 2, 0);
  }

  lemma ClaimIsFinalized()
    ensures Finalizable(CLAIMED, 2, 1, 1, 5, 0) && Finalize(CLAIMED, 2, 1, 1, 5, 0) == SERVED
  {}

  lemma LeaseIsClaimed()
    ensures Can(WorldBefore(4), Scripted(4)) && Next(WorldBefore(4), Scripted(4)) == WorldBefore(5)
  {
    QueueHeadIsClaimed();
  }

  lemma RequestIsDelivered()
    ensures Can(WorldBefore(5), Scripted(5)) && Next(WorldBefore(5), Scripted(5)) == WorldBefore(6)
  {
    AttemptIsReserved();
    assert Answer(WorldBefore(5), 5).Accepted?;
    assert WorldBefore(5).agents[1 := AgentBefore(6)] == WorldBefore(6).agents;
  }

  lemma AnswerIsHeard()
    ensures Can(WorldBefore(6), Scripted(6)) && Next(WorldBefore(6), Scripted(6)) == WorldBefore(7)
  {}

  lemma StreamTakesReservation()
    ensures Can(WorldBefore(7), Scripted(7)) && Next(WorldBefore(7), Scripted(7)) == WorldBefore(8)
  {
    StreamEnds();
    assert DisturbedBy(WorldBefore(7), 1, Ledger.Finish(0, OpCancelled, 0)) == {5};
    assert WorldBefore(7).agents[1 := AgentBefore(8)] == WorldBefore(8).agents;
  }

  lemma StreamDisturbs(run: Run)
    requires |run.worlds| == |run.steps| + 1 && |run.steps| == 9
    requires run.worlds[7] == WorldBefore(7) && run.steps[7] == Scripted(7)
    ensures DisturbedAt(run, 7, 5)
  {
    StreamEnds();
  }

  lemma FinalizeCommits()
    ensures Can(WorldBefore(8), Scripted(8)) && Next(WorldBefore(8), Scripted(8)) == WorldBefore(9)
    ensures Finalizable(WorldBefore(8).db, 2, 1, 1, 5, 0) && !Held(WorldBefore(8), 5)
  {
    ClaimIsFinalized();
  }

  lemma PlaysAsScripted(k: nat)
    requires k < 9
    ensures Can(WorldBefore(k), Scripted(k)) && Next(WorldBefore(k), Scripted(k)) == WorldBefore(k + 1)
  {
    match k
    case 0 => EarlyStep(0, Scripted(0).e);
    case 1 => StreamIsParked(); EarlyStep(1, Scripted(1).e);
    case 2 => StreamIsGranted(); EarlyStep(2, Scripted(2).e);
    case 3 => StreamIsCancelled(); EarlyStep(3, Scripted(3).e);
    case 4 => LeaseIsClaimed();
    case 5 => RequestIsDelivered();
    case 6 => AnswerIsHeard();
    case 7 => StreamTakesReservation();
    case _ => FinalizeCommits();
  }

  lemma PlayStarts()
    ensures Initial(WorldBefore(0))
  {}

  lemma PlayedIsValid(run: Run)
    requires |run.worlds| == 10 && |run.steps| == 9
    requires forall k {:trigger run.worlds[k]} | 0 <= k < 10 :: run.worlds[k] == WorldBefore(k)
    requires forall k {:trigger run.steps[k]} | 0 <= k < 9 :: run.steps[k] == Scripted(k)
    ensures Valid(run)
  {
    PlayStarts();
    forall i | 0 <= i < 9
      ensures Can(run.worlds[i], run.steps[i]) && run.worlds[i + 1] == Next(run.worlds[i], run.steps[i])
    {
      PlaysAsScripted(i);
    }
  }

  /** The finalize commits, the server was never stopped, and the agent no longer holds the reservation. */
  lemma OldRequestTakesReservation() returns (run: Run)
    ensures Valid(run) && |run.steps| == 9 && forall k: nat | k < 9 :: run.steps[k] == Scripted(k)
    ensures DisturbedAt(run, 7, 5) && CommittedAt(run, 8, 5) && !Held(run.worlds[8], 5)
  {
    run := Run(seq(10, k requires 0 <= k < 10 => WorldBefore(k)), seq(9, k requires 0 <= k < 9 => Scripted(k)));
    PlayedIsValid(run);
    FinalizeCommits();
    StreamDisturbs(run);
  }
}
