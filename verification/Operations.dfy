/**
 * The agent's in-memory operation table (inference_operations.py), as values.
 * Only the functions that change the table alone live here; the slot counter
 * and the request tasks are added by SlotLedger.
 */
module Operations {
  import opened Common

  const MAX_RETAINED_OPERATIONS := 4096

  datatype OpStatus =
    | OpQueued | OpReserved | OpActive | OpCancelling
    | OpCompleted | OpCancelled | OpFailed

  datatype Operation = Operation(
    server: ServerId,
    generation: int,
    status: OpStatus,
    token: Option<Attempt>,      // reservation_id; None for plainly queued work
    dispatched: bool,
    task: Option<TaskId>,
    timer: Option<Time>,         // when expiry_task wakes
    finishedAt: Time)
  {
    predicate Live() {
      status in {OpQueued, OpReserved, OpActive, OpCancelling}
    }
  }

  type Table = map<RequestId, Operation>

  function Finished(ops: Table): set<RequestId> {
    set r | r in ops && !ops[r].Live()
  }

  lemma FinishedIs(ops: Table)
    ensures Finished(ops) == set r | r in ops && ops[r].status in {OpCompleted, OpCancelled, OpFailed}
  {
    forall r | r in ops
      ensures !ops[r].Live() <==> ops[r].status in {OpCompleted, OpCancelled, OpFailed}
    {
      match ops[r].status
      case OpQueued =>
      case OpReserved =>
      case OpActive =>
      case OpCancelling =>
      case OpCompleted =>
      case OpCancelled =>
      case OpFailed =>
    }
  }

  // Order in which retention drops finished operations: (finished_at, key).
  predicate Before(ops: Table, x: RequestId, y: RequestId)
    requires x in ops && y in ops
  {
    ops[x].finishedAt < ops[y].finishedAt || (ops[x].finishedAt == ops[y].finishedAt && x < y)
  }

  predicate IsOldest(ops: Table, k: RequestId) {
    k in Finished(ops) && forall r | r in Finished(ops) && r != k :: Before(ops, k, r)
  }

  lemma {:induction false} OldestAmong(ops: Table, s: set<RequestId>) returns (k: RequestId)
    requires s != {} && s <= Finished(ops)
    ensures k in s && forall r | r in s && r != k :: Before(ops, k, r)
    decreases |s|
  {
    var c :| c in s;
    k := c;
    if s != {c} {
      var m := OldestAmong(ops, s - {c});
      k := if Before(ops, m, c) then m else c;
      forall r | r in s && r != k
        ensures Before(ops, k, r)
      {
        assert r == c || r == m || Before(ops, m, r);
      }
    }
  }

  lemma OldestExists(ops: Table)
    requires Finished(ops) != {}
    ensures exists k :: IsOldest(ops, k)
  {
    var k := OldestAmong(ops, Finished(ops));
    assert IsOldest(ops, k);
  }

  ghost function OldestOf(ops: Table): (k: RequestId)
    requires Finished(ops) != {}
    ensures IsOldest(ops, k)
  {
    OldestExists(ops);
    var k :| IsOldest(ops, k);
    k
  }

  // What start_operation keeps after deleting the n oldest finished operations.
  ghost function EvictOldest(ops: Table, n: nat): Table
    decreases n
  {
    if n == 0 || Finished(ops) == {} then ops
    else EvictOldest(ops - {OldestOf(ops)}, n - 1)
  }

  function Surplus(ops: Table): nat {
    if |ops| >= MAX_RETAINED_OPERATIONS then |ops| - MAX_RETAINED_OPERATIONS + 1 else 0
  }

  ghost function Evicted(ops: Table): Table {
    EvictOldest(ops, Surplus(ops))
  }

  lemma {:induction false} LiveSurvives(ops: Table, n: nat)
    ensures EvictOldest(ops, n).Keys <= ops.Keys
    ensures forall r | r in EvictOldest(ops, n) :: EvictOldest(ops, n)[r] == ops[r]
    ensures forall r | r in ops && ops[r].Live() :: r in EvictOldest(ops, n)
    ensures |EvictOldest(ops, n)| == |ops| - (if n < |Finished(ops)| then n else |Finished(ops)|)
    decreases n
  {
    if n == 0 {
    } else if Finished(ops) == {} {
    } else {
      var k := OldestOf(ops);
      var rest := ops - {k};
      LiveSurvives(rest, n - 1);
      assert Finished(rest) == Finished(ops) - {k};
      assert rest.Keys == ops.Keys - {k};
      assert |rest.Keys| == |rest| && |ops.Keys| == |ops|;
    }
  }

  // Retention keeps every live operation and changes none, and drops as many finished
  // ones as it needs (or all of them).
  lemma EvictionKeepsLive(ops: Table, n: nat)
    ensures forall r | r in EvictOldest(ops, n) :: r in ops && EvictOldest(ops, n)[r] == ops[r]
    ensures forall r | r in ops && ops[r].status in {OpQueued, OpReserved, OpActive, OpCancelling} :: r in EvictOldest(ops, n)
    ensures var over := set r | r in ops && ops[r].status in {OpCompleted, OpCancelled, OpFailed};
            |EvictOldest(ops, n)| == |ops| - (if n < |over| then n else |over|)
  {
    LiveSurvives(ops, n);
    FinishedIs(ops);
  }

  lemma EvictionKeeps(ops: Table, n: nat, r: RequestId)
    ensures r in EvictOldest(ops, n) ==> r in ops && EvictOldest(ops, n)[r] == ops[r]
    ensures r in ops && ops[r].Live() ==> r in EvictOldest(ops, n)
  {
    LiveSurvives(ops, n);
  }

  // Whatever retention drops is older than every finished operation it keeps.
  lemma {:induction false} EvictionIsOldestFirst(ops: Table, n: nat, x: RequestId, y: RequestId)
    requires x in ops && x !in EvictOldest(ops, n)
    requires y in EvictOldest(ops, n) && y in ops && ops[y].status in {OpCompleted, OpCancelled, OpFailed}
    ensures ops[x].status in {OpCompleted, OpCancelled, OpFailed}
    ensures ops[x].finishedAt < ops[y].finishedAt || (ops[x].finishedAt == ops[y].finishedAt && x < y)
    decreases n
  {
    if n != 0 && Finished(ops) != {} {
      var k := OldestOf(ops);
      var rest := ops - {k};
      EvictionKeeps(rest, n - 1, y);
      FinishedIs(ops);
      assert k in Finished(ops) && y in Finished(ops);
      if x != k {
        assert x in rest && rest[x] == ops[x];
        EvictionIsOldestFirst(rest, n - 1, x, y);
      }
    }
  }

  lemma EvictedKeepsLive(ops: Table)
    ensures Evicted(ops).Keys <= ops.Keys
    ensures forall r | r in Evicted(ops) :: Evicted(ops)[r] == ops[r]
    ensures forall r | r in ops && ops[r].Live() :: r in Evicted(ops)
  {
    LiveSurvives(ops, Surplus(ops));
  }

  lemma EvictedKeeps(ops: Table, r: RequestId)
    ensures r in Evicted(ops) ==> r in ops && Evicted(ops)[r] == ops[r]
    ensures r in ops && ops[r].Live() ==> r in Evicted(ops)
  {
    EvictionKeeps(ops, Surplus(ops), r);
  }

  // The table stays within the retention bound as long as fewer live operations fill it.
  lemma RetentionBound(ops: Table, r: RequestId, op: Operation)
    requires |ops| <= 4096
    requires |ops| == 4096 ==> exists x :: x in ops && ops[x].status in {OpCompleted, OpCancelled, OpFailed}
    ensures |Evicted(ops)[r := op]| <= 4096
    ensures |ops| < 4096 ==> Evicted(ops) == ops
  {
    LiveSurvives(ops, Surplus(ops));
    var kept := Evicted(ops);
    assert kept[r := op].Keys == kept.Keys + {r};
    if x :| x in ops && ops[x].status in {OpCompleted, OpCancelled, OpFailed} {
      assert x in Finished(ops);
      assert |Finished(ops)| >= 1;
    }
  }

  // start_operation on a fresh request id.
  ghost function StartOperation(ops: Table, r: RequestId, op: Operation): Table {
    Evicted(ops)[r := op]
  }

  // finish_operation: only a live operation takes its outcome.
  function FinishOperation(ops: Table, r: Option<RequestId>, status: OpStatus, now: Time): Table {
    if r.Some? && r.value in ops && ops[r.value].Live() then
      ops[r.value := ops[r.value].(status := status, timer := None, finishedAt := now, task := None)]
    else
      ops
  }

  // stop_server_operations, table part: every live operation of s fails.
  function FailServerOperations(ops: Table, s: ServerId, now: Time): Table {
    map r | r in ops ::
      if ops[r].server == s && ops[r].Live()
      then ops[r].(status := OpFailed, timer := None, finishedAt := now, task := None)
      else ops[r]
  }
}
