/**
 * The backend never hands out more slots of a server generation than its capacity,
 * and exactly which transactions could break that.
 */
module Occupancy {
  import opened Common
  import opened Leases
  import opened LeaseLifecycle
  import opened LeaseRuns
  import Reconciliation

  ghost predicate WithinCapacity(db: Db, s: ServerId, t: Time) {
    s in db.servers ==> |Occupants(db, s, t)| <= db.servers[s].Capacity()
  }

  // Lease id of the live generation of s keeps its slot through a pass, until t.
  predicate Stays(db: Db, s: ServerId, id: LeaseId, gone: set<LeaseId>, now: Time, t: Time)
    requires s in db.servers && id in db.leases
  {
    var l := db.leases[id];
    || (l.status == Reserving && l.expiresAt > now && !(l.reservationExpires.Some? && l.reservationExpires.value <= now))
    || (l.status == Active && id !in gone && db.servers[s].Available() && l.expiresAt > t)
  }

  // Its time had run out and the pass extends it: its agent reports it live, or does not answer.
  predicate Extends(db: Db, s: ServerId, id: LeaseId, gone: set<LeaseId>, verdicts: map<LeaseId, Verdict>, now: Time, t: Time)
    requires s in db.servers && id in db.leases
  {
    var l := db.leases[id];
    && l.status == Active && id !in gone && db.servers[s].Available()
    && l.expiresAt <= now && id in verdicts && verdicts[id].Extend? && now + ACTIVE_LEASE_TTL > t
  }

  // Who fills a slot of s after a pass, told from the database before it.
  function PassOccupants(db: Db, s: ServerId, gone: set<LeaseId>, verdicts: map<LeaseId, Verdict>, now: Time, t: Time): set<LeaseId>
    requires s in db.servers
  {
    set id | id in db.leases && db.leases[id].server == Some(s)
             && db.leases[id].generation == Some(db.servers[s].generation)
             && (Stays(db, s, id, gone, now, t) || Extends(db, s, id, gone, verdicts, now, t))
  }

  /** Exactly the transactions that keep server s within its capacity. Every clause is a test on the database before. */
  predicate Admits(db: Db, tx: Tx, s: ServerId, t: Time)
    requires s in db.servers
  {
    var row := db.servers[s];
    match tx
    case TxRenew(id, z, g, now) =>
      (Renewable(db, id, z, g) && db.leases[id].server == Some(s) && db.leases[id].generation == Some(row.generation)
       && db.leases[id].expiresAt <= t < now + ACTIVE_LEASE_TTL)
      ==> |Occupants(db, s, t)| < row.Capacity()
    case TxReconcile(gone, verdicts, now) => |PassOccupants(db, s, gone, verdicts, now, t)| <= row.Capacity()
    case TxEvent(z, agent, g, e, _) =>
      (z == s && Matches(db, s, agent, g) && e.ServerStarted? && e.capacity.Some? && row.status in {Starting, Running})
      ==> |Occupants(db, s, t)| <= Max(e.capacity.value, 1)
    case TxLate(z, seen, late) =>
      z == s ==> |Occupants(db, s, t)| <= Overwritten(row, seen, Wanted(seen, late)).Capacity()
    case _ => true
  }

  // The decision on a lease of the live generation, as far as it keeps its slot until t.
  lemma DecisionKeepsSlot(l: Lease, row: ServerRow, gone: bool, v: Option<Verdict>, now: Time, t: Time)
    requires now <= t && l.generation == Some(row.generation)
    requires v.Some? && v.value.Close? ==> v.value.status in {Released, Cancelled, Failed}
    ensures var m := Decide(l, Some(row), gone, v, now);
            (m.generation == l.generation && (m.status == Reserving || (m.status == Active && m.expiresAt > t))) <==>
            (|| (l.status == Reserving && l.expiresAt > now && !(l.reservationExpires.Some? && l.reservationExpires.value <= now))
             || (l.status == Active && !gone && row.Available() && l.expiresAt > t)
             || (l.status == Active && !gone && row.Available() && l.expiresAt <= now && v == Some(Extend)
                 && now + ACTIVE_LEASE_TTL > t))
    ensures Decide(l, Some(row), gone, v, now).server in {l.server, None}
    ensures Decide(l, Some(row), gone, v, now).generation in {l.generation, None}
  {}

  lemma PassOccupies(db: Db, tx: Tx, s: ServerId, id: LeaseId, t: Time)
    requires tx.TxReconcile? && WellFormed(tx) && s in db.servers && id in db.leases && tx.now <= t
    ensures Occupies(Commit(db, tx), s, id, t) <==> id in PassOccupants(db, s, tx.oldGeneration, tx.verdicts, tx.now, t)
  {
    var l, b := db.leases[id], Commit(db, tx);
    var m := Decide(l, RowOf(db, l), id in tx.oldGeneration, Verdicts(tx.verdicts, id), tx.now);
    assert b.leases[id] == m && b.servers[s].generation == db.servers[s].generation;
    if l.server == Some(s) && l.generation == Some(db.servers[s].generation) {
      DecisionKeepsSlot(l, db.servers[s], id in tx.oldGeneration, Verdicts(tx.verdicts, id), tx.now, t);
    } else {
      DecisionMovesNowhere(l, RowOf(db, l), id in tx.oldGeneration, Verdicts(tx.verdicts, id), tx.now);
    }
  }

  lemma DecisionMovesNowhere(l: Lease, row: Option<ServerRow>, gone: bool, v: Option<Verdict>, now: Time)
    ensures var m := Decide(l, row, gone, v, now);
            (m.server == l.server && m.generation == l.generation) || (m.server.None? && m.generation.None?)
  {}

  /** A reconciliation pass keeps the bound exactly when those it leaves and those it extends fit together. */
  lemma PassBound(db: Db, tx: Tx, s: ServerId, t: Time)
    requires tx.TxReconcile? && WellFormed(tx) && s in db.servers && tx.now <= t
    ensures WithinCapacity(Commit(db, tx), s, t) <==> Admits(db, tx, s, t)
  {
    var b := Commit(db, tx);
    forall id | id in db.leases
      ensures id in Occupants(b, s, t) <==> id in PassOccupants(db, s, tx.oldGeneration, tx.verdicts, tx.now, t)
    {
      PassOccupies(db, tx, s, id, t);
    }
    assert Occupants(b, s, t) == PassOccupants(db, s, tx.oldGeneration, tx.verdicts, tx.now, t);
  }

  // A transaction that writes only a capacity leaves the occupants as they are.
  lemma CapacityBound(db: Db, tx: Tx, s: ServerId, t: Time)
    requires s in db.servers && WithinCapacity(db, s, t)
    requires tx.TxLate? || (tx.TxEvent? && tx.event.ServerStarted?)
    ensures WithinCapacity(Commit(db, tx), s, t) <==> Admits(db, tx, s, t)
  {
    var b := Commit(db, tx);
    assert b.leases == db.leases && b.servers[s].generation == db.servers[s].generation;
    assert Occupants(b, s, t) == Occupants(db, s, t);
  }

  lemma RenewBound(db: Db, tx: Tx, s: ServerId, t: Time)
    requires tx.TxRenew? && s in db.servers && tx.now <= t && WithinCapacity(db, s, t)
    ensures WithinCapacity(Commit(db, tx), s, t) <==> Admits(db, tx, s, t)
  {
    var b, id := Commit(db, tx), tx.id;
    var before, after := Occupants(db, s, t), Occupants(b, s, t);
    if !Renewable(db, id, tx.s, tx.g) || db.leases[id].server != Some(s)
       || db.leases[id].generation != Some(db.servers[s].generation) {
      assert after == before;
    } else if db.leases[id].expiresAt <= t < tx.now + ACTIVE_LEASE_TTL {
      AddedOne(before, after, id);
    } else {
      assert after <= before;
      CardinalitySubset(after, before);
    }
  }

  // Every other transaction fills no slot, except that a claim takes the free one it found.
  lemma OccupantAfter(db: Db, tx: Tx, s: ServerId, id: LeaseId, t: Time)
    requires DbOk(db) && WellFormed(tx) && s in db.servers && !tx.TxRenew? && !tx.TxReconcile?
    requires s in Commit(db, tx).servers && Occupies(Commit(db, tx), s, id, t)
    ensures db.servers[s].generation == Commit(db, tx).servers[s].generation
    ensures || Occupies(db, s, id, t)
            || (tx.TxClaim? && tx.s == s && tx.id == id && Claimable(db, id, s, tx.now))
  {
    var b := Commit(db, tx);
    if id !in db.leases {
      NewLease(db, tx, id);
    } else {
      LeaseStep(db, tx, id);
      GenerationStep(db, tx, s);
      assert GenerationOk(db, db.leases[id]);
      if b.leases[id].attempt != db.leases[id].attempt {
        assert LeaseOk(b.leases[id]);
        NewAttemptIsClaim(db, tx, id);
      }
      if b.leases[id].status == Active && db.leases[id].status != Active {
        OnlyFinalizeActivates(db, tx, id);
      }
    }
  }

  lemma CapacityStays(db: Db, tx: Tx, s: ServerId)
    requires s in db.servers && !tx.TxEvent? && !tx.TxLate?
    ensures s in Commit(db, tx).servers && Commit(db, tx).servers[s].effectiveCapacity == db.servers[s].effectiveCapacity
  {}

  lemma EventCapacityStays(db: Db, tx: Tx, s: ServerId)
    requires s in db.servers && tx.TxEvent? && !tx.event.ServerStarted?
    ensures s in Commit(db, tx).servers && Commit(db, tx).servers[s].effectiveCapacity == db.servers[s].effectiveCapacity
  {}

  lemma OtherBound(db: Db, tx: Tx, s: ServerId, t: Time)
    requires DbOk(db) && WellFormed(tx) && s in db.servers && WithinCapacity(db, s, t)
    requires !tx.TxRenew? && !tx.TxReconcile? && !tx.TxLate? && !(tx.TxEvent? && tx.event.ServerStarted?)
    requires tx.TxClaim? ==> tx.now <= t
    ensures WithinCapacity(Commit(db, tx), s, t)
  {
    var b := Commit(db, tx);
    if tx.TxEvent? {
      EventCapacityStays(db, tx, s);
    } else {
      CapacityStays(db, tx, s);
    }
    var before, after := Occupants(db, s, t), Occupants(b, s, t);
    if tx.TxClaim? && tx.s == s && Claimable(db, tx.id, s, tx.now) {
      forall id | id in after && id != tx.id
        ensures id in before
      {
        OccupantAfter(db, tx, s, id, t);
      }
      assert before <= Occupants(db, s, tx.now);
      CardinalitySubset(before, Occupants(db, s, tx.now));
      CardinalitySubset(after, before + {tx.id});
    } else {
      forall id | id in after
        ensures id in before
      {
        OccupantAfter(db, tx, s, id, t);
      }
      CardinalitySubset(after, before);
    }
  }

  /** One transaction keeps a server within its capacity exactly when it passes `Admits`. */
  lemma StepKeepsBound(db: Db, tx: Tx, s: ServerId, t: Time)
    requires DbOk(db) && WellFormed(tx) && s in db.servers && WithinCapacity(db, s, t)
    requires tx.TxClaim? || tx.TxRenew? || tx.TxReconcile? ==> tx.now <= t
    ensures s in Commit(db, tx).servers
    ensures WithinCapacity(Commit(db, tx), s, t) <==> Admits(db, tx, s, t)
  {
    GenerationStep(db, tx, s);
    if tx.TxRenew? {
      RenewBound(db, tx, s, t);
    } else if tx.TxReconcile? {
      PassBound(db, tx, s, t);
    } else if tx.TxLate? || (tx.TxEvent? && tx.event.ServerStarted?) {
      CapacityBound(db, tx, s, t);
    } else {
      OtherBound(db, tx, s, t);
    }
  }

  lemma LaterStillWithin(db: Db, s: ServerId, t: Time, u: Time)
    requires WithinCapacity(db, s, t) && t <= u
    ensures WithinCapacity(db, s, u)
  {
    if s in db.servers {
      CardinalitySubset(Occupants(db, s, u), Occupants(db, s, t));
    }
  }

  // The first n transactions each left s within its capacity, and each passed `Admits`.
  ghost predicate WithinThrough(run: Run, n: nat, s: ServerId)
    requires |run.dbs| == |run.txs| + 1 == |run.clocks| && n < |run.dbs|
  {
    n > 0 ==> WithinCapacity(run.dbs[n], s, run.clocks[n - 1]) && WithinThrough(run, n - 1, s)
  }

  ghost predicate AdmittedThrough(run: Run, n: nat, s: ServerId)
    requires |run.dbs| == |run.txs| + 1 == |run.clocks| && n < |run.dbs|
  {
    n > 0 ==>
      && (s in run.dbs[n - 1].servers ==> Admits(run.dbs[n - 1], run.txs[n - 1], s, run.clocks[n - 1]))
      && AdmittedThrough(run, n - 1, s)
  }

  /**
   * The reserving and unexpired active leases of a server's generation stay within its capacity
   * over a run exactly when every transaction of the run passes `Admits`.
   */
  lemma {:induction false} OccupancyIff(run: Run, n: nat, s: ServerId)
    requires Valid(run) && n < |run.dbs|
    requires s in run.dbs[0].servers && WithinCapacity(run.dbs[0], s, run.clocks[0])
    ensures s in run.dbs[n].servers
    ensures WithinThrough(run, n, s) <==> AdmittedThrough(run, n, s)
    ensures WithinThrough(run, n, s) ==> |Occupants(run.dbs[n], s, run.clocks[n])| <= run.dbs[n].servers[s].Capacity()
  {
    if n > 0 {
      OccupancyIff(run, n - 1, s);
      AlwaysOk(run, n - 1);
      GenerationStep(run.dbs[n - 1], run.txs[n - 1], s);
      assert run.dbs[n] == Commit(run.dbs[n - 1], run.txs[n - 1]) && run.clocks[n - 1] <= run.clocks[n];
      if WithinCapacity(run.dbs[n - 1], s, run.clocks[n - 1]) {
        StepKeepsBound(run.dbs[n - 1], run.txs[n - 1], s, run.clocks[n - 1]);
        if WithinCapacity(run.dbs[n], s, run.clocks[n - 1]) {
          LaterStillWithin(run.dbs[n], s, run.clocks[n - 1], run.clocks[n]);
        }
      }
    }
  }

  /** A renewal keeps the bound exactly when it does not revive a lease on a server already full. */
  lemma RenewalBound(db: Db, id: LeaseId, s: ServerId, g: int, now: Time)
    requires DbOk(db) && Renewable(db, id, s, g) && db.leases[id].server == Some(s)
    requires WithinCapacity(db, s, now)
    ensures WithinCapacity(Renew(db, id, s, g, now), s, now) <==>
            (db.leases[id].expiresAt > now || |Occupants(db, s, now)| < db.servers[s].Capacity())
  {
    var b := Renew(db, id, s, g, now);
    var before, after := Occupants(db, s, now), Occupants(b, s, now);
    if db.leases[id].expiresAt > now {
      assert after == before;
    } else {
      AddedOne(before, after, id);
    }
  }

  // Lease 1 ran out and lease 2 took the only slot of server 0.
  const ROW := ServerRow(0, 0, Running, Healthy, 1, 1, None)
  const RAN_OUT := Lease(1, 0, None, None, 0, 100, Active, Some(0), Some(1), Some(1), None, Some(0), None, None)
  const SUCCESSOR := RAN_OUT.(request := 2, queuedAt := 1, expiresAt := 900, attempt := Some(2))
  const FULL := Db(map[1 := RAN_OUT, 2 := SUCCESSOR], map[0 := ROW])

  lemma FullServer()
    ensures DbOk(FULL) && Occupants(FULL, 0, 500) == {2} && WithinCapacity(FULL, 0, 500)
  {}

  /** The late renewal of lease 1 overfills the server. */
  lemma LateRenewalOverfills()
    ensures DbOk(FULL) && WithinCapacity(FULL, 0, 500) && !WithinCapacity(Renew(FULL, 1, 0, 1, 500), 0, 500)
  {
    FullServer();
    RenewalBound(FULL, 1, 0, 1, 500);
  }

  /** So does a reconciliation pass during which the agent does not answer. */
  lemma UnansweredPassOverfills()
    ensures DbOk(FULL) && WithinCapacity(FULL, 0, 500) && !WithinCapacity(Reconciliation.Pass(FULL, map[], 500), 0, 500)
  {
    FullServer();
    var gone, verdicts := Reconciliation.OldGenerationLeases(FULL), Reconciliation.ReadVerdicts(FULL, map[], 500);
    assert gone == {};
    assert 1 in verdicts && verdicts[1] == Extend;
    assert PassOccupants(FULL, 0, gone, verdicts, 500, 500) == {1, 2};
    PassBound(FULL, TxReconcile(gone, verdicts, 500), 0, 500);
  }

  /** A capacity confirmed anew within a generation keeps the bound exactly when the occupants still fit. */
  lemma ConfirmedCapacityBound(db: Db, s: ServerId, agent: AgentId, g: Option<int>, c: int, now: Time)
    requires DbOk(db) && Matches(db, s, agent, g) && db.servers[s].status in {Starting, Running}
    ensures WithinCapacity(HandleEvent(db, s, agent, g, ServerStarted(Some(c)), now), s, now) <==>
            |Occupants(db, s, now)| <= Max(c, 1)
  {
    var b := HandleEvent(db, s, agent, g, ServerStarted(Some(c)), now);
    assert Occupants(b, s, now) == Occupants(db, s, now);
  }
}
