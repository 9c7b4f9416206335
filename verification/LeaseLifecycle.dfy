/**
 * What every backend transaction keeps: the lease state machine, the columns each status
 * carries, and unique request ids.
 */
module LeaseLifecycle {
  import opened Common
  import opened Leases

  // Which columns a lease carries in each status.
  predicate LeaseOk(l: Lease) {
    && (l.releasedAt.Some? <==> l.Terminal())
    && (l.status == Queued ==>
          l.server.None? && l.generation.None? && l.attempt.None? && l.reservationExpires.None? && l.startedAt.None?)
    && (l.status == Reserving ==>
          l.server.Some? && l.generation.Some? && l.attempt.Some? && l.reservationExpires.Some? && l.startedAt.None?)
    && (l.status == Active ==>
          l.server.Some? && l.generation.Some? && l.attempt.Some? && l.reservationExpires.None? && l.startedAt.Some?)
  }

  // A lease never carries a generation its server has not reached.
  predicate GenerationOk(db: Db, l: Lease) {
    l.server.Some? && l.generation.Some? ==>
      l.server.value in db.servers && l.generation.value <= db.servers[l.server.value].generation
  }

  ghost predicate DbOk(db: Db) {
    && (forall id {:trigger db.leases[id]} | id in db.leases :: LeaseOk(db.leases[id]) && GenerationOk(db, db.leases[id]))
    && (forall i, j | i in db.leases && j in db.leases && db.leases[i].request == db.leases[j].request :: i == j)
  }

  predicate SameRequest(l: Lease, m: Lease) {
    l.request == m.request && l.model == m.model && l.preferred == m.preferred
    && l.requiredAgent == m.requiredAgent && l.queuedAt == m.queuedAt
  }

  // m is l, ended.
  predicate EndsAs(l: Lease, m: Lease) {
    m.Terminal() && m == l.(status := m.status, reason := m.reason, releasedAt := m.releasedAt, expiresAt := m.expiresAt)
  }

  /** The edges of the lease state machine. */
  predicate LegalChange(l: Lease, m: Lease) {
    || m == l
    || (SameRequest(l, m) && match l.status
          case Queued => m.expiresAt == l.expiresAt && (m.status == Reserving || EndsAs(l, m))
          case Reserving =>
            || (m.status == Active && m.server == l.server && m.generation == l.generation && m.attempt == l.attempt)
            || (m.expiresAt == l.expiresAt && (m.status == Queued || EndsAs(l, m)))
          case Active => EndsAs(l, m) || (m.status == Active && m == l.(expiresAt := m.expiresAt))
          case _ => false)
  }

  ghost predicate Keeps(db: Db, b: Db, id: LeaseId)
    requires id in db.leases
  {
    && id in b.leases
    && LegalChange(db.leases[id], b.leases[id])
    && LeaseOk(b.leases[id]) && GenerationOk(b, b.leases[id])
  }

  predicate OnServer(tx: Tx) {
    tx.TxEvent? || tx.TxReserveStart? || tx.TxStartForRequest? || tx.TxRequestStop? || tx.TxSettleStop?
    || tx.TxBumpForInitialization? || tx.TxMarkUnavailable? || tx.TxLate?
  }

  // Rows change, leases do not.
  lemma RowStep(db: Db, tx: Tx, id: LeaseId)
    requires OnServer(tx) && !tx.TxEvent? && !tx.TxRequestStop? && !tx.TxMarkUnavailable?
    requires id in db.leases && LeaseOk(db.leases[id]) && GenerationOk(db, db.leases[id])
    ensures Keeps(db, Commit(db, tx), id)
  {}

  // The active leases of some servers fail with them.
  lemma InvalidationStep(db: Db, tx: Tx, id: LeaseId)
    requires tx.TxEvent? || tx.TxRequestStop? || tx.TxMarkUnavailable?
    requires id in db.leases && LeaseOk(db.leases[id]) && GenerationOk(db, db.leases[id])
    ensures Keeps(db, Commit(db, tx), id)
  {}

  lemma ServerStep(db: Db, tx: Tx, id: LeaseId)
    requires OnServer(tx) && id in db.leases && LeaseOk(db.leases[id]) && GenerationOk(db, db.leases[id])
    ensures Keeps(db, Commit(db, tx), id)
  {
    if tx.TxEvent? || tx.TxRequestStop? || tx.TxMarkUnavailable? {
      InvalidationStep(db, tx, id);
    } else {
      RowStep(db, tx, id);
    }
  }

  lemma ReconcileStep(db: Db, tx: Tx, id: LeaseId)
    requires tx.TxReconcile? && WellFormed(tx)
    requires id in db.leases && LeaseOk(db.leases[id]) && GenerationOk(db, db.leases[id])
    ensures Keeps(db, Commit(db, tx), id)
  {
    var l := db.leases[id];
    var m := Decide(l, RowOf(db, l), id in tx.oldGeneration, Verdicts(tx.verdicts, id), tx.now);
    assert Commit(db, tx).leases[id] == m;
    assert LegalChange(l, m) && LeaseOk(m);
  }

  predicate OnQueue(tx: Tx) {
    tx.TxEnqueue? || tx.TxClaim? || tx.TxEnsureQueued? || tx.TxFinishQueued? || tx.TxClearQueue?
  }

  lemma QueueStep(db: Db, tx: Tx, id: LeaseId)
    requires WellFormed(tx) && OnQueue(tx)
    requires id in db.leases && LeaseOk(db.leases[id]) && GenerationOk(db, db.leases[id])
    ensures Keeps(db, Commit(db, tx), id)
  {}

  lemma SlotStep(db: Db, tx: Tx, id: LeaseId)
    requires WellFormed(tx) && (tx.TxFinalize? || tx.TxCleanup? || tx.TxEndActive? || tx.TxRenew?)
    requires id in db.leases && LeaseOk(db.leases[id]) && GenerationOk(db, db.leases[id])
    ensures Keeps(db, Commit(db, tx), id)
  {}

  lemma LeaseStep(db: Db, tx: Tx, id: LeaseId)
    requires WellFormed(tx) && id in db.leases && LeaseOk(db.leases[id]) && GenerationOk(db, db.leases[id])
    ensures Keeps(db, Commit(db, tx), id)
  {
    if OnServer(tx) {
      ServerStep(db, tx, id);
    } else if tx.TxReconcile? {
      ReconcileStep(db, tx, id);
    } else if OnQueue(tx) {
      QueueStep(db, tx, id);
    } else {
      SlotStep(db, tx, id);
    }
  }

  lemma NewLease(db: Db, tx: Tx, id: LeaseId)
    requires id !in db.leases && id in Commit(db, tx).leases
    ensures tx.TxEnqueue? && tx.id == id
    ensures Commit(db, tx).leases[id].status == Queued
    ensures LeaseOk(Commit(db, tx).leases[id]) && GenerationOk(Commit(db, tx), Commit(db, tx).leases[id])
    ensures forall jd | jd in db.leases :: db.leases[jd].request != Commit(db, tx).leases[id].request
  {}

  lemma DbOkStep(db: Db, tx: Tx)
    requires DbOk(db) && WellFormed(tx)
    ensures DbOk(Commit(db, tx))
  {
    var b := Commit(db, tx);
    forall id | id in b.leases
      ensures LeaseOk(b.leases[id]) && GenerationOk(b, b.leases[id])
      ensures id in db.leases ==> b.leases[id].request == db.leases[id].request
    {
      if id in db.leases {
        LeaseStep(db, tx, id);
      } else {
        NewLease(db, tx, id);
      }
    }
    forall i, j | i in b.leases && j in b.leases && b.leases[i].request == b.leases[j].request
      ensures i == j
    {
      if i !in db.leases {
        NewLease(db, tx, i);
      }
      if j !in db.leases {
        NewLease(db, tx, j);
      }
    }
  }
}
