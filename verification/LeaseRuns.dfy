/** Backend safety over whole runs of transactions, committed in any order by any actors. */
module LeaseRuns {
  import opened Common
  import opened Leases
  import opened LeaseLifecycle

  // dbs[i] is the database before transaction txs[i]; clocks[i] the time when txs[i] commits.
  datatype Run = Run(dbs: seq<Db>, txs: seq<Tx>, clocks: seq<Time>)

  // `now` as a transaction captured it, at or before its commit; a finalize captures it at its commit.
  function TimeOf(tx: Tx, clock: Time): Time {
    match tx
    case TxClaim(_, _, _, now) => now
    case TxFinalize(_, _, _, _, now) => now
    case TxRenew(_, _, _, now) => now
    case TxReconcile(_, _, now) => now
    case _ => clock
  }

  ghost predicate Valid(run: Run) {
    && |run.dbs| == |run.txs| + 1 == |run.clocks|
    && DbOk(run.dbs[0])
    && (forall i {:trigger run.txs[i]} | 0 <= i < |run.txs| ::
          && WellFormed(run.txs[i])
          && run.dbs[i + 1] == Commit(run.dbs[i], run.txs[i])
          && run.clocks[i] <= run.clocks[i + 1]
          && TimeOf(run.txs[i], run.clocks[i]) <= run.clocks[i]
          && (run.txs[i].TxFinalize? ==> run.txs[i].now == run.clocks[i]))
  }

  lemma {:induction false} AlwaysOk(run: Run, i: nat)
    requires Valid(run) && i < |run.dbs|
    ensures DbOk(run.dbs[i])
  {
    if i > 0 {
      AlwaysOk(run, i - 1);
      DbOkStep(run.dbs[i - 1], run.txs[i - 1]);
    }
  }

  lemma StepOf(run: Run, i: nat, id: LeaseId)
    requires Valid(run) && i < |run.txs| && id in run.dbs[i].leases
    ensures Keeps(run.dbs[i], run.dbs[i + 1], id)
  {
    AlwaysOk(run, i);
    LeaseStep(run.dbs[i], run.txs[i], id);
  }

  lemma {:induction false} ClocksGrow(run: Run, i: nat, j: nat)
    requires Valid(run) && i <= j < |run.clocks|
    ensures run.clocks[i] <= run.clocks[j]
    decreases j
  {
    if i < j {
      ClocksGrow(run, i, j - 1);
      assert run.txs[j - 1] == run.txs[j - 1];
    }
  }

  // ------------------------------------------------------------- lifecycle

  ghost predicate Activates(run: Run, i: nat, id: LeaseId)
    requires |run.dbs| == |run.txs| + 1
  {
    && i < |run.txs|
    && id in run.dbs[i].leases && id in run.dbs[i + 1].leases
    && run.dbs[i].leases[id].status != Active && run.dbs[i + 1].leases[id].status == Active
  }

  ghost predicate Terminates(run: Run, i: nat, id: LeaseId)
    requires |run.dbs| == |run.txs| + 1
  {
    && i < |run.txs|
    && id in run.dbs[i].leases && id in run.dbs[i + 1].leases
    && !run.dbs[i].leases[id].Terminal() && run.dbs[i + 1].leases[id].Terminal()
  }

  // A terminal row is never written again, by anyone.
  lemma {:induction false} TerminalIsAbsorbing(run: Run, i: nat, j: nat, id: LeaseId)
    requires Valid(run) && i <= j < |run.dbs|
    requires id in run.dbs[i].leases && run.dbs[i].leases[id].Terminal()
    ensures id in run.dbs[j].leases && run.dbs[j].leases[id] == run.dbs[i].leases[id]
    decreases j
  {
    if i < j {
      TerminalIsAbsorbing(run, i, j - 1, id);
      StepOf(run, j - 1, id);
    }
  }

  // Once a lease has started it keeps its start time and is active or terminal.
  lemma {:induction false} StartedStays(run: Run, i: nat, j: nat, id: LeaseId)
    requires Valid(run) && i <= j < |run.dbs|
    requires id in run.dbs[i].leases && run.dbs[i].leases[id].status == Active
    ensures id in run.dbs[j].leases && (run.dbs[j].leases[id].status == Active || run.dbs[j].leases[id].Terminal())
    ensures run.dbs[j].leases[id].startedAt == run.dbs[i].leases[id].startedAt
    ensures run.dbs[j].leases[id].attempt == run.dbs[i].leases[id].attempt
    decreases j
  {
    if i < j {
      StartedStays(run, i, j - 1, id);
      StepOf(run, j - 1, id);
    }
  }

  /** A lease is activated at most once and terminated at most once: every end has one winning writer. */
  lemma OneActivationOneEnd(run: Run, i: nat, j: nat, id: LeaseId)
    requires Valid(run)
    ensures Activates(run, i, id) && Activates(run, j, id) ==> i == j
    ensures Terminates(run, i, id) && Terminates(run, j, id) ==> i == j
  {
    if Activates(run, i, id) && Activates(run, j, id) && i < j {
      StartedStays(run, i + 1, j, id);
      StepOf(run, j, id);
    }
    if Activates(run, i, id) && Activates(run, j, id) && j < i {
      StartedStays(run, j + 1, i, id);
      StepOf(run, i, id);
    }
    if Terminates(run, i, id) && Terminates(run, j, id) && i < j {
      TerminalIsAbsorbing(run, i + 1, j, id);
    }
    if Terminates(run, i, id) && Terminates(run, j, id) && j < i {
      TerminalIsAbsorbing(run, j + 1, i, id);
    }
  }

  /** Over a whole run a lease follows the state machine, and released_at is set exactly on its end. */
  lemma EveryStepIsLegal(run: Run, i: nat, id: LeaseId)
    requires Valid(run) && i < |run.txs| && id in run.dbs[i + 1].leases
    ensures id in run.dbs[i].leases ==> LegalChange(run.dbs[i].leases[id], run.dbs[i + 1].leases[id])
    ensures id !in run.dbs[i].leases ==> run.dbs[i + 1].leases[id].status == Queued
    ensures run.dbs[i + 1].leases[id].releasedAt.Some? <==> run.dbs[i + 1].leases[id].Terminal()
  {
    AlwaysOk(run, i + 1);
    if id in run.dbs[i].leases {
      StepOf(run, i, id);
    } else {
      NewLease(run.dbs[i], run.txs[i], id);
    }
  }

  // ------------------------------------------------------------ queue order

  // From now on l is out of the queue, or it stays in it without ever being served.
  predicate Spent(l: Lease, t: Time) {
    l.status == Active || l.Terminal() || l.expiresAt <= t
  }

  lemma {:induction false} SpentStays(run: Run, k: nat, j: nat, id: LeaseId, t: Time)
    requires Valid(run) && k <= j < |run.dbs| && t <= run.clocks[k]
    requires id in run.dbs[k].leases && Spent(run.dbs[k].leases[id], t)
    ensures id in run.dbs[j].leases && Spent(run.dbs[j].leases[id], t)
    ensures !Activates(run, j, id)
    decreases j
  {
    if k < j {
      SpentStays(run, k, j - 1, id, t);
      StepOf(run, j - 1, id);
    }
    if Activates(run, j, id) {
      StepOf(run, j, id);
      ClocksGrow(run, k, j);
      OnlyFinalizeActivates(run.dbs[j], run.txs[j], id);
    }
  }

  lemma OnlyFinalizeActivates(db: Db, tx: Tx, id: LeaseId)
    requires WellFormed(tx) && id in db.leases && id in Commit(db, tx).leases
    requires db.leases[id].status != Active && Commit(db, tx).leases[id].status == Active
    ensures tx.TxFinalize? && tx.id == id && Finalizable(db, id, tx.s, tx.g, tx.attempt, tx.now)
  {}

  /**
   * First in, first out. When a younger lease is claimed on a server an older, already
   * queued lease fits, the older one is never activated later: either it was before, or never.
   */
  lemma OlderIsServedFirst(run: Run, k: nat, younger: LeaseId, s: ServerId, attempt: Attempt, now: Time,
                           older: LeaseId, m: nat)
    requires Valid(run) && k < |run.txs| && m < |run.txs|
    requires run.txs[k] == TxClaim(younger, s, attempt, now) && Claimable(run.dbs[k], younger, s, now)
    requires older in run.dbs[k].leases && older != younger
    requires var o, y := run.dbs[k].leases[older], run.dbs[k].leases[younger];
             o.queuedAt < y.queuedAt || (o.queuedAt == y.queuedAt && older < younger)
    requires var o, row := run.dbs[k].leases[older], run.dbs[k].servers[s];
             && o.model == row.model
             && (o.preferred == None || o.preferred == Some(s))
             && (o.requiredAgent == None || o.requiredAgent == Some(row.agent))
    requires Activates(run, m, older)
    ensures m < k
  {
    assert !Competes(run.dbs[k], s, older, now);
    assert Spent(run.dbs[k].leases[older], now);
    if k <= m {
      SpentStays(run, k, m, older, now);
    }
  }

  // An older reservation that is still open blocks the queue, even though it waits for nothing but its agent.
  lemma OlderReservationBlocks(db: Db, younger: LeaseId, s: ServerId, now: Time, older: LeaseId)
    requires s in db.servers && younger in db.leases && older in db.leases && older != younger
    requires db.leases[older].status == Reserving && db.leases[older].expiresAt > now
    requires var o, row := db.leases[older], db.servers[s];
             && o.model == row.model
             && (o.preferred == None || o.preferred == Some(s))
             && (o.requiredAgent == None || o.requiredAgent == Some(row.agent))
    requires var o, y := db.leases[older], db.leases[younger];
             o.queuedAt < y.queuedAt || (o.queuedAt == y.queuedAt && older < younger)
    ensures !Claimable(db, younger, s, now)
  {
    assert Competes(db, s, older, now);
  }

  // ------------------------------------------------------- generation fence

  lemma GenerationStep(db: Db, tx: Tx, s: ServerId)
    requires s in db.servers
    ensures s in Commit(db, tx).servers
    ensures db.servers[s].generation <= Commit(db, tx).servers[s].generation <= db.servers[s].generation + 1
    ensures db.servers[s].agent == Commit(db, tx).servers[s].agent
    ensures db.servers[s].model == Commit(db, tx).servers[s].model
  {}

  lemma {:induction false} GenerationsGrow(run: Run, i: nat, j: nat, s: ServerId)
    requires Valid(run) && i <= j < |run.dbs| && s in run.dbs[i].servers
    ensures s in run.dbs[j].servers && run.dbs[i].servers[s].generation <= run.dbs[j].servers[s].generation
    decreases j
  {
    if i < j {
      GenerationsGrow(run, i, j - 1, s);
      GenerationStep(run.dbs[j - 1], run.txs[j - 1], s);
    }
  }

  // Claim i gave attempt a, made on server s at generation g, to lease id.
  ghost predicate Claimed(run: Run, i: nat, id: LeaseId, s: ServerId, g: int, a: Attempt)
    requires |run.dbs| == |run.txs| + 1
  {
    && i < |run.txs|
    && run.txs[i].TxClaim? && run.txs[i].id == id && run.txs[i].s == s && run.txs[i].attempt == a
    && Claimable(run.dbs[i], id, s, run.txs[i].now)
    && run.dbs[i].servers[s].generation == g
  }

  // Attempt ids are fresh uuids, and a finalize or a renewal speaks for a claim that happened.
  ghost predicate Coordinated(run: Run)
    requires |run.dbs| == |run.txs| + 1
  {
    && (forall i, j | 0 <= i < |run.txs| && 0 <= j < |run.txs| && run.txs[i].TxClaim? && run.txs[j].TxClaim?
                      && run.txs[i].attempt == run.txs[j].attempt :: i == j)
    && (forall j {:trigger run.txs[j]} | 0 <= j < |run.txs| && run.txs[j].TxFinalize? ::
          exists i | 0 <= i < j :: Claimed(run, i, run.txs[j].id, run.txs[j].s, run.txs[j].g, run.txs[j].attempt))
    && (forall j {:trigger run.txs[j]} | 0 <= j < |run.txs| && run.txs[j].TxRenew? ::
          exists i, a | 0 <= i < j ::
            Claimed(run, i, run.txs[j].id, run.txs[j].s, run.txs[j].g, a) && WasActivatedWith(run, i, j, run.txs[j].id, a))
    && StartsQueued(run)
  }

  ghost predicate StartsQueued(run: Run)
    requires |run.dbs| == |run.txs| + 1
  {
    forall id | id in run.dbs[0].leases :: run.dbs[0].leases[id].status == Queued
  }

  ghost predicate WasActivatedWith(run: Run, i: nat, j: nat, id: LeaseId, a: Attempt)
    requires |run.dbs| == |run.txs| + 1
  {
    exists k | i < k < j && k < |run.txs| :: Activates(run, k, id) && run.dbs[k + 1].leases[id].attempt == Some(a)
  }

  /** A lease's server, generation and attempt are those of the one claim that made the attempt. */
  lemma {:induction false} AttemptOrigin(run: Run, j: nat, id: LeaseId) returns (i: nat)
    requires Valid(run) && StartsQueued(run) && j < |run.dbs|
    requires id in run.dbs[j].leases && run.dbs[j].leases[id].attempt.Some?
    ensures i < j && run.dbs[j].leases[id].server.Some? && run.dbs[j].leases[id].generation.Some?
    ensures Claimed(run, i, id, run.dbs[j].leases[id].server.value, run.dbs[j].leases[id].generation.value,
                    run.dbs[j].leases[id].attempt.value)
    decreases j
  {
    AlwaysOk(run, j);
    assert j > 0 by {
      assert LeaseOk(run.dbs[j].leases[id]);
    }
    AlwaysOk(run, j - 1);
    assert id in run.dbs[j - 1].leases by {
      if id !in run.dbs[j - 1].leases {
        NewLease(run.dbs[j - 1], run.txs[j - 1], id);
      }
    }
    if run.dbs[j - 1].leases[id].attempt == run.dbs[j].leases[id].attempt {
      i := AttemptOrigin(run, j - 1, id);
      AttemptKeepsPlace(run.dbs[j - 1], run.txs[j - 1], id);
    } else {
      NewAttemptIsClaim(run.dbs[j - 1], run.txs[j - 1], id);
      i := j - 1;
    }
  }

  lemma AttemptKeepsPlace(db: Db, tx: Tx, id: LeaseId)
    requires DbOk(db) && WellFormed(tx) && id in db.leases && id in Commit(db, tx).leases
    requires db.leases[id].attempt.Some? && Commit(db, tx).leases[id].attempt == db.leases[id].attempt
    ensures Commit(db, tx).leases[id].server == db.leases[id].server
    ensures Commit(db, tx).leases[id].generation == db.leases[id].generation
  {
    LeaseStep(db, tx, id);
  }

  lemma NewAttemptIsClaim(db: Db, tx: Tx, id: LeaseId)
    requires WellFormed(tx) && id in db.leases && id in Commit(db, tx).leases
    requires Commit(db, tx).leases[id].attempt.Some? && Commit(db, tx).leases[id].attempt != db.leases[id].attempt
    ensures tx.TxClaim? && tx.id == id && Claimable(db, id, tx.s, tx.now)
    ensures Commit(db, tx).leases[id].server == Some(tx.s) && Commit(db, tx).leases[id].attempt == Some(tx.attempt)
    ensures Commit(db, tx).leases[id].generation == Some(db.servers[tx.s].generation)
  {}

  /** After a generation bump no lease of an older generation is ever activated. */
  lemma ActivationsAreCurrent(run: Run, j: nat, id: LeaseId)
    requires Valid(run) && Coordinated(run) && Activates(run, j, id)
    ensures var l := run.dbs[j + 1].leases[id];
            && l.server.Some? && l.server.value in run.dbs[j].servers
            && l.generation == Some(run.dbs[j].servers[l.server.value].generation)
  {
    OnlyFinalizeActivates(run.dbs[j], run.txs[j], id);
    var i := AttemptOrigin(run, j, id);
    var tx := run.txs[j];
    var k :| 0 <= k < j && Claimed(run, k, tx.id, tx.s, tx.g, tx.attempt);
    assert run.txs[i].attempt == run.txs[k].attempt;
  }

  lemma AttemptOfActivation(run: Run, i: nat, j: nat, id: LeaseId, a: Attempt)
    requires Valid(run) && j < |run.dbs| && WasActivatedWith(run, i, j, id, a)
    ensures id in run.dbs[j].leases && run.dbs[j].leases[id].attempt == Some(a)
  {
    var k: nat :| i < k < j && k < |run.txs| && Activates(run, k, id) && run.dbs[k + 1].leases[id].attempt == Some(a);
    StartedStays(run, k + 1, j, id);
  }

  /** Nor is one ever renewed by its handle. */
  lemma RenewalsAreCurrent(run: Run, j: nat)
    requires Valid(run) && Coordinated(run) && j < |run.txs| && run.txs[j].TxRenew?
    requires Renewable(run.dbs[j], run.txs[j].id, run.txs[j].s, run.txs[j].g)
    ensures var l := run.dbs[j].leases[run.txs[j].id];
            l.server == Some(run.txs[j].s) && l.generation == Some(run.dbs[j].servers[run.txs[j].s].generation)
  {
    var tx := run.txs[j];
    var i: nat, a: Attempt :| 0 <= i < j && Claimed(run, i, tx.id, tx.s, tx.g, a) && WasActivatedWith(run, i, j, tx.id, a);
    AttemptOfActivation(run, i, j, tx.id, a);
    var o := AttemptOrigin(run, j, tx.id);
    assert run.txs[o].attempt == run.txs[i].attempt;
  }
}
