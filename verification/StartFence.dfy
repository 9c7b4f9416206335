/**
 * Who puts a server into service: the messages of its own process, and exactly those unlocked
 * writes that overlooked what happened to the row after they had read it.
 */
module StartFence {
  import opened Common
  import opened Leases
  import opened LeaseRuns

  // An unlocked transaction found in the row it read what it was about.
  predicate Heeds(seen: ServerRow, late: Late) {
    match late
    case Acknowledged(expected, reported, _, _) =>
      seen.status in {Starting, Running} && seen.generation == expected && (reported.Some? ==> reported.value == expected)
    case StartFailed(expected) => seen.status == Starting && seen.generation == expected
    case StartLost(expected) => seen.status == Starting && seen.generation == expected
    case StopFailed(g) => seen.status == Stopping && seen.generation == g
    case StatusSet(status) => status in {Preparing, MetadataGathering, InitializationFailed, Stopped}
  }

  // Some column it writes differs by the time it writes.
  predicate Changes(row: ServerRow, seen: ServerRow, late: Late) {
    && Heeds(seen, late)
    && match late
       case Acknowledged(_, _, capacity, now) =>
         || (seen.status == Starting && row.status != Running)
         || (seen.health != Healthy && row.health != Healthy)
         || (seen.startedAt.None? && row.startedAt != Some(now))
         || (capacity.Some? && Max(capacity.value, 1) != seen.effectiveCapacity
             && Max(capacity.value, 1) != row.effectiveCapacity)
       case StartFailed(_) => row.status != Errored
       case StartLost(_) => seen.health != Unknown && row.health != Unknown
       case StopFailed(_) => row.status != Errored || (seen.health != Unknown && row.health != Unknown)
       case StatusSet(status) =>
         (seen.status != status && row.status != status) || (seen.health != Unknown && row.health != Unknown)
  }

  lemma LateWriteChanges(db: Db, s: ServerId, seen: ServerRow, late: Late)
    requires s in db.servers
    ensures LateWrite(db, s, seen, late) == db <==> !Changes(db.servers[s], seen, late)
  {
    var row := Overwritten(db.servers[s], seen, Wanted(seen, late));
    assert row == db.servers[s] <==> !Changes(db.servers[s], seen, late);
    if row == db.servers[s] {
      assert db.servers[s := row] == db.servers;
    }
  }

  // Messages about one process that carry its generation.
  predicate Stamped(tx: Tx, s: ServerId, g: int) {
    || (tx.TxEvent? && tx.s == s && tx.generation == Some(g))
    || (tx.TxSettleStop? && tx.s == s && tx.g == g)
    || (tx.TxLate? && tx.s == s && GenerationOf(tx.late) == Some(g))
  }

  /**
   * Once a server has moved past generation g, a message stamped g changes nothing, however late,
   * unless it is an unlocked write that read the row of generation g and has a column to write over
   * the newer one. No lease row changes in any case.
   */
  lemma StaleMessagesChangeNothing(run: Run, i: nat, j: nat, s: ServerId, g: int, tx: Tx)
    requires Valid(run) && i <= j < |run.dbs| && s in run.dbs[i].servers
    requires g < run.dbs[i].servers[s].generation && Stamped(tx, s, g)
    ensures s in run.dbs[j].servers && Commit(run.dbs[j], tx).leases == run.dbs[j].leases
    ensures Commit(run.dbs[j], tx) == run.dbs[j] <==> !(tx.TxLate? && Changes(run.dbs[j].servers[s], tx.seen, tx.late))
    ensures tx.TxLate? && Changes(run.dbs[j].servers[s], tx.seen, tx.late) ==> tx.seen.generation == g
  {
    GenerationsGrow(run, i, j, s);
    if tx.TxLate? {
      LateWriteChanges(run.dbs[j], s, tx.seen, tx.late);
    }
  }

  /** What an unlocked write of any age makes of a server that was just bumped for a start. */
  lemma LateWriteOnStartingServer(db: Db, s: ServerId, seen: ServerRow, late: Late)
    requires s in db.servers && db.servers[s].status == Starting && db.servers[s].health == Unknown
    ensures var row := LateWrite(db, s, seen, late).servers[s];
            && row.generation == db.servers[s].generation
            && (row.Available() <==> late.Acknowledged? && Heeds(seen, late) && seen.status == Starting && seen.health != Healthy)
            && (row.status == Errored <==> (late.StartFailed? || late.StopFailed?) && Heeds(seen, late))
            && (row.status == Running <==> late.Acknowledged? && Heeds(seen, late) && seen.status == Starting)
            && (late.StartLost? ==> row == db.servers[s])
  {}

  /**
   * The answer to a start reads its row; a forced stop and a new start commit; the answer writes.
   * An acknowledgement of the old process puts the new one into service before it has answered,
   * a failure of the old one marks the new one as failed.
   */
  lemma StaleAnswerHitsNewProcess(db: Db, s: ServerId, now: Time)
    requires s in db.servers && db.servers[s].status == Starting && db.servers[s].health == Unknown
    ensures var seen := db.servers[s];
            var restarted := StartForRequest(RequestStop(db, s, true, now), s);
            && restarted.servers[s].generation == seen.generation + 1 && restarted.servers[s].status == Starting
            && (var served := LateWrite(restarted, s, seen, Acknowledged(seen.generation, None, None, now)).servers[s];
                served.Available() && served.generation == seen.generation + 1)
            && (var failed := LateWrite(restarted, s, seen, StartFailed(seen.generation)).servers[s];
                failed.status == Errored && failed.generation == seen.generation + 1)
  {}

  // -------------------------------------------------------- becoming available

  // The transactions that make a server available that was not.
  predicate Serves(db: Db, tx: Tx, s: ServerId)
    requires s in db.servers
  {
    var row := db.servers[s];
    match tx
    case TxEvent(z, agent, g, e, _) =>
      && z == s && Matches(db, s, agent, g) && row.status in {Starting, Running}
      && (e.ServerStarted? || (e.HealthChanged? && e.healthy))
    case TxLate(z, seen, late) =>
      && z == s && late.Acknowledged? && Heeds(seen, late)
      && (seen.status == Starting || row.status == Running) && (seen.health != Healthy || row.health == Healthy)
    case _ => false
  }

  /** A server becomes available exactly by a started or healthy event of its process or by a heeded acknowledgement. */
  lemma BecomesAvailableIff(db: Db, tx: Tx, s: ServerId)
    requires s in db.servers && !db.servers[s].Available()
    ensures s in Commit(db, tx).servers
    ensures Commit(db, tx).servers[s].Available() <==> Serves(db, tx, s)
  {}

  // Moment r of the run shows the row that this unlocked transaction acts on.
  ghost predicate ReadAt(run: Run, r: nat, tx: Tx)
    requires tx.TxLate?
  {
    r < |run.dbs| && tx.s in run.dbs[r].servers && run.dbs[r].servers[tx.s] == tx.seen
  }

  // What an unlocked transaction saw is what it had read before.
  ghost predicate FromRows(run: Run)
    requires |run.dbs| == |run.txs| + 1
  {
    forall k {:trigger run.txs[k]} | 0 <= k < |run.txs| && run.txs[k].TxLate? && run.txs[k].s in run.dbs[k].servers ::
      exists r: nat | r <= k :: ReadAt(run, r, run.txs[k])
  }

  // Transaction k answers for generation g of s: an event of it, or an acknowledgement of it.
  ghost predicate AnswersAt(run: Run, k: nat, s: ServerId, g: int)
    requires |run.dbs| == |run.txs| + 1
  {
    && k < |run.txs| && s in run.dbs[k].servers && Serves(run.dbs[k], run.txs[k], s)
    && (if run.txs[k].TxEvent? then run.txs[k].generation in {None, Some(g)} else GenerationOf(run.txs[k].late) == Some(g))
  }

  // Transaction k is an acknowledgement of an older generation that read its row before the bump to g.
  ghost predicate OverlooksBumpAt(run: Run, k: nat, s: ServerId, g: int)
    requires |run.dbs| == |run.txs| + 1
  {
    && k < |run.txs| && s in run.dbs[k].servers && run.txs[k].TxLate? && Serves(run.dbs[k], run.txs[k], s)
    && run.txs[k].seen.generation < g
  }

  lemma {:induction false} LastUnavailable(run: Run, i: nat, j: nat, s: ServerId) returns (k: nat)
    requires Valid(run) && i < j < |run.dbs| && s in run.dbs[i].servers && s in run.dbs[j].servers
    requires !run.dbs[i].servers[s].Available() && run.dbs[j].servers[s].Available()
    ensures i <= k < j && s in run.dbs[k].servers && !run.dbs[k].servers[s].Available()
    ensures s in run.dbs[k + 1].servers && run.dbs[k + 1].servers[s].Available()
    decreases j
  {
    GenerationsGrow(run, i, j - 1, s);
    if run.dbs[j - 1].servers[s].Available() {
      k := LastUnavailable(run, i, j - 1, s);
    } else {
      k := j - 1;
    }
  }

  /**
   * Within a generation a server comes into service only when its own process has answered, or by
   * an acknowledgement of an older process that overlooked the bump.
   */
  lemma ServedOnlyWhenAnswered(run: Run, i: nat, j: nat, s: ServerId) returns (k: nat)
    requires Valid(run) && FromRows(run) && i < j < |run.dbs| && s in run.dbs[i].servers && s in run.dbs[j].servers
    requires run.dbs[i].servers[s].generation == run.dbs[j].servers[s].generation
    requires !run.dbs[i].servers[s].Available() && run.dbs[j].servers[s].Available()
    ensures i <= k < j
    ensures var g := run.dbs[j].servers[s].generation; AnswersAt(run, k, s, g) || OverlooksBumpAt(run, k, s, g)
  {
    k := LastUnavailable(run, i, j, s);
    GenerationsGrow(run, i, k, s);
    GenerationsGrow(run, k, j, s);
    assert run.dbs[k + 1] == Commit(run.dbs[k], run.txs[k]);
    BecomesAvailableIff(run.dbs[k], run.txs[k], s);
    assert run.dbs[k].servers[s].generation == run.dbs[j].servers[s].generation;
    if run.txs[k].TxLate? {
      var r: nat :| r <= k && ReadAt(run, r, run.txs[k]);
      GenerationsGrow(run, r, k, s);
    } else {
      assert AnswersAt(run, k, s, run.dbs[j].servers[s].generation);
    }
  }

  /** So does a claim: after a bump for a start, no lease is claimed on the server before one of these. */
  lemma ClaimNeedsAnswer(run: Run, i: nat, j: nat, s: ServerId, g: int) returns (k: nat)
    requires Valid(run) && FromRows(run) && i < j < |run.txs| && s in run.dbs[i].servers
    requires run.dbs[i + 1] == StartForRequest(run.dbs[i], s) && run.dbs[i + 1] != run.dbs[i]
    requires g == run.dbs[i].servers[s].generation + 1
    requires run.txs[j].TxClaim? && Claimable(run.dbs[j], run.txs[j].id, s, run.txs[j].now)
    requires run.dbs[j].servers[s].generation == g
    ensures i < k < j && (AnswersAt(run, k, s, g) || OverlooksBumpAt(run, k, s, g))
  {
    assert !run.dbs[i + 1].servers[s].Available();
    k := ServedOnlyWhenAnswered(run, i + 1, j, s);
  }
}
