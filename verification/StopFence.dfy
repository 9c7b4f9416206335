/**
 * The stop fence: a server that was told to stop serves nobody again until its generation
 * is bumped, whatever late events and handles still do, and exactly which acknowledgement
 * breaks it.
 */
module StopFence {
  import opened Common
  import opened Leases
  import opened LeaseLifecycle
  import opened LeaseRuns

  predicate Down(row: ServerRow) {
    row.status != Starting && row.status != Running
  }

  // An acknowledgement that read the server while it was starting, before it went down.
  predicate Revives(tx: Tx, s: ServerId) {
    && tx.TxLate? && tx.s == s && tx.late.Acknowledged?
    && tx.seen.status == Starting && Wanted(tx.seen, tx.late).status == Running
  }

  /** Within a generation a down server comes back exactly through an acknowledgement that overlooked it going down. */
  lemma OnlyOverlookedStopsRevive(db: Db, tx: Tx, s: ServerId)
    requires s in db.servers && Down(db.servers[s])
    ensures s in Commit(db, tx).servers
    ensures Commit(db, tx).servers[s].generation == db.servers[s].generation ==>
              (Down(Commit(db, tx).servers[s]) <==> !Revives(tx, s))
  {}

  lemma {:induction false} DownUntilBumped(run: Run, i: nat, j: nat, s: ServerId)
    requires Valid(run) && i <= j < |run.dbs| && s in run.dbs[i].servers && Down(run.dbs[i].servers[s])
    requires forall k {:trigger run.txs[k]} | i <= k < j :: !Revives(run.txs[k], s)
    ensures s in run.dbs[j].servers && run.dbs[i].servers[s].generation <= run.dbs[j].servers[s].generation
    ensures run.dbs[j].servers[s].generation == run.dbs[i].servers[s].generation ==> Down(run.dbs[j].servers[s])
    decreases j
  {
    if i < j {
      DownUntilBumped(run, i, j - 1, s);
      GenerationStep(run.dbs[j - 1], run.txs[j - 1], s);
      if run.dbs[j - 1].servers[s].generation == run.dbs[i].servers[s].generation {
        OnlyOverlookedStopsRevive(run.dbs[j - 1], run.txs[j - 1], s);
      }
    }
  }

  /**
   * From the moment a server is down, and while no acknowledgement that overlooked it commits, no
   * lease is claimed on it, finalized for it or renewed on it under that generation again; only a
   * newer generation is ever served.
   */
  lemma StoppedGenerationIsDead(run: Run, i: nat, j: nat, s: ServerId)
    requires Valid(run) && i <= j < |run.txs| && s in run.dbs[i].servers && Down(run.dbs[i].servers[s])
    requires forall k {:trigger run.txs[k]} | i <= k < j :: !Revives(run.txs[k], s)
    ensures var g, tx, db := run.dbs[i].servers[s].generation, run.txs[j], run.dbs[j];
            && (tx.TxClaim? && tx.s == s && Claimable(db, tx.id, s, tx.now) ==>
                  Commit(db, tx).leases[tx.id].generation.Some? && Commit(db, tx).leases[tx.id].generation.value > g)
            && (tx.TxFinalize? && tx.s == s && Finalizable(db, tx.id, s, tx.g, tx.attempt, tx.now) ==> tx.g > g)
            && (tx.TxRenew? && tx.s == s && Renewable(db, tx.id, s, tx.g) ==> tx.g > g)
  {
    DownUntilBumped(run, i, j, s);
  }

  /** The acknowledgement reads a starting server, a stop commits, the acknowledgement writes: the server serves on. */
  lemma AcknowledgementOverwritesStop(db: Db, s: ServerId, now: Time)
    requires s in db.servers && db.servers[s].status == Starting && db.servers[s].health == Unknown
    ensures var seen := db.servers[s];
            var stopped := RequestStop(db, s, true, now);
            var after := LateWrite(stopped, s, seen, Acknowledged(seen.generation, None, None, now));
            && Down(stopped.servers[s])
            && after.servers[s].Available() && after.servers[s].generation == seen.generation
  {}

  // Leases other than the active ones of s, and other servers, are as before.
  ghost predicate OnlyEnds(db: Db, b: Db, s: ServerId) {
    && b.leases.Keys == db.leases.Keys && b.servers.Keys == db.servers.Keys
    && (forall id | id in db.leases ::
          if db.leases[id].server == Some(s) && db.leases[id].status == Active
          then b.leases[id].status == Failed && EndsAs(db.leases[id], b.leases[id])
          else b.leases[id] == db.leases[id])
    && (forall z | z in db.servers && z != s :: b.servers[z] == db.servers[z])
  }

  /** A stop is refused exactly when it is not forced and a lease is active; otherwise it fences and empties the server. */
  lemma StopFencesAndEmpties(db: Db, s: ServerId, force: bool, now: Time)
    requires s in db.servers
    ensures var b := RequestStop(db, s, force, now);
            if !force && exists id :: id in ActiveOn(db, s) then b == db
            else b.servers[s].status == Stopping && ActiveOn(b, s) == {} && OnlyEnds(db, b, s)
  {
    if !Stoppable(db, s, force) {
      var id :| id in ActiveOn(db, s);
    }
  }

  /** An error, a stop or an unhealthy report of the live process leaves its server unavailable and without active leases. */
  lemma EventEmptiesServer(db: Db, s: ServerId, agent: AgentId, g: Option<int>, e: AgentEvent, now: Time)
    requires Matches(db, s, agent, g) && Invalidates(e)
    ensures var b := HandleEvent(db, s, agent, g, e, now);
            !b.servers[s].Available() && ActiveOn(b, s) == {} && OnlyEnds(db, b, s)
            && b.servers[s].generation == db.servers[s].generation
  {}
}
