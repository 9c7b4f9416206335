/**
 * Who is admitted, in terms of the columns of lease and server rows alone: when a claim
 * succeeds, whom it prefers, and what the head of a queue is.
 */
module Admission {
  import opened Common
  import opened Leases

  /**
   * A lease is claimed exactly when its server is running, healthy and did not start within the last
   * 3 seconds, fewer leases fill its generation than it has slots, and the lease is the oldest of
   * the waiting ones that ask for its model and name no other server and no other agent.
   */
  lemma ClaimSucceedsIff(db: Db, id: LeaseId, s: ServerId, now: Time)
    ensures Claimable(db, id, s, now) <==>
            && id in db.leases && s in db.servers
            && var row, l := db.servers[s], db.leases[id];
               && row.status == Running && row.health == Healthy
               && (row.startedAt.Some? ==> now < row.startedAt.value || row.startedAt.value + 3_000 <= now)
               && |set j | j in db.leases && db.leases[j].server == Some(s) && db.leases[j].generation == Some(row.generation)
                           && (db.leases[j].status == Reserving
                               || (db.leases[j].status == Active && db.leases[j].expiresAt > now))|
                  < (if row.effectiveCapacity > 1 then row.effectiveCapacity else 1)
               && l.status == Queued && l.expiresAt > now
               && l.model == row.model
               && (l.preferred == None || l.preferred == Some(s))
               && (l.requiredAgent == None || l.requiredAgent == Some(row.agent))
               && forall j | j in db.leases && j != id
                             && (db.leases[j].status == Queued || db.leases[j].status == Reserving)
                             && db.leases[j].expiresAt > now
                             && db.leases[j].model == row.model
                             && (db.leases[j].preferred == None || db.leases[j].preferred == Some(s))
                             && (db.leases[j].requiredAgent == None || db.leases[j].requiredAgent == Some(row.agent)) ::
                    l.queuedAt < db.leases[j].queuedAt || (l.queuedAt == db.leases[j].queuedAt && id < j)
  {
    if id in db.leases && s in db.servers {
      var filling := set j | j in db.leases && db.leases[j].server == Some(s)
                             && db.leases[j].generation == Some(db.servers[s].generation)
                             && (db.leases[j].status == Reserving
                                 || (db.leases[j].status == Active && db.leases[j].expiresAt > now));
      assert filling == Occupants(db, s, now);
    }
  }

  /** A lease that names another server is not claimed here, and however long it waits makes no difference to any other. */
  lemma PinnedElsewhereIsPassed(db: Db, pinned: LeaseId, id: LeaseId, s: ServerId, now: Time, t: Time)
    requires pinned in db.leases && db.leases[pinned].preferred.Some? && db.leases[pinned].preferred.value != s
    requires pinned != id
    ensures !Claimable(db, pinned, s, now)
    ensures var b := db.(leases := db.leases[pinned := db.leases[pinned].(queuedAt := t)]);
            Claimable(db, id, s, now) <==> Claimable(b, id, s, now)
  {
    var b := db.(leases := db.leases[pinned := db.leases[pinned].(queuedAt := t)]);
    if s in db.servers {
      assert Occupants(b, s, now) == Occupants(db, s, now);
      assert forall j :: Competes(b, s, j, now) <==> Competes(db, s, j, now);
    }
  }

  // Server 7 is free; the older lease waits for server 5 only.
  const FREE := ServerRow(0, 0, Running, Healthy, 1, 1, None)
  const PINNED := Lease(1, 0, Some(5), None, 0, 1_000, Queued, None, None, None, None, None, None, None)
  const OPEN := Lease(2, 0, None, None, 1, 1_000, Queued, None, None, None, None, None, None, None)

  lemma PinnedElsewhereExample()
    ensures var db := Db(map[1 := PINNED, 2 := OPEN], map[7 := FREE]);
            Claimable(db, 2, 7, 10) && !Claimable(db, 1, 7, 10)
  {
    var db := Db(map[1 := PINNED, 2 := OPEN], map[7 := FREE]);
    assert Occupants(db, 7, 10) == {};
  }
}
