/**
 * The scheduler's transactions and the server event handlers, as methods that update
 * the lease and server tables in place. Each is proved equal to its transaction in Leases.
 */
module Scheduling {
  import opened Common
  import opened Leases
  import opened Reconciliation

  datatype StartOutcome = ServerGone | AgentOffline | Joined | Started(generation: int)

  class LeaseTables {
    var leases: map<LeaseId, Lease>
    var servers: map<ServerId, ServerRow>

    ghost function State(): Db
      reads this
    {
      Db(leases, servers)
    }

    constructor (db: Db)
      ensures State() == db
    {
      leases, servers := db.leases, db.servers;
    }

    // The count(*) of the claim.
    method CountOccupied(s: ServerId, now: Time) returns (occupied: nat)
      requires s in servers
      ensures occupied == |Occupants(State(), s, now)|
    {
      occupied := 0;
      var left := leases.Keys;
      ghost var counted: set<LeaseId> := {};
      while left != {}
        invariant left <= leases.Keys && counted !! left
        invariant forall id | id in leases && id !in left :: id in counted <==> Occupies(State(), s, id, now)
        invariant counted <= leases.Keys
        invariant occupied == |counted|
        decreases left
      {
        var id :| id in left;
        left := left - {id};
        var l := leases[id];
        if l.server == Some(s) && l.generation == Some(servers[s].generation)
           && (l.status == Reserving || (l.status == Active && l.expiresAt > now)) {
          occupied := occupied + 1;
          counted := counted + {id};
        }
      }
      assert counted == Occupants(State(), s, now);
    }

    // ORDER BY queued_at, id LIMIT 1 over the compatible leases.
    method OldestCompatible(s: ServerId, now: Time) returns (head: Option<LeaseId>)
      requires s in servers
      ensures head.Some? ==> IsHead(State(), s, head.value, now)
      ensures head.None? ==> forall id | id in leases :: !Competes(State(), s, id, now)
    {
      head := None;
      var left := leases.Keys;
      while left != {}
        invariant left <= leases.Keys
        invariant head.None? ==> forall id | id in leases && id !in left :: !Competes(State(), s, id, now)
        invariant head.Some? ==> head.value !in left && Competes(State(), s, head.value, now)
        invariant head.Some? ==> forall id | id in leases && id !in left && id != head.value && Competes(State(), s, id, now) ::
                                   Older(leases[head.value], head.value, leases[id], id)
        decreases left
      {
        var id :| id in left;
        left := left - {id};
        if Competes(Db(leases, servers), s, id, now)
           && (head.None? || Older(leases[id], id, leases[head.value], head.value)) {
          head := Some(id);
        }
      }
    }

    // _claim, first transaction. `admitted` is the shared benchmark lock.
    method Claim(id: LeaseId, s: ServerId, attempt: Attempt, now: Time, admitted: bool) returns (claimed: bool)
      modifies this`leases
      ensures claimed <==> admitted && Claimable(old(State()), id, s, now)
      ensures State() == if claimed then Leases.Claim(old(State()), id, s, attempt, now) else old(State())
      ensures claimed ==>
                && id in old(leases) && s in servers
                && leases == old(leases)[id := old(leases)[id].(
                     status := Reserving, server := Some(s), generation := Some(servers[s].generation),
                     attempt := Some(attempt), reservationExpires := Some(now + 12_000))]
    {
      if !admitted || !(s in servers) || !servers[s].Available() {
        return false;
      }
      var locked := servers[s];
      if locked.startedAt.Some? {
        var readyFor := now - locked.startedAt.value;
        if 0 <= readyFor < SERVER_READY_COOLDOWN {
          return false;
        }
      }
      var occupied := CountOccupied(s, now);
      if occupied >= locked.Capacity() {
        return false;
      }
      var oldest := OldestCompatible(s, now);
      HeadUnique(State(), s, now);
      if oldest != Some(id) || leases[id].status != Queued {
        return false;
      }
      var l := leases[id].(status := Reserving);
      l := l.(server := Some(s), generation := Some(locked.generation));
      leases := leases[id := l.(attempt := Some(attempt), reservationExpires := Some(now + RESERVATION_RECOVERY))];
      return true;
    }

    // finalize
    method Finalize(id: LeaseId, s: ServerId, g: int, attempt: Attempt, now: Time) returns (committed: bool)
      modifies this`leases
      ensures committed == Finalizable(old(State()), id, s, g, attempt, now)
      ensures State() == Leases.Finalize(old(State()), id, s, g, attempt, now)
      ensures committed <==>
                && s in servers && servers[s].status == Running && servers[s].health == Healthy && servers[s].generation == g
                && id in old(leases) && old(leases)[id].status == Reserving && old(leases)[id].attempt == Some(attempt)
                && old(leases)[id].expiresAt > now
                && old(leases)[id].reservationExpires.Some? && old(leases)[id].reservationExpires.value > now
      ensures committed ==>
                leases == old(leases)[id := old(leases)[id].(status := Active, startedAt := Some(now),
                                                             expiresAt := now + 90_000, reservationExpires := None)]
    {
      if !(s in servers) || servers[s].status != Running || servers[s].health != Healthy || servers[s].generation != g
         || !(id in leases) || leases[id].status != Reserving || leases[id].attempt != Some(attempt)
         || leases[id].expiresAt <= now
         || leases[id].reservationExpires.None? || leases[id].reservationExpires.value <= now {
        return false;
      }
      var l := leases[id].(status := Active);
      l := l.(startedAt := Some(now));
      l := l.(expiresAt := now + ACTIVE_LEASE_TTL);
      leases := leases[id := l.(reservationExpires := None)];
      return true;
    }

    // cleanup, its two statements
    method Cleanup(id: LeaseId, attempt: Attempt, now: Time)
      modifies this`leases
      ensures State() == Leases.Cleanup(old(State()), id, attempt, now)
      ensures leases ==
                if id !in old(leases) || old(leases)[id].attempt != Some(attempt) then old(leases)
                else if old(leases)[id].status == Active then
                  old(leases)[id := old(leases)[id].(status := Cancelled, reason := Some(RequestAbandoned), releasedAt := Some(now))]
                else if old(leases)[id].status == Reserving then
                  old(leases)[id := old(leases)[id].(status := Queued, attempt := None, reservationExpires := None,
                                                     server := None, generation := None)]
                else old(leases)
    {
      if id in leases && leases[id].status == Active && leases[id].attempt == Some(attempt) {
        leases := leases[id := leases[id].Ended(Cancelled, RequestAbandoned, now)];
      }
      if id in leases && leases[id].status == Reserving && leases[id].attempt == Some(attempt) {
        leases := leases[id := leases[id].Requeued()];
      }
    }

    method EnsureQueued(id: LeaseId, now: Time) returns (check: QueueCheck)
      modifies this`leases
      ensures check == CheckQueued(old(State()), id, now)
      ensures State() == Leases.EnsureQueued(old(State()), id, now)
      ensures check.NotYet? <==>
                id in old(leases) && old(leases)[id].status == Reserving
                && old(leases)[id].reservationExpires.Some? && old(leases)[id].reservationExpires.value > now
      ensures check.Ready? <==>
                id in old(leases)
                && (|| old(leases)[id].status == Queued
                    || (old(leases)[id].status == Reserving
                        && old(leases)[id].reservationExpires.Some? && old(leases)[id].reservationExpires.value <= now))
      ensures leases ==
                if check.Ready? && old(leases)[id].status == Reserving then
                  old(leases)[id := old(leases)[id].(status := Queued, attempt := None, reservationExpires := None,
                                                     server := None, generation := None)]
                else old(leases)
    {
      if id in leases && leases[id].status == Reserving && leases[id].reservationExpires.Some? {
        if leases[id].reservationExpires.value > now {
          return NotYet;
        }
        leases := leases[id := leases[id].Requeued()];
      }
      if !(id in leases) || leases[id].status != Queued {
        return Lost;
      }
      return Ready;
    }

    method FinishQueued(id: LeaseId, status: LeaseStatus, why: Reason, now: Time) returns (updated: bool)
      modifies this`leases
      ensures updated <==> id in old(leases) && old(leases)[id].status in {Queued, Reserving}
      ensures State() == Leases.FinishQueued(old(State()), id, status, why, now)
      ensures leases ==
                if updated
                then old(leases)[id := old(leases)[id].(status := status, reason := Some(why), releasedAt := Some(now))]
                else old(leases)
    {
      updated := id in leases && leases[id].status in {Queued, Reserving};
      if updated {
        leases := leases[id := leases[id].Ended(status, why, now)];
      }
    }

    // _queue: request_id is unique.
    method QueueRequest(id: LeaseId, request: RequestId, model: ModelId, preferred: Option<ServerId>,
                        requiredAgent: Option<AgentId>, queuedAt: Time, deadline: Time) returns (queued: bool)
      modifies this`leases
      ensures State() == Enqueue(old(State()), id, request, model, preferred, requiredAgent, queuedAt, deadline)
      ensures queued <==> id !in old(leases) && forall j | j in old(leases) :: old(leases)[j].request != request
      ensures leases ==
                if queued
                then old(leases)[id := Lease(request, model, preferred, requiredAgent, queuedAt, deadline,
                                             Queued, None, None, None, None, None, None, None)]
                else old(leases)
    {
      if id in leases || (exists j | j in leases :: leases[j].request == request) {
        return false;
      }
      leases := leases[id := Lease(request, model, preferred, requiredAgent, queuedAt, deadline,
                                   Queued, None, None, None, None, None, None, None)];
      return true;
    }

    // clear_queue
    method ClearQueue(now: Time)
      modifies this`leases
      ensures State() == Leases.ClearQueue(old(State()), now)
      ensures leases == map j | j in old(leases) ::
                if old(leases)[j].status == Queued || old(leases)[j].status == Reserving
                then old(leases)[j].(status := Cancelled, reason := Some(QueueCleared), releasedAt := Some(now))
                else old(leases)[j]
    {
      leases := map j | j in leases ::
        if leases[j].status in {Queued, Reserving} then leases[j].Ended(Cancelled, QueueCleared, now) else leases[j];
    }

    // InferenceLeaseHandle.release, cancel and _mark_cancelled
    method EndActive(id: LeaseId, g: int, status: LeaseStatus, why: Reason, now: Time) returns (updated: bool)
      modifies this`leases
      ensures updated == Endable(old(State()), id, g)
      ensures State() == Leases.EndActive(old(State()), id, g, status, why, now)
      ensures updated <==> id in old(leases) && old(leases)[id].status == Active && old(leases)[id].generation == Some(g)
      ensures leases ==
                if updated
                then old(leases)[id := old(leases)[id].(status := status, reason := Some(why), releasedAt := Some(now))]
                else old(leases)
    {
      updated := id in leases && leases[id].status == Active && leases[id].generation == Some(g);
      if updated {
        leases := leases[id := leases[id].Ended(status, why, now)];
      }
    }

    // One turn of _renew_loop; false means the handle sets `lost`.
    method Renew(id: LeaseId, s: ServerId, g: int, now: Time) returns (kept: bool)
      modifies this`leases
      ensures kept == Renewable(old(State()), id, s, g)
      ensures State() == Leases.Renew(old(State()), id, s, g, now)
      ensures kept <==>
                && s in servers && servers[s].status == Running && servers[s].health == Healthy && servers[s].generation == g
                && id in old(leases) && old(leases)[id].status == Active && old(leases)[id].generation == Some(g)
      ensures leases == if kept then old(leases)[id := old(leases)[id].(expiresAt := now + 90_000)] else old(leases)
    {
      var healthy := s in servers && servers[s].status == Running && servers[s].health == Healthy && servers[s].generation == g;
      kept := healthy && id in leases && leases[id].status == Active && leases[id].generation == Some(g);
      if kept {
        leases := leases[id := leases[id].(expiresAt := now + ACTIVE_LEASE_TTL)];
      }
    }

    // ------------------------------------------------------- server lifecycle

    // request_server_stop up to its message to the agent; returns the fenced generation.
    method RequestServerStop(s: ServerId, force: bool, now: Time) returns (fenced: Option<int>)
      modifies this
      ensures fenced.Some? <==> Stoppable(old(State()), s, force)
      ensures fenced.Some? ==> fenced.value == old(servers)[s].generation
      ensures State() == RequestStop(old(State()), s, force, now)
      ensures fenced.Some? <==>
                s in old(servers)
                && (force || forall id | id in old(leases) :: !(old(leases)[id].server == Some(s) && old(leases)[id].status == Active))
      ensures fenced.None? ==> leases == old(leases) && servers == old(servers)
      ensures fenced.Some? ==>
                && servers == old(servers)[s := old(servers)[s].(status := Stopping, health := Unknown)]
                && leases == map id | id in old(leases) ::
                     if old(leases)[id].server == Some(s) && old(leases)[id].status == Active
                     then old(leases)[id].(status := Failed, reason := Some(StopRequested), releasedAt := Some(now))
                     else old(leases)[id]
    {
      if !(s in servers) {
        return None;
      }
      var active := set id | id in leases && leases[id].server == Some(s) && leases[id].status == Active;
      if active != {} && !force {
        return None;
      }
      servers := servers[s := servers[s].(status := Stopping, health := Unknown)];
      assert active == ActiveOn(old(State()), s);
      if active != {} {
        leases := InvalidateServerLeases(leases, s, StopRequested, now);
      } else {
        assert forall id | id in leases :: id !in active;
        assert leases == InvalidateServerLeases(leases, s, StopRequested, now);
      }
      return Some(servers[s].generation);
    }

    // reserve_server_start: None when the server is gone or busy.
    method ReserveServerStart(s: ServerId) returns (generation: Option<int>)
      modifies this`servers
      ensures generation.Some? <==> s in old(servers) && !(old(servers)[s].status in {Starting, Running, Stopping})
      ensures generation.Some? ==> s in servers && generation == Some(servers[s].generation)
      ensures State() == ReserveStart(old(State()), s)
      ensures servers ==
                if generation.Some?
                then old(servers)[s := old(servers)[s].(generation := old(servers)[s].generation + 1, status := Starting,
                                                        health := Unknown, startedAt := None)]
                else old(servers)
    {
      if !(s in servers) || servers[s].status in {Starting, Running, Stopping} {
        return None;
      }
      var row := servers[s].(generation := servers[s].generation + 1);
      row := row.(status := Starting, health := Unknown);
      servers := servers[s := row.(startedAt := None)];
      return Some(row.generation);
    }

    // request_server_stop after the agent stopped the server.
    method SettleServerStop(s: ServerId, g: int)
      modifies this`servers
      ensures State() == SettleStop(old(State()), s, g)
      ensures servers ==
                if s in old(servers) && old(servers)[s].generation == g && old(servers)[s].status == Stopping
                then old(servers)[s := old(servers)[s].(status := Stopped, health := Unknown)]
                else old(servers)
    {
      if s in servers && servers[s].generation == g && servers[s].status == Stopping {
        var row := servers[s].(health := Unknown);
        servers := servers[s := row.(status := Stopped)];
      }
    }

    // A commit of what an unlocked transaction made of the row it had read: the changed columns only.
    method Flush(s: ServerId, seen: ServerRow, wanted: ServerRow)
      modifies this`servers
      ensures servers == if s in old(servers) then old(servers)[s := Overwritten(old(servers)[s], seen, wanted)] else old(servers)
    {
      if s in servers {
        var row := servers[s];
        if wanted.status != seen.status {
          row := row.(status := wanted.status);
        }
        if wanted.health != seen.health {
          row := row.(health := wanted.health);
        }
        if wanted.startedAt != seen.startedAt {
          row := row.(startedAt := wanted.startedAt);
        }
        if wanted.effectiveCapacity != seen.effectiveCapacity {
          row := row.(effectiveCapacity := wanted.effectiveCapacity);
        }
        servers := servers[s := row];
      }
    }

    // request_server_stop when the agent could not be told, on the row it reads for that.
    method FailServerStop(s: ServerId, seen: ServerRow, g: int)
      modifies this`servers
      ensures State() == LateWrite(old(State()), s, seen, StopFailed(g))
      ensures servers ==
                if s in old(servers) && seen.generation == g && seen.status == Stopping
                then old(servers)[s := old(servers)[s].(status := Errored,
                                                        health := if seen.health == Unknown then old(servers)[s].health else Unknown)]
                else old(servers)
    {
      var row := seen;
      if seen.generation == g && seen.status == Stopping {
        row := row.(status := Errored);
        row := row.(health := Unknown);
      }
      Flush(s, seen, row);
    }

    // ensure_server_ready under the row lock: join a startup in progress, or bump and start.
    method StartOrJoin(s: ServerId, online: bool) returns (outcome: StartOutcome)
      modifies this`servers
      ensures outcome == if s !in old(servers) then ServerGone
                         else if old(servers)[s].status in {Starting, Running} then Joined
                         else if !online then AgentOffline
                         else Started(old(servers)[s].generation + 1)
      ensures State() == if outcome.Started? then StartForRequest(old(State()), s) else old(State())
      ensures outcome.Started? ==> s in servers && servers[s].generation == outcome.generation
      ensures servers ==
                if outcome.Started?
                then old(servers)[s := old(servers)[s].(generation := outcome.generation, status := Starting,
                                                        health := Unknown, startedAt := None)]
                else old(servers)
    {
      if !(s in servers) {
        return ServerGone;
      }
      if servers[s].status in {Starting, Running} {
        return Joined;
      }
      if !online {
        return AgentOffline;
      }
      var row := servers[s].(generation := servers[s].generation + 1);
      row := row.(status := Starting, health := Unknown);
      servers := servers[s := row.(startedAt := None)];
      return Started(row.generation);
    }

    // dispatch_start on the agent's answer, on the row it reads without a lock.
    method DispatchAcknowledged(s: ServerId, seen: ServerRow, expected: int, reported: Option<int>,
                                capacity: Option<int>, now: Time)
      modifies this`servers
      ensures State() == LateWrite(old(State()), s, seen, Acknowledged(expected, reported, capacity, now))
      ensures servers ==
                if s in old(servers) && seen.status in {Starting, Running} && seen.generation == expected
                   && (reported.None? || reported == Some(expected)) then
                  var row := old(servers)[s];
                  var slots := if capacity.None? then seen.effectiveCapacity else if capacity.value > 1 then capacity.value else 1;
                  old(servers)[s := row.(
                    status := if seen.status == Starting then Running else row.status,
                    health := if seen.health == Healthy then row.health else Healthy,
                    startedAt := if seen.startedAt.None? then Some(now) else row.startedAt,
                    effectiveCapacity := if slots != seen.effectiveCapacity then slots else row.effectiveCapacity)]
                else old(servers)
    {
      var row := seen;
      if seen.status in {Starting, Running} && seen.generation == expected && (reported.None? || reported.value == expected) {
        row := row.(status := Running);
        row := row.(health := Healthy);
        if row.startedAt.None? {
          row := row.(startedAt := Some(now));
        }
        if capacity.Some? {
          row := row.(effectiveCapacity := Max(capacity.value, 1));
        }
      }
      Flush(s, seen, row);
    }

    // dispatch_start when the agent refused, and when the connection to it was lost.
    method DispatchFailed(s: ServerId, seen: ServerRow, expected: int, lost: bool)
      modifies this`servers
      ensures State() == LateWrite(old(State()), s, seen, if lost then StartLost(expected) else StartFailed(expected))
      ensures servers ==
                if s !in old(servers) || seen.generation != expected || seen.status != Starting then old(servers)
                else if !lost then old(servers)[s := old(servers)[s].(status := Errored)]
                else if seen.health != Unknown then old(servers)[s := old(servers)[s].(health := Unknown)]
                else old(servers)
    {
      var row := seen;
      if seen.generation == expected && seen.status == Starting {
        if lost {
          row := row.(health := Unknown);
        } else {
          row := row.(status := Errored);
        }
      }
      Flush(s, seen, row);
    }

    // The status writes of initialize_server and of a benchmark, on the row each read without a lock.
    method SetServerStatus(s: ServerId, seen: ServerRow, status: ServerStatus)
      requires status in {Preparing, MetadataGathering, InitializationFailed, Stopped}
      modifies this`servers
      ensures State() == LateWrite(old(State()), s, seen, StatusSet(status))
      ensures servers ==
                if s in old(servers)
                then old(servers)[s := old(servers)[s].(status := if seen.status != status then status else old(servers)[s].status,
                                                        health := if seen.health != Unknown then Unknown else old(servers)[s].health)]
                else old(servers)
    {
      var row := seen.(status := status);
      row := row.(health := Unknown);
      Flush(s, seen, row);
    }

    // initialize_server, its bump.
    method BumpForInitialization(s: ServerId) returns (generation: Option<int>)
      modifies this`servers
      ensures State() == Leases.BumpForInitialization(old(State()), s)
      ensures generation == if s in old(servers) then Some(old(servers)[s].generation + 1) else None
      ensures servers == if s in old(servers) then old(servers)[s := old(servers)[s].(generation := generation.value)] else old(servers)
    {
      if !(s in servers) {
        return None;
      }
      servers := servers[s := servers[s].(generation := servers[s].generation + 1)];
      return Some(servers[s].generation);
    }

    // _mark_agent_servers_unavailable, on the servers it found starting or running.
    method MarkAgentServersUnavailable(lost: set<ServerId>, now: Time)
      modifies this
      ensures State() == MarkUnavailable(old(State()), lost, now)
      ensures servers == map s | s in old(servers) ::
                if s in lost then old(servers)[s].(status := Stopped, health := Unknown) else old(servers)[s]
      ensures leases == map id | id in old(leases) ::
                if old(leases)[id].status == Active && old(leases)[id].server.Some? && old(leases)[id].server.value in lost
                then old(leases)[id].(status := Failed, reason := Some(ServerUnavailable), releasedAt := Some(now))
                else old(leases)[id]
    {
      servers := map s | s in servers ::
        if s in lost then servers[s].(status := Stopped, health := Unknown) else servers[s];
      ghost var was, marked := leases, servers;
      var left := lost;
      ghost var done: set<ServerId> := {};
      assert FailLost(was, {}, now) == was;
      while left != {}
        invariant done !! left && done + left == lost
        invariant servers == marked && leases == FailLost(was, done, now)
        decreases left
      {
        var s :| s in left;
        left := left - {s};
        LostOneMore(was, done, s, now);
        leases := InvalidateServerLeases(leases, s, ServerUnavailable, now);
        done := done + {s};
      }
      assert done == lost;
    }

    // The four server event handlers, each behind _matching_server.
    method HandleServerEvent(s: ServerId, agent: AgentId, g: Option<int>, e: AgentEvent, now: Time) returns (matched: bool)
      modifies this
      ensures matched == Matches(old(State()), s, agent, g)
      ensures State() == HandleEvent(old(State()), s, agent, g, e, now)
      ensures matched <==>
                s in old(servers) && old(servers)[s].agent == agent && (g.Some? ==> old(servers)[s].generation == g.value)
      ensures !matched ==> leases == old(leases) && servers == old(servers)
      ensures matched && e.ServerError? ==>
                servers == old(servers)[s := old(servers)[s].(status := Errored, health := Unhealthy)]
      ensures matched && e.HealthChanged? ==>
                servers == old(servers)[s := old(servers)[s].(
                  health := if e.healthy then Healthy else Unhealthy,
                  status := if e.healthy && old(servers)[s].status == Starting then Running else old(servers)[s].status)]
      ensures matched && e.ServerStarted? ==>
                var row := old(servers)[s];
                servers == old(servers)[s :=
                  if row.status != Starting && row.status != Running then row
                  else row.(
                    status := Running, health := Healthy,
                    startedAt := if row.startedAt.None? then Some(now) else row.startedAt,
                    effectiveCapacity := if e.capacity.None? then row.effectiveCapacity
                                         else if e.capacity.value > 1 then e.capacity.value else 1)]
      ensures matched && e.ServerStopped? ==>
                servers == old(servers)[s := old(servers)[s].(
                  health := Unknown,
                  status := if old(servers)[s].status in {Preparing, MetadataGathering} then old(servers)[s].status else Stopped)]
      ensures matched && !(e == ServerError || e == ServerStopped || e == HealthChanged(false)) ==> leases == old(leases)
      ensures matched && (e == ServerError || e == ServerStopped || e == HealthChanged(false)) ==>
                leases == map id | id in old(leases) ::
                  if old(leases)[id].server == Some(s) && old(leases)[id].status == Active
                  then old(leases)[id].(status := Failed, reason := Some(ServerUnavailable), releasedAt := Some(now))
                  else old(leases)[id]
    {
      if !(s in servers) || servers[s].agent != agent || (g.Some? && servers[s].generation != g.value) {
        return false;
      }
      var row := servers[s];
      match e {
        case ServerError =>
          row := row.(status := Errored, health := Unhealthy);
          leases := InvalidateServerLeases(leases, s, ServerUnavailable, now);
        case HealthChanged(healthy) =>
          row := row.(health := if healthy then Healthy else Unhealthy);
          if healthy && row.status == Starting {
            row := row.(status := Running);
          }
          if !healthy {
            leases := InvalidateServerLeases(leases, s, ServerUnavailable, now);
          }
        case ServerStarted(capacity) =>
          if row.status in {Starting, Running} {
            row := row.(status := Running, health := Healthy);
            if capacity.Some? {
              row := row.(effectiveCapacity := Max(capacity.value, 1));
            }
            if row.startedAt.None? {
              row := row.(startedAt := Some(now));
            }
          }
        case ServerStopped =>
          if !(row.status in {Preparing, MetadataGathering}) {
            row := row.(status := Stopped);
          }
          row := row.(health := Unknown);
          leases := InvalidateServerLeases(leases, s, ServerUnavailable, now);
      }
      servers := servers[s := row];
      return true;
    }

    // --------------------------------------------------------- reconciliation

    method SettleReservations(now: Time)
      modifies this`leases
      ensures leases == map id | id in old(leases) :: ExpireReservation(AbandonReservation(old(leases)[id], now), now)
    {
      leases := map id | id in leases :: AbandonReservation(leases[id], now);
      leases := map id | id in leases :: ExpireReservation(leases[id], now);
    }

    method SettleQueueAndGenerations(oldGeneration: set<LeaseId>, now: Time)
      modifies this`leases
      ensures leases == map id | id in old(leases) ::
                FailOldGeneration(ExpireQueued(old(leases)[id], now), id in oldGeneration, now)
    {
      leases := map id | id in leases :: ExpireQueued(leases[id], now);
      leases := map id | id in leases :: FailOldGeneration(leases[id], id in oldGeneration, now);
    }

    method SettleAnswered(verdicts: map<LeaseId, Verdict>, now: Time)
      modifies this`leases
      ensures leases == map id | id in old(leases) ::
                Closed(ExtendLive(old(leases)[id], Verdicts(verdicts, id), now), Verdicts(verdicts, id), |closings|, now)
    {
      leases := map id | id in leases :: ExtendLive(leases[id], Verdicts(verdicts, id), now);
      ghost var extended := leases;
      for k := 0 to |closings|
        invariant leases == map id | id in extended :: Closed(extended[id], Verdicts(verdicts, id), k, now)
      {
        leases := map id | id in leases :: CloseReported(leases[id], Verdicts(verdicts, id), closings[k], now);
      }
    }

    // Every statement before the per-server loop, in the order they run.
    method SettleRows(oldGeneration: set<LeaseId>, verdicts: map<LeaseId, Verdict>, now: Time)
      modifies this`leases
      ensures leases == map id | id in old(leases) ::
                BeforeServers(old(leases)[id], id in oldGeneration, Verdicts(verdicts, id), now)
    {
      SettleReservations(now);
      SettleQueueAndGenerations(oldGeneration, now);
      SettleAnswered(verdicts, now);
    }

    // Lock one server, fail what it can no longer serve, and fence it if it is unavailable.
    method FailOnServer(s: ServerId, now: Time)
      requires s in servers
      modifies this
      ensures leases == map id | id in old(leases) :: FailOn(old(leases)[id], s, old(servers)[s], now)
      ensures servers == old(servers)[s := Fence(old(servers)[s], AnyFails(old(leases), s, old(servers)[s], now))]
    {
      var row := servers[s];
      var failed := set id | id in leases && FailsOn(leases[id], s, row, now);
      assert AnyFails(leases, s, row, now) <==> failed != {} by {
        if AnyFails(leases, s, row, now) {
          var id :| id in leases && FailsOn(leases[id], s, row, now);
          assert id in failed;
        }
      }
      leases := map id | id in leases :: FailOn(leases[id], s, row, now);
      if failed == {} {
        assert servers == servers[s := row];
        return;
      }
      if !row.Available() && row.status in {Running, Starting} {
        servers := servers[s := row.(status := Stopping)];
      } else {
        assert servers == servers[s := row];
      }
    }

    // The loop over the servers of the stale leases.
    method FailOnServers(locked: set<ServerId>, now: Time)
      requires locked <= servers.Keys
      modifies this
      ensures leases == map id | id in old(leases) :: AfterServers(old(leases)[id], old(servers), locked, now)
      ensures servers == map s | s in old(servers) ::
                Fence(old(servers)[s], s in locked && AnyFails(old(leases), s, old(servers)[s], now))
    {
      ghost var was := State();
      var left := locked;
      ghost var done: set<ServerId> := {};
      while left != {}
        invariant done !! left && done + left == locked
        invariant leases == map id | id in was.leases :: AfterServers(was.leases[id], was.servers, done, now)
        invariant servers == map s | s in was.servers ::
                    Fence(was.servers[s], s in done && AnyFails(was.leases, s, was.servers[s], now))
        decreases left
      {
        var s :| s in left;
        left := left - {s};
        OneMoreServer(was, s, done, now);
        FailOnServer(s, now);
        done := done + {s};
      }
      assert done == locked;
    }

    /** The writing half of a pass equals the pointwise decision on every lease and server. */
    method ReconcileWriting(oldGeneration: set<LeaseId>, verdicts: map<LeaseId, Verdict>, now: Time)
      requires forall id | id in verdicts :: verdicts[id] == Extend || verdicts[id] in closings
      modifies this
      ensures State() == ReconcileWrites(old(State()), oldGeneration, verdicts, now)
    {
      ghost var was := State();
      SettleRows(oldGeneration, verdicts, now);
      ghost var mid := leases;
      var db := Db(map[], servers);
      var stale := set id | id in leases && Stale(leases[id], RowOf(db, leases[id]), now);
      var locked := set id | id in stale && RowOf(db, leases[id]).Some? :: leases[id].server.value;
      var missing := set id | id in stale && RowOf(db, leases[id]).None?;
      assert RowsSettled(was, mid, oldGeneration, verdicts, locked, now);
      FailOnServers(locked, now);
      leases := map id | id in leases :: FailMissing(leases[id], id in missing, now);
      LeasesDecided(was, mid, oldGeneration, verdicts, locked, leases, now);
      RowsDecided(was, mid, oldGeneration, verdicts, locked, servers, now);
    }

    /** A whole pass: query the agents about the expired leases, then write. */
    method ReconcileStaleLeases(replies: map<ServerId, ServerReply>, now: Time)
      modifies this
      ensures State() == Pass(old(State()), replies, now)
    {
      var db := Db(leases, servers);
      var oldGeneration := OldGenerationLeases(db);
      var verdicts := ReadVerdicts(db, replies, now);
      forall id | id in verdicts
        ensures verdicts[id] == Extend || verdicts[id] in closings
      {
        ReadVerdictsAreClosings(db, replies, now, id);
      }
      ReconcileWriting(oldGeneration, verdicts, now);
    }
  }

  // At most one lease heads the queue of a server.
  lemma LostOneMore(leases: map<LeaseId, Lease>, done: set<ServerId>, s: ServerId, now: Time)
    requires s !in done
    ensures InvalidateServerLeases(FailLost(leases, done, now), s, ServerUnavailable, now) == FailLost(leases, done + {s}, now)
  {}

  lemma HeadUnique(db: Db, s: ServerId, now: Time)
    requires s in db.servers
    ensures forall i, j | i in db.leases && j in db.leases && IsHead(db, s, i, now) && IsHead(db, s, j, now) :: i == j
  {}
}
