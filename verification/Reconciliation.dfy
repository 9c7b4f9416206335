/** reconcile_stale_leases: what it reads, what it decides for one lease, and the normal form it reaches. */
module Reconciliation {
  import opened Common
  import opened Operations
  import opened Leases
  import opened LeaseLifecycle

  // GET /proxy/{server}/operations: no usable answer, or the complete table of that server.
  datatype ServerReply = NoReply | Snapshot(ops: map<RequestId, (int, OpStatus)>)

  predicate OutOfGeneration(db: Db, id: LeaseId) {
    && id in db.leases
    && db.leases[id].status == Active
    && RowOf(db, db.leases[id]).Some?
    && db.leases[id].generation != Some(RowOf(db, db.leases[id]).value.generation)
  }

  function OldGenerationLeases(db: Db): set<LeaseId> {
    set id | id in db.leases && OutOfGeneration(db, id)
  }

  predicate AskedAbout(db: Db, id: LeaseId, now: Time) {
    && id in db.leases
    && db.leases[id].status == Active
    && db.leases[id].expiresAt <= now
    && RowOf(db, db.leases[id]).Some?
    && RowOf(db, db.leases[id]).value.Available()
    && db.leases[id].generation == Some(RowOf(db, db.leases[id]).value.generation)
  }

  // A reported operation counts only under the lease's own generation.
  function VerdictOf(l: Lease, reply: ServerReply): Verdict {
    if reply.NoReply? then Extend
    else if l.request in reply.ops && l.generation == Some(reply.ops[l.request].0) then
      match reply.ops[l.request].1
      case OpCompleted => Close(Released, Completed)
      case OpCancelled => Close(Cancelled, AgentCancelled)
      case OpFailed => Close(Failed, AgentFailed)
      case _ => Extend
    else Close(Failed, AgentUnknown)
  }

  function ReplyOf(replies: map<ServerId, ServerReply>, s: ServerId): ServerReply {
    if s in replies then replies[s] else NoReply
  }

  function ReadVerdicts(db: Db, replies: map<ServerId, ServerReply>, now: Time): map<LeaseId, Verdict> {
    map id | id in db.leases && AskedAbout(db, id, now) ::
      VerdictOf(db.leases[id], ReplyOf(replies, db.leases[id].server.value))
  }

  // A whole pass with no other transaction between its reads and its writes.
  function Pass(db: Db, replies: map<ServerId, ServerReply>, now: Time): Db {
    ReconcileWrites(db, OldGenerationLeases(db), ReadVerdicts(db, replies, now), now)
  }

  predicate InOrder(db: Db, l: Lease, now: Time) {
    && (l.status == Queued ==> l.expiresAt > now)
    && (l.status == Reserving ==> l.expiresAt > now && l.reservationExpires.Some? && l.reservationExpires.value > now)
    && (l.status == Active ==>
          && l.expiresAt > now
          && RowOf(db, l).Some? && RowOf(db, l).value.Available()
          && l.generation == Some(RowOf(db, l).value.generation))
  }

  lemma PassOnLease(db: Db, replies: map<ServerId, ServerReply>, now: Time, id: LeaseId)
    requires DbOk(db) && id in db.leases
    ensures var b := Pass(db, replies, now);
            id in b.leases && InOrder(b, b.leases[id], now)
  {
    var l := db.leases[id];
    assert LeaseOk(l) && GenerationOk(db, l);
    var b := Pass(db, replies, now);
    assert id in OldGenerationLeases(db) <==> OutOfGeneration(db, id);
    assert id in ReadVerdicts(db, replies, now) <==> AskedAbout(db, id, now);
    if b.leases[id].status == Active {
      var s := l.server.value;
      assert db.servers[s].Available();
      assert b.servers[s] == db.servers[s];
    }
  }

  /** After a pass every active lease is unexpired, on a running healthy server, at its generation; nothing is overdue. */
  lemma PassReachesNormalForm(db: Db, replies: map<ServerId, ServerReply>, now: Time)
    requires DbOk(db)
    ensures forall id | id in Pass(db, replies, now).leases ::
              InOrder(Pass(db, replies, now), Pass(db, replies, now).leases[id], now)
  {
    forall id | id in Pass(db, replies, now).leases
      ensures InOrder(Pass(db, replies, now), Pass(db, replies, now).leases[id], now)
    {
      PassOnLease(db, replies, now, id);
    }
  }

  // A database already in order is left exactly as it is, whatever the agents answer.
  lemma PassKeepsOrder(db: Db, replies: map<ServerId, ServerReply>, now: Time)
    requires forall id | id in db.leases :: InOrder(db, db.leases[id], now)
    ensures Pass(db, replies, now) == db
  {
    var verdicts := ReadVerdicts(db, replies, now);
    var decided := DecideAll(db, OldGenerationLeases(db), verdicts, now);
    forall id | id in db.leases
      ensures decided[id] == db.leases[id]
    {
      assert InOrder(db, db.leases[id], now);
      assert id !in OldGenerationLeases(db) && id !in verdicts;
    }
    assert decided == db.leases;
    assert Pass(db, replies, now).servers == db.servers;
  }

  /** A second pass at the same time changes nothing, even if the agents answer differently. */
  lemma SecondPassChangesNothing(db: Db, first: map<ServerId, ServerReply>, second: map<ServerId, ServerReply>, now: Time)
    requires DbOk(db)
    ensures Pass(Pass(db, first, now), second, now) == Pass(db, first, now)
  {
    PassReachesNormalForm(db, first, now);
    PassKeepsOrder(Pass(db, first, now), second, now);
  }

  // The agent of s answered completely and lists the lease's request, under its generation, with this status.
  predicate Says(replies: map<ServerId, ServerReply>, s: ServerId, l: Lease, status: OpStatus) {
    && s in replies && replies[s].Snapshot?
    && l.request in replies[s].ops && l.generation == Some(replies[s].ops[l.request].0)
    && replies[s].ops[l.request].1 == status
  }

  predicate Silent(replies: map<ServerId, ServerReply>, s: ServerId) {
    s !in replies || replies[s] == NoReply
  }

  // The agent answered completely and does not list the request, or lists it under another generation.
  predicate Disowns(replies: map<ServerId, ServerReply>, s: ServerId, l: Lease) {
    && s in replies && replies[s].Snapshot?
    && (l.request !in replies[s].ops || l.generation != Some(replies[s].ops[l.request].0))
  }

  // What an active lease of an available server's live generation becomes.
  predicate Answered(l: Lease, m: Lease, replies: map<ServerId, ServerReply>, s: ServerId, now: Time) {
    && (l.expiresAt > now ==> m == l)
    && (l.expiresAt <= now ==>
          && (Silent(replies, s) ==> m == l.(expiresAt := now + 90_000))
          && ((Says(replies, s, l, OpQueued) || Says(replies, s, l, OpReserved)
               || Says(replies, s, l, OpActive) || Says(replies, s, l, OpCancelling)) ==>
                m == l.(expiresAt := now + 90_000))
          && (Says(replies, s, l, OpCompleted) ==>
                m == l.(status := Released, reason := Some(Completed), releasedAt := Some(now)))
          && (Says(replies, s, l, OpCancelled) ==>
                m == l.(status := Cancelled, reason := Some(AgentCancelled), releasedAt := Some(now)))
          && (Says(replies, s, l, OpFailed) ==>
                m == l.(status := Failed, reason := Some(AgentFailed), releasedAt := Some(now)))
          && (Disowns(replies, s, l) ==>
                m == l.(status := Failed, reason := Some(AgentUnknown), releasedAt := Some(now))))
  }

  /**
   * The pointwise decision for a lease whose server stays running, healthy and in generation
   * while the pass reads `db` and writes `later`: unexpired leases are untouched, live or
   * unanswerable ones get another 90 seconds, and the rest end as their agent reported.
   */
  lemma DecisionOnSteadyServer(db: Db, later: Db, replies: map<ServerId, ServerReply>, now: Time, id: LeaseId, s: ServerId)
    requires id in db.leases && id in later.leases && later.leases[id] == db.leases[id]
    requires db.leases[id].status == Active && db.leases[id].server == Some(s)
    requires s in db.servers && s in later.servers
    requires db.servers[s].Available() && later.servers[s].Available()
    requires db.leases[id].generation == Some(db.servers[s].generation)
    requires later.servers[s].generation == db.servers[s].generation
    ensures var b := ReconcileWrites(later, OldGenerationLeases(db), ReadVerdicts(db, replies, now), now);
            id in b.leases && Answered(db.leases[id], b.leases[id], replies, s, now)
  {
    assert id !in OldGenerationLeases(db);
    assert id in ReadVerdicts(db, replies, now) <==> AskedAbout(db, id, now);
  }

  /**
   * A whole pass, lease by lease: what is overdue in the queue expires or goes back to it, an active
   * lease of a past generation, of an unavailable or of a missing server fails, each under its own
   * reason, one of a live server is answered for, and nothing else changes.
   */
  lemma PassDecides(db: Db, replies: map<ServerId, ServerReply>, now: Time, id: LeaseId)
    requires DbOk(db) && id in db.leases
    ensures id in Pass(db, replies, now).leases
    ensures var l, m := db.leases[id], Pass(db, replies, now).leases[id];
            match l.status
            case Queued =>
              m == if l.expiresAt <= now then l.(status := Expired, reason := Some(QueueTimeout), releasedAt := Some(now)) else l
            case Reserving =>
              m == if l.expiresAt <= now then l.(status := Expired, reason := Some(QueueTimeout), releasedAt := Some(now))
                   else if l.reservationExpires.Some? && l.reservationExpires.value <= now then
                     l.(status := Queued, attempt := None, reservationExpires := None, server := None, generation := None)
                   else l
            case Active =>
              if l.server.None? || l.server.value !in db.servers then
                m == if l.server.None? || l.expiresAt <= now
                     then l.(status := Failed, reason := Some(ServerMissing), releasedAt := Some(now)) else l
              else
                var row := db.servers[l.server.value];
                if l.generation != Some(row.generation) then
                  m == l.(status := Failed, reason := Some(ServerGenerationChanged), releasedAt := Some(now))
                else if row.status != Running || row.health != Health.Healthy then
                  m == l.(status := Failed, reason := Some(ExpiredOrUnavailable), releasedAt := Some(now))
                else Answered(l, m, replies, l.server.value, now)
            case _ => m == l
  {
    var l := db.leases[id];
    assert id in OldGenerationLeases(db) <==> OutOfGeneration(db, id);
    assert id in ReadVerdicts(db, replies, now) <==> AskedAbout(db, id, now);
    if l.status == Active && RowOf(db, l).Some? && l.generation == Some(RowOf(db, l).value.generation)
       && RowOf(db, l).value.Available() {
      DecisionOnSteadyServer(db, db, replies, now, id, l.server.value);
    }
  }

  /** A pass tells a server to stop exactly when it is starting or unhealthy and an active lease of its generation fails with it. */
  lemma PassStops(db: Db, replies: map<ServerId, ServerReply>, now: Time, s: ServerId)
    requires DbOk(db) && s in db.servers
    ensures s in Pass(db, replies, now).servers
    ensures var row := db.servers[s];
            Pass(db, replies, now).servers[s] ==
              if (row.status == Starting || (row.status == Running && row.health != Health.Healthy))
                 && exists id :: id in db.leases && db.leases[id].status == Active && db.leases[id].server == Some(s)
                                 && db.leases[id].generation == Some(row.generation)
              then row.(status := Stopping) else row
  {
    var b := Pass(db, replies, now);
    forall id | id in db.leases && db.leases[id].status == Active && db.leases[id].server == Some(s)
      ensures FailedHere(db, id, b.leases[id], s) <==>
              db.leases[id].generation == Some(db.servers[s].generation)
              && (db.servers[s].status != Running || db.servers[s].health != Health.Healthy)
    {
      PassDecides(db, replies, now, id);
      assert !db.leases[id].Terminal();
    }
  }

  /** An expired renewal alone never ends a lease: its agent has to report the work finished or gone. */
  lemma UnansweredIsNeverEnded(db: Db, replies: map<ServerId, ServerReply>, now: Time, id: LeaseId)
    requires DbOk(db) && id in db.leases && AskedAbout(db, id, now)
    ensures var l := db.leases[id];
            var reply := ReplyOf(replies, l.server.value);
            Pass(db, replies, now).leases[id].Terminal() <==>
              (reply.Snapshot?
               && !(l.request in reply.ops && l.generation == Some(reply.ops[l.request].0)
                    && reply.ops[l.request].1 in {OpQueued, OpReserved, OpActive, OpCancelling}))
  {
    DecisionOnSteadyServer(db, db, replies, now, id, db.leases[id].server.value);
    assert ReadVerdicts(db, replies, now)[id] == VerdictOf(db.leases[id], ReplyOf(replies, db.leases[id].server.value));
  }

  // ------------------------------------------- the same pass, statement by statement

  const closings := [Close(Released, Completed), Close(Cancelled, AgentCancelled),
                     Close(Failed, AgentFailed), Close(Failed, AgentUnknown)]

  lemma ReadVerdictsAreClosings(db: Db, replies: map<ServerId, ServerReply>, now: Time, id: LeaseId)
    requires id in ReadVerdicts(db, replies, now)
    ensures ReadVerdicts(db, replies, now)[id] == Extend || ReadVerdicts(db, replies, now)[id] in closings
  {
    assert closings[0] == Close(Released, Completed) && closings[1] == Close(Cancelled, AgentCancelled)
        && closings[2] == Close(Failed, AgentFailed) && closings[3] == Close(Failed, AgentUnknown);
  }

  // Each UPDATE statement of the pass, as it acts on one row.

  function AbandonReservation(l: Lease, now: Time): Lease {
    if l.status == Reserving && l.reservationExpires.Some? && l.reservationExpires.value <= now && l.expiresAt > now
    then l.Requeued() else l
  }

  function ExpireReservation(l: Lease, now: Time): Lease {
    if l.status == Reserving && l.expiresAt <= now then l.Ended(Expired, QueueTimeout, now) else l
  }

  function ExpireQueued(l: Lease, now: Time): Lease {
    if l.status == Queued && l.expiresAt <= now then l.Ended(Expired, QueueTimeout, now) else l
  }

  function FailOldGeneration(l: Lease, listed: bool, now: Time): Lease {
    if listed && l.status == Active then l.Ended(Failed, ServerGenerationChanged, now) else l
  }

  function ExtendLive(l: Lease, verdict: Option<Verdict>, now: Time): Lease {
    if verdict == Some(Extend) && l.status == Active && l.expiresAt <= now
    then l.(expiresAt := now + ACTIVE_LEASE_TTL) else l
  }

  function CloseReported(l: Lease, verdict: Option<Verdict>, end: Verdict, now: Time): Lease
    requires end.Close?
  {
    if verdict == Some(end) && l.status == Active && l.expiresAt <= now
    then l.Ended(end.status, end.why, now) else l
  }

  // What the loop over servers fails on server s.
  predicate FailsOn(l: Lease, s: ServerId, row: ServerRow, now: Time) {
    && l.server == Some(s)
    && l.status == Active
    && l.generation == Some(row.generation)
    && (!row.Available() || l.expiresAt <= now)
  }

  function FailOn(l: Lease, s: ServerId, row: ServerRow, now: Time): Lease {
    if FailsOn(l, s, row, now) then l.Ended(Failed, ExpiredOrUnavailable, now) else l
  }

  predicate AnyFails(leases: map<LeaseId, Lease>, s: ServerId, row: ServerRow, now: Time) {
    exists id | id in leases :: FailsOn(leases[id], s, row, now)
  }

  function Fence(row: ServerRow, failed: bool): ServerRow {
    if failed && !row.Available() && row.status in {Running, Starting} then row.(status := Stopping) else row
  }

  // Selected by the last query of the pass.
  predicate Stale(l: Lease, row: Option<ServerRow>, now: Time) {
    l.status == Active && (l.expiresAt <= now || l.server.None? || (row.Some? && !row.value.Available()))
  }

  function FailMissing(l: Lease, missing: bool, now: Time): Lease {
    if missing && l.status == Active then l.Ended(Failed, ServerMissing, now) else l
  }

  // One row after the first k closing statements.
  function Closed(l: Lease, verdict: Option<Verdict>, k: nat, now: Time): Lease
    requires k <= |closings|
    decreases k
  {
    if k == 0 then l
    else CloseReported(Closed(l, verdict, k - 1, now), verdict, closings[k - 1], now)
  }

  // One row after every statement that needs no server.
  function BeforeServers(l: Lease, listed: bool, verdict: Option<Verdict>, now: Time): Lease {
    Closed(ExtendLive(FailOldGeneration(ExpireQueued(ExpireReservation(AbandonReservation(l, now), now), now), listed, now),
                      verdict, now), verdict, |closings|, now)
  }

  // One row after the loop has locked the servers in `locked`.
  function AfterServers(l: Lease, servers: map<ServerId, ServerRow>, locked: set<ServerId>, now: Time): Lease {
    if l.server.Some? && l.server.value in locked && l.server.value in servers
    then FailOn(l, l.server.value, servers[l.server.value], now)
    else l
  }

  lemma ClosedIs(l: Lease, verdict: Option<Verdict>, now: Time)
    requires verdict.Some? ==> verdict.value == Extend || verdict.value in closings
    requires verdict == Some(Extend) ==> !(l.status == Active && l.expiresAt <= now)
    ensures Closed(l, verdict, |closings|, now) ==
            if l.status == Active && l.expiresAt <= now && verdict.Some?
            then l.Ended(verdict.value.status, verdict.value.why, now) else l
  {
    var a := CloseReported(l, verdict, closings[0], now);
    var b := CloseReported(a, verdict, closings[1], now);
    var c := CloseReported(b, verdict, closings[2], now);
    var d := CloseReported(c, verdict, closings[3], now);
    assert Closed(l, verdict, 1, now) == a;
    assert Closed(l, verdict, 2, now) == b;
    assert Closed(l, verdict, 3, now) == c;
    assert Closed(l, verdict, 4, now) == d;
  }

  lemma BeforeServersIs(l: Lease, listed: bool, verdict: Option<Verdict>, now: Time)
    requires verdict.Some? ==> verdict.value == Extend || verdict.value in closings
    ensures BeforeServers(l, listed, verdict, now) ==
            if l.status != Active then Decide(l, None, listed, verdict, now)
            else if listed then l.Ended(Failed, ServerGenerationChanged, now)
            else if l.expiresAt <= now && verdict == Some(Extend) then l.(expiresAt := now + ACTIVE_LEASE_TTL)
            else if l.expiresAt <= now && verdict.Some? then l.Ended(verdict.value.status, verdict.value.why, now)
            else l
  {
    ClosedIs(ExtendLive(FailOldGeneration(ExpireQueued(ExpireReservation(AbandonReservation(l, now), now), now), listed, now),
                        verdict, now), verdict, now);
    assert verdict.Some? && verdict.value.Close? ==> verdict.value.status in {Released, Cancelled, Failed};
  }

  // The statements, one after the other, come to the pointwise decision.
  lemma StatementsDecide(l: Lease, servers: map<ServerId, ServerRow>, listed: bool, verdict: Option<Verdict>,
                         locked: set<ServerId>, now: Time)
    requires verdict.Some? ==> verdict.value == Extend || verdict.value in closings
    requires var m := BeforeServers(l, listed, verdict, now);
             var row := RowOf(Db(map[], servers), m);
             Stale(m, row, now) && row.Some? ==> m.server.value in locked
    ensures var m := BeforeServers(l, listed, verdict, now);
            var row := RowOf(Db(map[], servers), m);
            FailMissing(AfterServers(m, servers, locked, now), Stale(m, row, now) && row.None?, now)
              == Decide(l, RowOf(Db(map[], servers), l), listed, verdict, now)
  {
    BeforeServersIs(l, listed, verdict, now);
  }

  // The loop fails a lease of server s exactly when the decision names that reason.
  lemma StatementsFail(l: Lease, servers: map<ServerId, ServerRow>, listed: bool, verdict: Option<Verdict>, now: Time, s: ServerId)
    requires verdict.Some? ==> verdict.value == Extend || verdict.value in closings
    requires s in servers
    ensures var d := Decide(l, RowOf(Db(map[], servers), l), listed, verdict, now);
            FailsOn(BeforeServers(l, listed, verdict, now), s, servers[s], now) <==>
            (l.status == Active && l.server == Some(s) && d.status == Failed && d.reason == Some(ExpiredOrUnavailable)
             && !l.Terminal())
  {
    BeforeServersIs(l, listed, verdict, now);
    assert verdict.Some? && verdict.value.Close? ==> verdict.value.why != ExpiredOrUnavailable;
  }

  lemma OneMoreServer(db: Db, s: ServerId, done: set<ServerId>, now: Time)
    requires s in db.servers && s !in done
    ensures var leases := map id | id in db.leases :: AfterServers(db.leases[id], db.servers, done, now);
            && (AnyFails(leases, s, db.servers[s], now) <==> AnyFails(db.leases, s, db.servers[s], now))
            && (map id | id in leases :: FailOn(leases[id], s, db.servers[s], now))
                 == (map id | id in db.leases :: AfterServers(db.leases[id], db.servers, done + {s}, now))
  {
    var leases := map id | id in db.leases :: AfterServers(db.leases[id], db.servers, done, now);
    forall id | id in db.leases
      ensures FailsOn(leases[id], s, db.servers[s], now) <==> FailsOn(db.leases[id], s, db.servers[s], now)
      ensures FailOn(leases[id], s, db.servers[s], now) == AfterServers(db.leases[id], db.servers, done + {s}, now)
    {}
    if AnyFails(db.leases, s, db.servers[s], now) {
      var id :| id in db.leases && FailsOn(db.leases[id], s, db.servers[s], now);
      assert FailsOn(leases[id], s, db.servers[s], now);
    }
    if AnyFails(leases, s, db.servers[s], now) {
      var id :| id in leases && FailsOn(leases[id], s, db.servers[s], now);
      assert FailsOn(db.leases[id], s, db.servers[s], now);
    }
  }

  // The leases after every statement, and the servers after the loop.
  ghost predicate RowsSettled(db: Db, mid: map<LeaseId, Lease>, oldGeneration: set<LeaseId>, verdicts: map<LeaseId, Verdict>,
                              locked: set<ServerId>, now: Time) {
    && mid == (map id | id in db.leases :: BeforeServers(db.leases[id], id in oldGeneration, Verdicts(verdicts, id), now))
    && (forall id | id in verdicts :: verdicts[id] == Extend || verdicts[id] in closings)
    && (forall id | id in mid && Stale(mid[id], RowOf(Db(map[], db.servers), mid[id]), now)
                    && RowOf(Db(map[], db.servers), mid[id]).Some? :: mid[id].server.value in locked)
  }

  lemma LeasesDecided(db: Db, mid: map<LeaseId, Lease>, oldGeneration: set<LeaseId>, verdicts: map<LeaseId, Verdict>,
                      locked: set<ServerId>, after: map<LeaseId, Lease>, now: Time)
    requires RowsSettled(db, mid, oldGeneration, verdicts, locked, now)
    requires after.Keys == mid.Keys
    requires forall id | id in mid :: after[id] ==
               FailMissing(AfterServers(mid[id], db.servers, locked, now),
                           Stale(mid[id], RowOf(Db(map[], db.servers), mid[id]), now) && RowOf(Db(map[], db.servers), mid[id]).None?,
                           now)
    ensures after == DecideAll(db, oldGeneration, verdicts, now)
  {
    forall id | id in db.leases
      ensures after[id] == Decide(db.leases[id], RowOf(db, db.leases[id]), id in oldGeneration, Verdicts(verdicts, id), now)
    {
      assert id in mid && mid[id] == BeforeServers(db.leases[id], id in oldGeneration, Verdicts(verdicts, id), now);
      StatementsDecide(db.leases[id], db.servers, id in oldGeneration, Verdicts(verdicts, id), locked, now);
      assert RowOf(db, db.leases[id]) == RowOf(Db(map[], db.servers), db.leases[id]);
    }
  }

  lemma FailureDecided(db: Db, mid: map<LeaseId, Lease>, oldGeneration: set<LeaseId>, verdicts: map<LeaseId, Verdict>,
                       locked: set<ServerId>, now: Time, s: ServerId, id: LeaseId)
    requires RowsSettled(db, mid, oldGeneration, verdicts, locked, now) && s in db.servers && id in db.leases
    ensures id in mid
    ensures FailsOn(mid[id], s, db.servers[s], now) <==>
            FailedHere(db, id, DecideAll(db, oldGeneration, verdicts, now)[id], s)
    ensures FailsOn(mid[id], s, db.servers[s], now) && !db.servers[s].Available() ==> s in locked
  {
    StatementsFail(db.leases[id], db.servers, id in oldGeneration, Verdicts(verdicts, id), now, s);
    assert RowOf(db, db.leases[id]) == RowOf(Db(map[], db.servers), db.leases[id]);
  }

  lemma RowsDecided(db: Db, mid: map<LeaseId, Lease>, oldGeneration: set<LeaseId>, verdicts: map<LeaseId, Verdict>,
                    locked: set<ServerId>, after: map<ServerId, ServerRow>, now: Time)
    requires RowsSettled(db, mid, oldGeneration, verdicts, locked, now)
    requires after == map s | s in db.servers :: Fence(db.servers[s], s in locked && AnyFails(mid, s, db.servers[s], now))
    ensures after == ReconcileWrites(db, oldGeneration, verdicts, now).servers
  {
    var decided := DecideAll(db, oldGeneration, verdicts, now);
    forall s | s in db.servers
      ensures after[s] == if FencedByPass(db, decided, s) then db.servers[s].(status := Stopping) else db.servers[s]
    {
      forall id | id in db.leases
        ensures FailsOn(mid[id], s, db.servers[s], now) <==> FailedHere(db, id, decided[id], s)
        ensures FailsOn(mid[id], s, db.servers[s], now) && !db.servers[s].Available() ==> s in locked
      {
        FailureDecided(db, mid, oldGeneration, verdicts, locked, now, s, id);
      }
    }
  }
}
