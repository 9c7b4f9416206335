/** Safety of the two-party protocol in every reachable state. */
module TwoPartySafety {
  import opened Common
  import opened Leases
  import opened LeaseLifecycle
  import opened LeaseRuns
  import opened TwoParty
  import Ledger = SlotLedger
  import Reservations

  // ------------------------------------------------------ the backend's half

  predicate TouchesDb(step: Step) {
    step.ClaimLease? || step.TryFinalize? || step.StrayFinalize? || step.CleanUp? || step.UseHandle? || step.OtherTx?
  }

  // A dispatch message is not consumed a second time: shown from the agents' half.
  predicate Fresh(w: World, step: Step)
    requires step.DeliverDispatch? ==> AgentOf(w, step.a)
  {
    step.DeliverDispatch? && Consumes(w, step.a) ==> step.a !in w.consumed
  }

  // The claims after a step: the same, with at most one phase moved along.
  predicate ClaimsAfter(w: World, v: World) {
    && v.claims.Keys == w.claims.Keys
    && forall a | a in w.claims :: v.claims[a] == w.claims[a].(phase := v.claims[a].phase)
  }

  predicate Delivers(step: Step) {
    step.DeliverReserve? || step.DeliverCancel? || step.DeliverDispatch? || step.ExpireReservation? || step.AgentStep?
  }

  lemma DeliveredClaims(w: World, step: Step)
    requires Can(w, step) && Delivers(step)
    ensures Next(w, step).claims == w.claims && Next(w, step).db == w.db && Next(w, step).committed == w.committed
    ensures Next(w, step).now == w.now
  {}

  lemma QuietClaims(w: World, step: Step)
    requires Can(w, step) && !TouchesDb(step)
    ensures ClaimsAfter(w, Next(w, step))
    ensures Next(w, step).db == w.db && Next(w, step).committed == w.committed && w.now <= Next(w, step).now
  {
    if Delivers(step) {
      DeliveredClaims(w, step);
    }
  }

  lemma QuietLease(w: World, v: World, id: LeaseId)
    requires id in w.db.leases && LeaseLinked(w, id)
    requires v.db == w.db && v.committed == w.committed && ClaimsAfter(w, v)
    ensures LeaseLinked(v, id)
  {}

  lemma QuietClaim(w: World, step: Step, a: Attempt)
    requires Can(w, step) && !TouchesDb(step) && !step.DeliverReserve? && !step.DeliverDispatch?
    requires a in w.claims && ClaimOk(w, a)
    ensures ClaimOk(Next(w, step), a)
  {}

  lemma DeliveredClaim(w: World, step: Step, a: Attempt)
    requires Can(w, step) && (step.DeliverReserve? || step.DeliverDispatch?)
    requires a in w.claims && ClaimOk(w, a)
    requires step.DeliverReserve? && Answer(w, step.a).Accepted? ==> Takes(w, step.a)
    ensures ClaimOk(Next(w, step), a)
  {}

  lemma QuietStep(w: World, step: Step)
    requires BackendInv(w) && Can(w, step) && !TouchesDb(step) && Fresh(w, step)
    requires step.DeliverReserve? && Answer(w, step.a).Accepted? ==> Takes(w, step.a)
    ensures BackendInv(Next(w, step))
  {
    var v := Next(w, step);
    QuietClaims(w, step);
    forall id | id in v.db.leases
      ensures LeaseLinked(v, id)
    {
      assert LeaseLinked(w, id);
      QuietLease(w, v, id);
    }
    forall a | a in v.claims
      ensures ClaimOk(v, a)
    {
      assert ClaimOk(w, a);
      if step.DeliverReserve? || step.DeliverDispatch? {
        DeliveredClaim(w, step, a);
      } else {
        QuietClaim(w, step, a);
      }
    }
    QuietMessages(w, step);
  }

  // Messages and history only ever name claims, and each consumption is new.
  lemma QuietMessages(w: World, step: Step)
    requires BackendInv(w) && Can(w, step) && !TouchesDb(step) && Fresh(w, step)
    ensures var v := Next(w, step);
            && v.committed <= v.claims.Keys && v.reserves <= v.claims.Keys && v.accepted.Keys <= v.claims.Keys
            && v.strays <= v.claims.Keys && v.answers <= v.claims.Keys && v.cancels <= v.claims.Keys && v.dispatches <= v.claims.Keys
            && (forall a | a in v.consumed :: a in v.claims)
            && (forall i, j | 0 <= i < j < |v.consumed| :: v.consumed[i] != v.consumed[j])
  {}

  // How a transaction other than a claim or a finalize can move one lease.
  lemma LeaseMoves(db: Db, tx: Tx, id: LeaseId)
    requires DbOk(db) && WellFormed(tx) && id in db.leases && !tx.TxClaim? && !tx.TxFinalize?
    ensures id in Commit(db, tx).leases
    ensures var l, m := db.leases[id], Commit(db, tx).leases[id];
            && m.request == l.request
            && (m.attempt.Some? ==> m.attempt == l.attempt && m.server == l.server && m.generation == l.generation)
            && (m.status == Reserving ==> m == l)
            && (l.startedAt.Some? ==> m.startedAt.Some? && m.attempt == l.attempt)
            && (m.startedAt.Some? ==> l.startedAt.Some? && m.attempt == l.attempt)
  {
    LeaseStep(db, tx, id);
    var l, m := db.leases[id], Commit(db, tx).leases[id];
    if m.attempt.Some? && m.attempt != l.attempt {
      NewAttemptIsClaim(db, tx, id);
    }
    if l.status != Active && m.status == Active {
      OnlyFinalizeActivates(db, tx, id);
    }
  }

  lemma TransactionStep(w: World, tx: Tx)
    requires BackendInv(w) && WellFormed(tx) && !tx.TxClaim? && !tx.TxFinalize?
    ensures BackendInv(w.(db := Commit(w.db, tx)))
  {
    var v := w.(db := Commit(w.db, tx));
    DbOkStep(w.db, tx);
    forall id | id in v.db.leases
      ensures LeaseLinked(v, id)
    {
      if id in w.db.leases {
        assert LeaseLinked(w, id);
        LeaseMoves(w.db, tx, id);
      } else {
        NewLease(w.db, tx, id);
        assert LeaseOk(v.db.leases[id]);
      }
    }
    forall a | a in v.claims
      ensures ClaimOk(v, a)
    {
      assert ClaimOk(w, a);
      LeaseMoves(w.db, tx, w.claims[a].lease);
    }
  }

  // The world after a claim of lease id by attempt a, and after attempt a is finalized.
  function AfterClaim(w: World, db: Db, a: Attempt, c: ClaimRecord): World {
    w.(db := db, claims := w.claims[a := c], reserves := w.reserves + {a})
  }

  function AfterFinalize(w: World, db: Db, a: Attempt): World
    requires a in w.claims
  {
    To(w, a, Committed).(db := db, committed := w.committed + {a})
  }

  lemma ClaimStep(w: World, id: LeaseId, s: ServerId, a: Attempt, at: Time)
    requires BackendInv(w) && at <= w.now && a !in w.claims && Claimable(w.db, id, s, at)
    ensures BackendInv(AfterClaim(w, Claim(w.db, id, s, a, at), a,
              ClaimRecord(id, w.db.leases[id].request, s, w.db.servers[s].agent, w.db.servers[s].generation, at, Asking)))
  {
    var db := Claim(w.db, id, s, a, at);
    var v := AfterClaim(w, db, a,
      ClaimRecord(id, w.db.leases[id].request, s, w.db.servers[s].agent, w.db.servers[s].generation, at, Asking));
    DbOkStep(w.db, TxClaim(id, s, a, at));
    assert LeaseOk(w.db.leases[id]);
    forall jd | jd in v.db.leases
      ensures LeaseLinked(v, jd)
    {
      assert LeaseLinked(w, jd);
      ClaimedLease(w, id, s, a, at, jd);
    }
    forall b | b in v.claims
      ensures ClaimOk(v, b)
    {
      if b != a {
        assert ClaimOk(w, b);
      }
    }
  }

  lemma ClaimedLease(w: World, id: LeaseId, s: ServerId, a: Attempt, at: Time, jd: LeaseId)
    requires a !in w.claims && Claimable(w.db, id, s, at) && LeaseOk(w.db.leases[id])
    requires jd in w.db.leases && LeaseLinked(w, jd)
    ensures LeaseLinked(AfterClaim(w, Claim(w.db, id, s, a, at), a,
              ClaimRecord(id, w.db.leases[id].request, s, w.db.servers[s].agent, w.db.servers[s].generation, at, Asking)), jd)
  {}

  lemma FinalizeStep(w: World, a: Attempt)
    requires BackendInv(w) && In(w, a, {Confirmed})
    requires Finalizable(w.db, w.claims[a].lease, w.claims[a].server, w.claims[a].generation, a, w.now)
    ensures BackendInv(AfterFinalize(w, Finalize(w.db, w.claims[a].lease, w.claims[a].server, w.claims[a].generation, a, w.now), a))
  {
    var c := w.claims[a];
    var db := Finalize(w.db, c.lease, c.server, c.generation, a, w.now);
    var v := AfterFinalize(w, db, a);
    DbOkStep(w.db, TxFinalize(c.lease, c.server, c.generation, a, w.now));
    assert LeaseOk(w.db.leases[c.lease]);
    forall id | id in v.db.leases
      ensures LeaseLinked(v, id)
    {
      FinalizedLease(w, v, a, id);
    }
    forall b | b in v.claims
      ensures ClaimOk(v, b)
    {
      assert ClaimOk(w, b);
    }
  }

  lemma FinalizedLease(w: World, v: World, a: Attempt, id: LeaseId)
    requires a in w.claims && id in w.db.leases && LeaseLinked(w, id)
    requires Finalizable(w.db, w.claims[a].lease, w.claims[a].server, w.claims[a].generation, a, w.now)
    requires v == AfterFinalize(w, Finalize(w.db, w.claims[a].lease, w.claims[a].server, w.claims[a].generation, a, w.now), a)
    ensures LeaseLinked(v, id)
  {}

  lemma RefusedFinalizeStep(w: World, a: Attempt)
    requires BackendInv(w) && In(w, a, {Confirmed})
    ensures BackendInv(To(w, a, GivenUp))
  {
    var v := To(w, a, GivenUp);
    forall id | id in v.db.leases
      ensures LeaseLinked(v, id)
    {
      assert LeaseLinked(w, id);
    }
    forall b | b in v.claims
      ensures ClaimOk(v, b)
    {
      assert ClaimOk(w, b);
    }
  }

  // A finalize that nobody waits for commits for an attempt already given up, or comes too late.
  function AfterStray(w: World, db: Db, a: Attempt): World {
    w.(db := db, committed := w.committed + {a}, strays := w.strays - {a})
  }

  lemma StrayLease(w: World, v: World, a: Attempt, id: LeaseId)
    requires a in w.claims && id in w.db.leases && LeaseLinked(w, id)
    requires Finalizable(w.db, w.claims[a].lease, w.claims[a].server, w.claims[a].generation, a, w.now)
    requires v == AfterStray(w, Finalize(w.db, w.claims[a].lease, w.claims[a].server, w.claims[a].generation, a, w.now), a)
    ensures id in v.db.leases && LeaseLinked(v, id)
  {}

  lemma StrayClaim(w: World, v: World, a: Attempt, b: Attempt)
    requires a in w.claims && b in w.claims && ClaimOk(w, a) && ClaimOk(w, b) && a in w.strays
    requires w.claims[a].lease in w.db.leases && LeaseOk(w.db.leases[w.claims[a].lease])
    requires Finalizable(w.db, w.claims[a].lease, w.claims[a].server, w.claims[a].generation, a, w.now)
    requires v == AfterStray(w, Finalize(w.db, w.claims[a].lease, w.claims[a].server, w.claims[a].generation, a, w.now), a)
    ensures ClaimOk(v, b)
  {}

  // The parts of the backend's invariant, put together.
  lemma BackendFrom(w: World, v: World)
    requires BackendInv(w) && DbOk(v.db) && v.claims.Keys == w.claims.Keys
    requires forall id {:trigger LeaseLinked(v, id)} | id in v.db.leases :: LeaseLinked(v, id)
    requires forall a {:trigger ClaimOk(v, a)} | a in v.claims :: ClaimOk(v, a)
    requires v.committed <= w.claims.Keys && v.reserves == w.reserves && v.accepted == w.accepted && v.strays <= w.strays
    requires v.answers == w.answers && v.cancels == w.cancels && v.dispatches == w.dispatches && v.consumed == w.consumed
    ensures BackendInv(v)
  {}

  lemma FinalizedDb(db: Db, id: LeaseId, s: ServerId, g: int, a: Attempt, now: Time)
    requires DbOk(db)
    ensures DbOk(Finalize(db, id, s, g, a, now))
    ensures id in db.leases ==> LeaseOk(db.leases[id])
    ensures Finalize(db, id, s, g, a, now).leases.Keys == db.leases.Keys
  {
    DbOkStep(db, TxFinalize(id, s, g, a, now));
  }

  lemma StrayLeases(w: World, v: World, a: Attempt)
    requires BackendInv(w) && a in w.claims && v.db.leases.Keys == w.db.leases.Keys
    requires Finalizable(w.db, w.claims[a].lease, w.claims[a].server, w.claims[a].generation, a, w.now)
    requires v == AfterStray(w, Finalize(w.db, w.claims[a].lease, w.claims[a].server, w.claims[a].generation, a, w.now), a)
    ensures forall id {:trigger LeaseLinked(v, id)} | id in v.db.leases :: LeaseLinked(v, id)
  {
    forall id | id in v.db.leases
      ensures LeaseLinked(v, id)
    {
      assert LeaseLinked(w, id);
      StrayLease(w, v, a, id);
    }
  }

  lemma StrayCommits(w: World, v: World, a: Attempt)
    requires BackendInv(w) && a in w.strays && a in w.claims
    requires Finalizable(w.db, w.claims[a].lease, w.claims[a].server, w.claims[a].generation, a, w.now)
    requires v == AfterStray(w, Finalize(w.db, w.claims[a].lease, w.claims[a].server, w.claims[a].generation, a, w.now), a)
    ensures BackendInv(v)
  {
    var c := w.claims[a];
    FinalizedDb(w.db, c.lease, c.server, c.generation, a, w.now);
    assert ClaimOk(w, a);
    StrayLeases(w, v, a);
    forall b | b in v.claims
      ensures ClaimOk(v, b)
    {
      assert ClaimOk(w, b);
      StrayClaim(w, v, a, b);
    }
    BackendFrom(w, v);
  }

  lemma StrayFails(w: World, a: Attempt)
    requires BackendInv(w)
    ensures BackendInv(w.(strays := w.strays - {a}))
  {
    var v := w.(strays := w.strays - {a});
    forall id | id in v.db.leases
      ensures LeaseLinked(v, id)
    {
      assert LeaseLinked(w, id);
    }
    forall b | b in v.claims
      ensures ClaimOk(v, b)
    {
      assert ClaimOk(w, b);
    }
  }

  lemma StrayStep(w: World, a: Attempt)
    requires BackendInv(w) && a in w.strays && a in w.claims
    ensures BackendInv(Next(w, StrayFinalize(a)))
  {
    if Finalizable(w.db, w.claims[a].lease, w.claims[a].server, w.claims[a].generation, a, w.now) {
      StrayCommits(w, Next(w, StrayFinalize(a)), a);
    } else {
      StrayFails(w, a);
    }
  }

  lemma AdmissionStep(w: World, step: Step)
    requires BackendInv(w) && Can(w, step) && (step.ClaimLease? || step.TryFinalize? || step.StrayFinalize?)
    ensures BackendInv(Next(w, step))
  {
    match step
    case ClaimLease(id, s, a, at) => ClaimStep(w, id, s, a, at);
    case TryFinalize(a) =>
      if Finalizable(w.db, w.claims[a].lease, w.claims[a].server, w.claims[a].generation, a, w.now) {
        FinalizeStep(w, a);
      } else {
        RefusedFinalizeStep(w, a);
      }
    case StrayFinalize(a) => StrayStep(w, a);
  }

  lemma OtherTransactionStep(w: World, step: Step)
    requires BackendInv(w) && Can(w, step) && (step.CleanUp? || step.UseHandle? || step.OtherTx?)
    ensures BackendInv(Next(w, step))
  {
    match step
    case CleanUp(a, at) => TransactionStep(w, TxCleanup(w.claims[a].lease, a, at));
    case UseHandle(a, tx) => TransactionStep(w, tx);
    case OtherTx(tx) => TransactionStep(w, tx);
  }

  lemma BackendStep(w: World, step: Step)
    requires BackendInv(w) && Can(w, step) && Fresh(w, step)
    requires step.DeliverReserve? && Answer(w, step.a).Accepted? ==> Takes(w, step.a)
    ensures BackendInv(Next(w, step))
  {
    if step.ClaimLease? || step.TryFinalize? || step.StrayFinalize? {
      AdmissionStep(w, step);
    } else if TouchesDb(step) {
      OtherTransactionStep(w, step);
    } else {
      QuietStep(w, step);
    }
  }

  // ------------------------------------------------------- the agents' half

  // The step on an agent, if this is one.
  function AgentEventOf(w: World, step: Step): Option<(AgentId, Ledger.Event)> {
    match step
    case DeliverReserve(a) => if AgentOf(w, a) then Some((w.claims[a].agent, ReserveEvent(w, a))) else None
    case DeliverCancel(a) => if AgentOf(w, a) then Some((w.claims[a].agent, CancelEvent(w, a))) else None
    case DeliverDispatch(a, streaming) =>
      if AgentOf(w, a) then Some((w.claims[a].agent, ConsumeEvent(w, a, streaming))) else None
    case ExpireReservation(a) => if AgentOf(w, a) then Some((w.claims[a].agent, ExpiryEvent(w, a))) else None
    case AgentStep(aid, e) => Some((aid, e))
    case _ => None
  }

  lemma AgentsAfter(w: World, step: Step)
    requires Can(w, step)
    ensures AgentEventOf(w, step).None? ==> Next(w, step).agents == w.agents
    ensures AgentEventOf(w, step).Some? ==>
              var (aid, e) := AgentEventOf(w, step).value;
              && aid in w.agents && Ledger.Enabled(w.agents[aid], e)
              && Next(w, step).agents == w.agents[aid := Ledger.Apply(w.agents[aid], e)]
  {}

  // Claims keep their place, acceptances and consumptions stay on record.
  ghost predicate Remembers(w: World, v: World) {
    && (forall a | a in w.claims :: a in v.claims && v.claims[a] == w.claims[a].(phase := v.claims[a].phase))
    && w.accepted.Keys <= v.accepted.Keys
    && (forall a | a in w.consumed :: a in v.consumed)
  }

  lemma AdmissionRemembers(w: World, step: Step)
    requires Can(w, step) && (step.ClaimLease? || step.TryFinalize? || step.StrayFinalize?)
    ensures Remembers(w, Next(w, step)) && Next(w, step).consumed == w.consumed && Next(w, step).accepted == w.accepted
  {}

  lemma DbStepRemembers(w: World, step: Step)
    requires Can(w, step) && TouchesDb(step)
    ensures Remembers(w, Next(w, step)) && Next(w, step).consumed == w.consumed && Next(w, step).accepted == w.accepted
  {
    if step.ClaimLease? || step.TryFinalize? || step.StrayFinalize? {
      AdmissionRemembers(w, step);
    }
  }

  lemma QuietHistory(w: World, step: Step)
    requires Can(w, step) && !TouchesDb(step)
    ensures w.accepted.Keys <= Next(w, step).accepted.Keys
    ensures Next(w, step).consumed ==
            if step.DeliverDispatch? && Consumes(w, step.a) then w.consumed + [step.a] else w.consumed
    ensures forall a | a in Next(w, step).accepted && a !in w.accepted :: step.DeliverReserve? && step.a == a
  {}

  /** What a step does to the agents, the places of the claims and the history, without its case analysis. */
  ghost predicate Effect(w: World, step: Step, v: World) {
    && (AgentEventOf(w, step).None? ==> v.agents == w.agents)
    && (AgentEventOf(w, step).Some? ==>
          var (aid, e) := AgentEventOf(w, step).value;
          && aid in w.agents && Ledger.Enabled(w.agents[aid], e)
          && v.agents == w.agents[aid := Ledger.Apply(w.agents[aid], e)]
          && (step.AgentStep? ==> IsLocal(e)))
    && Remembers(w, v)
    && (step.DeliverReserve? || step.DeliverDispatch? ==> AgentOf(w, step.a))
    && v.consumed == (if step.DeliverDispatch? && Consumes(w, step.a) then w.consumed + [step.a] else w.consumed)
    && (step.DeliverReserve? && Takes(w, step.a) ==> step.a in v.accepted)
  }

  lemma StepEffect(w: World, step: Step)
    requires Can(w, step)
    ensures Effect(w, step, Next(w, step))
  {
    AgentsAfter(w, step);
    if TouchesDb(step) {
      DbStepRemembers(w, step);
    } else {
      QuietClaims(w, step);
      QuietHistory(w, step);
    }
  }

  // A dispatch is consumed for the first time, and a reservation request takes its slot once.
  lemma DeliveriesAreFresh(w: World, step: Step)
    requires Inv(w) && Can(w, step)
    ensures Fresh(w, step)
    ensures step.DeliverReserve? && Answer(w, step.a).Accepted? ==> Takes(w, step.a)
  {
    if step.DeliverDispatch? && Consumes(w, step.a) {
      assert TokenOk(w, w.claims[step.a].agent, w.claims[step.a].request);
    }
    if step.DeliverReserve? && w.claims[step.a].request in w.agents[w.claims[step.a].agent].ops {
      assert ClaimOk(w, step.a);
      assert TokenOk(w, w.claims[step.a].agent, w.claims[step.a].request);
    }
  }

  // The token clause of operation r, from the clause before the step.
  lemma TokenElsewhere(w: World, v: World, aid: AgentId, r: RequestId)
    requires aid in w.agents && r in w.agents[aid].ops && TokenOk(w, aid, r)
    requires aid in v.agents && r in v.agents[aid].ops && v.agents[aid].ops[r] == w.agents[aid].ops[r]
    requires Remembers(w, v)
    requires forall a | a in v.consumed && a !in w.consumed :: a in w.claims && w.claims[a].agent != aid
    ensures TokenOk(v, aid, r)
  {}

  lemma TokenHere(w: World, step: Step, v: World, aid: AgentId, e: Ledger.Event, r: RequestId)
    requires Effect(w, step, v) && AgentEventOf(w, step) == Some((aid, e))
    requires r in w.agents[aid].ops ==> TokenOk(w, aid, r)
    requires r in v.agents[aid].ops
    requires step.DeliverReserve? ==> step.a !in w.consumed
    ensures TokenOk(v, aid, r)
  {
    if v.agents[aid].ops[r].token.Some? {
      Reservations.TokenOrigin(w.agents[aid], e, r);
    }
  }

  lemma TokenStep(w: World, step: Step, v: World, aid: AgentId, r: RequestId)
    requires Effect(w, step, v) && aid in v.agents && r in v.agents[aid].ops
    requires aid in w.agents && r in w.agents[aid].ops ==> TokenOk(w, aid, r)
    requires step.DeliverReserve? ==> step.a !in w.consumed
    ensures TokenOk(v, aid, r)
  {
    if AgentEventOf(w, step).Some? && AgentEventOf(w, step).value.0 == aid {
      TokenHere(w, step, v, aid, AgentEventOf(w, step).value.1, r);
    } else {
      TokenElsewhere(w, v, aid, r);
    }
  }

  // An attempt undisturbed after the step was so before, or was accepted by this very step.
  lemma UndisturbedBefore(w: World, step: Step, a: Attempt)
    requires Can(w, step) && a in w.claims && ClaimOk(w, a) && Undisturbed(Next(w, step), a)
    ensures Undisturbed(w, a) || (step.DeliverReserve? && step.a == a && Takes(w, a))
  {}

  // A new claim has not been accepted by anyone.
  lemma NewClaimHolds(w: World, step: Step, a: Attempt)
    requires BackendInv(w) && Can(w, step) && a in Next(w, step).claims && a !in w.claims
    ensures a !in Next(w, step).accepted
  {}

  lemma StillHeld(w: World, step: Step, v: World, a: Attempt)
    requires Effect(w, step, v) && a in w.claims && Held(w, a)
    requires AgentEventOf(w, step).Some? && AgentEventOf(w, step).value.0 == w.claims[a].agent ==>
               && !Reservations.SpeaksFor(AgentEventOf(w, step).value.1, a)
               && !Reservations.Disturbs(w.agents[w.claims[a].agent], AgentEventOf(w, step).value.1,
                                         w.claims[a].server, w.claims[a].request)
    ensures a in v.claims && Held(v, a)
  {
    var c := w.claims[a];
    if AgentEventOf(w, step).Some? && AgentEventOf(w, step).value.0 == c.agent {
      Reservations.HeldStays(w.agents[c.agent], AgentEventOf(w, step).value.1, c.server, c.request, c.generation, a);
    }
  }

  // No step on its agent speaks for, or disturbs, an attempt that stays undisturbed.
  lemma NotSpokenFor(w: World, step: Step, a: Attempt)
    requires Can(w, step) && a in w.claims && ClaimOk(w, a) && Undisturbed(w, a) && Undisturbed(Next(w, step), a)
    requires AgentEventOf(w, step).Some? && AgentEventOf(w, step).value.0 == w.claims[a].agent
    ensures !Reservations.SpeaksFor(AgentEventOf(w, step).value.1, a)
    ensures w.claims[a].agent in w.agents
    ensures !Reservations.Disturbs(w.agents[w.claims[a].agent], AgentEventOf(w, step).value.1,
                                   w.claims[a].server, w.claims[a].request)
  {}

  lemma JustAccepted(w: World, a: Attempt)
    requires Can(w, DeliverReserve(a)) && Takes(w, a)
    ensures Held(Next(w, DeliverReserve(a)), a)
  {}

  lemma HoldsStep(w: World, step: Step, a: Attempt)
    requires Inv(w) && Can(w, step) && a in Next(w, step).claims && Undisturbed(Next(w, step), a)
    ensures Held(Next(w, step), a)
  {
    if a !in w.claims {
      NewClaimHolds(w, step, a);
    } else {
      assert ClaimOk(w, a);
      UndisturbedBefore(w, step, a);
      if Undisturbed(w, a) {
        StepEffect(w, step);
        if AgentEventOf(w, step).Some? && AgentEventOf(w, step).value.0 == w.claims[a].agent {
          NotSpokenFor(w, step, a);
        }
        StillHeld(w, step, Next(w, step), a);
      } else {
        JustAccepted(w, a);
      }
    }
  }

  // A cancel of attempt a reaches its agent, or a step of that agent disturbs what it accepted.
  ghost predicate Loses(w: World, step: Step, a: Attempt) {
    && a in w.claims && a in w.accepted
    && (|| step == DeliverCancel(a)
        || (&& step.AgentStep? && step.agent == w.claims[a].agent && step.agent in w.agents
            && Reservations.Disturbs(w.agents[step.agent], step.e, w.claims[a].server, w.claims[a].request)))
  }

  lemma LostByStep(w: World, step: Step, a: Attempt)
    requires Can(w, step)
    ensures a in Next(w, step).disturbed + Next(w, step).withdrawn <==> a in w.disturbed + w.withdrawn || Loses(w, step, a)
    ensures a in Next(w, step).disturbed <==> a in w.disturbed || (Loses(w, step, a) && step.AgentStep?)
  {}

  lemma LosingStep(w: World, step: Step, v: World, a: Attempt)
    requires Can(w, step) && Effect(w, step, v) && Loses(w, step, a)
    ensures a in v.claims && !Held(v, a)
  {
    var c := w.claims[a];
    if c.agent in w.agents {
      var e := AgentEventOf(w, step).value.1;
      if step.AgentStep? {
        Reservations.DisturbedIsGone(w.agents[c.agent], e, c.server, c.request, c.generation, a);
      } else {
        Reservations.CancelledIsGone(w.agents[c.agent], e, c.server, c.request, c.generation, a);
      }
    }
  }

  lemma StillLost(w: World, step: Step, v: World, a: Attempt)
    requires Can(w, step) && Effect(w, step, v) && a in w.claims && ClaimOk(w, a) && a in w.accepted && !Held(w, a)
    ensures a in v.claims && !Held(v, a)
  {
    var c := w.claims[a];
    if AgentEventOf(w, step).Some? && AgentEventOf(w, step).value.0 == c.agent && Held(v, a) {
      Reservations.HeldOnlyByReserve(w.agents[c.agent], AgentEventOf(w, step).value.1, c.server, c.request, c.generation, a);
    }
  }

  lemma LostStep(w: World, step: Step, a: Attempt)
    requires Inv(w) && Can(w, step) && a in Next(w, step).disturbed + Next(w, step).withdrawn
    ensures a in Next(w, step).claims && LostStaysLost(Next(w, step), a)
  {
    StepEffect(w, step);
    LostByStep(w, step, a);
    if Loses(w, step, a) {
      LosingStep(w, step, Next(w, step), a);
    } else {
      assert ClaimOk(w, a) && LostStaysLost(w, a);
      StillLost(w, step, Next(w, step), a);
    }
  }

  lemma TokensStep(w: World, step: Step)
    requires Inv(w) && Can(w, step)
    ensures var v := Next(w, step);
            forall aid, r {:trigger TokenOk(v, aid, r)} | aid in v.agents && r in v.agents[aid].ops :: TokenOk(v, aid, r)
  {
    var v := Next(w, step);
    StepEffect(w, step);
    assert step.DeliverReserve? ==> step.a !in w.consumed by {
      assert step.DeliverReserve? ==> ClaimOk(w, step.a);
    }
    forall aid, r | aid in v.agents && r in v.agents[aid].ops
      ensures TokenOk(v, aid, r)
    {
      assert aid in w.agents && r in w.agents[aid].ops ==> TokenOk(w, aid, r);
      TokenStep(w, step, v, aid, r);
    }
  }

  lemma AgentHalf(w: World, step: Step)
    requires Inv(w) && Can(w, step)
    ensures AgentInv(Next(w, step))
  {
    var v := Next(w, step);
    TokensStep(w, step);
    forall a | a in v.claims && Undisturbed(v, a)
      ensures Held(v, a)
    {
      HoldsStep(w, step, a);
    }
    forall a | a in v.disturbed + v.withdrawn
      ensures a in v.claims && LostStaysLost(v, a)
    {
      LostStep(w, step, a);
    }
  }

  lemma InvStep(w: World, step: Step)
    requires Inv(w) && Can(w, step)
    ensures Inv(Next(w, step))
  {
    DeliveriesAreFresh(w, step);
    BackendStep(w, step);
    AgentHalf(w, step);
  }
}
