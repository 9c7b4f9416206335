/**
 * One `acquire` call from the moment its lease is queued: its loop, its claim attempts,
 * its exception handlers and its teardown, as a machine over the shared database.
 * Other transactions commit between any two of its steps, the client may disconnect at
 * any time, and a cancellation or an error may surface wherever the code awaits, an error also
 * after its transaction did commit. A second cancellation while a claim is being finalized leaves
 * that finalize running on its own; a second one in the handler of a cancellation leaves that
 * handler's transaction running, which may then commit like any other one. The shielded undo of
 * a claim and the shielded `cancel` of a handle run to completion.
 */
module Acquire {
  import opened Common
  import opened Leases
  import opened LeaseLifecycle
  import LeaseRuns

  // What acquire raises.
  datatype Cause = RequestCancelled | TaskCancelled | Timeout | OtherError

  datatype Slot = Slot(server: ServerId, generation: int, attempt: Attempt)

  datatype Result = Handle(slot: Slot) | Raised(cause: Cause)

  // Where the call is. `done`: the transaction it awaits has committed.
  datatype Pc =
    | Looping                                        // anywhere in the loop outside a claim
    | Ending(cause: Cause, done: bool)               // _cancel or _expire just before raising
    | Claimed(slot: Slot)                            // the claim committed; its await has not returned
    | Asking(slot: Slot)                             // the agent is asked, no lock held
    | Finalizing(slot: Slot, outcome: Option<bool>, cancelled: bool)
    | Undoing(slot: Slot, after: Option<Cause>, done: bool)
    | Dropping(slot: Slot, done: bool, cancelled: bool)  // lease.cancel(): the client is gone
    | Handling(cause: Cause, done: bool, again: bool)  // an exception handler; `again`: cancelled once more
    | Teardown(result: Result)                       // finally: waiting for the disconnect monitor
    | LastTry(cause: Cause, done: bool)              // finally: `if not claimed`
    | Exited(result: Result)

  datatype Call = Call(
    db: Db, id: LeaseId, pc: Pc,
    monitored: bool,       // is_cancelled was given
    disconnected: bool,
    clean: bool,           // no handler was interrupted before its transaction committed
    stray: Option<Slot>,   // a finalize nobody waits for any more
    strayed: bool)         // it committed between the two statements of the undo
  {
    function Lease(): Leases.Lease
      requires id in db.leases
    {
      db.leases[id]
    }
  }

  datatype Move =
    | Other(tx: Tx)
    | Disconnect
    | MonitorCancels(now: Time)
    | NoticeDisconnect
    | Recheck(now: Time)             // _ensure_queued
    | PassDeadline
    | TryClaim(s: ServerId, a: Attempt, now: Time)
    | AgentAccepts
    | AgentRefuses                   // or errs, or does not answer in time
    | Write(now: Time)               // the awaited transaction commits
    | Interrupt(cause: Cause)        // surfaces at the awaited point
    | StrayFinalize(now: Time)
    | StrayBetween(now: Time)        // after the undo looked for an active lease, before it looks for a reserving one
    | Resume

  // Nobody else claims or finalizes this call's lease.
  predicate Foreign(tx: Tx, id: LeaseId) {
    WellFormed(tx) && !(tx.TxClaim? && tx.id == id) && !(tx.TxFinalize? && tx.id == id)
  }

  ghost predicate Enabled(c: Call, m: Move)
  {
    c.id in c.db.leases &&
    match m
    case Other(tx) => Foreign(tx, c.id)
    case Disconnect => c.monitored
    case MonitorCancels(_) => c.disconnected
    case NoticeDisconnect => c.pc.Looping? && c.disconnected
    case Recheck(_) => c.pc.Looping?
    case PassDeadline => c.pc.Looping?
    case TryClaim(_, _, _) => c.pc.Looping?
    case AgentAccepts => c.pc.Asking?
    case AgentRefuses => c.pc.Asking?
    case Write(_) =>
      (match c.pc
       case Ending(_, done) => !done
       case Finalizing(_, done, _) => done.None?
       case Undoing(_, _, done) => !done
       case Dropping(_, done, _) => !done
       case Handling(_, done, _) => !done
       case LastTry(_, done) => !done
       case _ => false)
    case StrayFinalize(_) => c.stray.Some?
    case StrayBetween(now) =>
      && c.pc.Undoing? && !c.pc.done && c.stray == Some(c.pc.slot)
      && Finalizable(c.db, c.id, c.pc.slot.server, c.pc.slot.generation, c.pc.slot.attempt, now)
    case Interrupt(cause) =>
      (match c.pc
       case Looping => true
       case Ending(_, _) => cause in {TaskCancelled, OtherError}
       case Claimed(_) => cause in {TaskCancelled, OtherError}
       case Asking(_) => cause == TaskCancelled
       case Finalizing(_, _, _) => cause in {TaskCancelled, OtherError}
       case Undoing(_, _, _) => cause == TaskCancelled
       case Dropping(_, _, _) => cause == TaskCancelled
       case Handling(_, _, _) => cause in {TaskCancelled, OtherError}
       case Teardown(_) => c.monitored && cause == TaskCancelled
       case LastTry(_, _) => cause in {TaskCancelled, OtherError}
       case Exited(_) => false)
    case Resume =>
      (match c.pc
       case Ending(_, done) => done
       case Claimed(_) => true
       case Finalizing(_, done, _) => done.Some?
       case Undoing(_, _, done) => done
       case Dropping(_, done, _) => done
       case Handling(_, done, _) => done
       case Teardown(_) => true
       case LastTry(_, done) => done
       case _ => false)
  }

  // What each handler writes over a lease that still waits.
  function EndingOf(cause: Cause): (LeaseStatus, Reason) {
    match cause
    case RequestCancelled => (Cancelled, DisconnectedOrCleared)
    case TaskCancelled => (Cancelled, ClientDisconnected)
    case Timeout => (Expired, QueueTimeout)
    case OtherError => (Failed, AdmissionError)
  }

  function Finish(c: Call, status: LeaseStatus, why: Reason, now: Time): Call {
    c.(db := FinishQueued(c.db, c.id, status, why, now))
  }

  function Wrote(c: Call, now: Time): Call
    requires Enabled(c, Write(now))
  {
    match c.pc
    case Ending(cause, _) =>
      Finish(c, if cause == Timeout then Expired else Cancelled,
             if cause == Timeout then QueueTimeout else ClientDisconnected, now).(pc := Ending(cause, true))
    case Finalizing(slot, _, cancelled) =>
      c.(db := Finalize(c.db, c.id, slot.server, slot.generation, slot.attempt, now),
         pc := Finalizing(slot, Some(Finalizable(c.db, c.id, slot.server, slot.generation, slot.attempt, now)), cancelled))
    case Undoing(slot, after, _) => c.(db := Cleanup(c.db, c.id, slot.attempt, now), pc := Undoing(slot, after, true))
    case Dropping(slot, _, cancelled) =>
      c.(db := EndActive(c.db, c.id, slot.generation, Cancelled, ClientDisconnected, now),
         pc := Dropping(slot, true, cancelled))
    case Handling(cause, _, again) =>
      Finish(c, EndingOf(cause).0, EndingOf(cause).1, now).(pc := Handling(cause, true, again))
    case LastTry(cause, _) => Finish(c, Failed, RequestAbandoned, now).(pc := LastTry(cause, true))
  }

  function Interrupted(c: Call, cause: Cause): Call
    requires Enabled(c, Interrupt(cause))
  {
    match c.pc
    case Finalizing(slot, done, cancelled) =>
      if cause == TaskCancelled && !cancelled then c.(pc := Finalizing(slot, done, true))
      else if cause == TaskCancelled && done.None? then c.(pc := Undoing(slot, Some(cause), false), stray := Some(slot))
      else c.(pc := Undoing(slot, Some(cause), false))
    case Asking(slot) => c.(pc := Undoing(slot, Some(cause), false))
    case Undoing(slot, _, done) => c.(pc := Undoing(slot, Some(cause), done))
    case Dropping(slot, done, _) => c.(pc := Dropping(slot, done, true))
    case Handling(own, done, again) =>
      // the handler of a cancellation is shielded, once; the others are not
      if own == TaskCancelled && cause == TaskCancelled && !again then c.(pc := Handling(own, done, true))
      else c.(pc := Teardown(Raised(cause)), clean := c.clean && done)
    case Teardown(_) => c.(pc := Exited(Raised(cause)))
    case LastTry(_, _) => c.(pc := Exited(Raised(cause)))
    case _ => c.(pc := Handling(cause, false, false))
  }

  function Resumed(c: Call): Call
    requires Enabled(c, Resume)
  {
    c.(pc := match c.pc
             case Ending(cause, _) => Handling(cause, false, false)
             case Claimed(slot) => Asking(slot)
             case Finalizing(slot, done, cancelled) =>
               if cancelled then Undoing(slot, Some(TaskCancelled), false)
               else if !done.value then Undoing(slot, None, false)
               else if c.disconnected then Dropping(slot, false, false)
               else Teardown(Handle(slot))
             case Undoing(_, after, _) => if after.Some? then Handling(after.value, false, false) else Looping
             case Dropping(_, _, cancelled) => Handling(if cancelled then TaskCancelled else RequestCancelled, false, false)
             case Handling(cause, _, _) => Teardown(Raised(cause))
             case Teardown(result) => if result.Handle? then Exited(result) else LastTry(result.cause, false)
             case LastTry(cause, _) => Exited(Raised(cause)))
  }

  ghost function After(c: Call, m: Move): Call
    requires Enabled(c, m)
  {
    match m
    case Other(tx) => c.(db := Commit(c.db, tx))
    case Disconnect => c.(disconnected := true)
    case MonitorCancels(now) => Finish(c, Cancelled, ClientDisconnected, now)
    case NoticeDisconnect => c.(pc := Ending(RequestCancelled, false))
    case Recheck(now) =>
      c.(db := EnsureQueued(c.db, c.id, now),
         pc := if CheckQueued(c.db, c.id, now) == Lost then Handling(RequestCancelled, false, false) else Looping)
    case PassDeadline => c.(pc := Ending(Timeout, false))
    case TryClaim(s, a, now) =>
      if Claimable(c.db, c.id, s, now)
      then c.(db := Claim(c.db, c.id, s, a, now), pc := Claimed(Slot(s, c.db.servers[s].generation, a)))
      else c
    case AgentAccepts => c.(pc := Finalizing(c.pc.slot, None, false))
    case AgentRefuses => c.(pc := Undoing(c.pc.slot, None, false))
    case Write(now) => Wrote(c, now)
    case Interrupt(cause) => Interrupted(c, cause)
    case StrayFinalize(now) =>
      c.(db := Finalize(c.db, c.id, c.stray.value.server, c.stray.value.generation, c.stray.value.attempt, now), stray := None)
    case StrayBetween(now) =>
      c.(db := Finalize(c.db, c.id, c.pc.slot.server, c.pc.slot.generation, c.pc.slot.attempt, now),
         pc := Undoing(c.pc.slot, c.pc.after, true), stray := None, strayed := true)
    case Resume => Resumed(c)
  }

  // ------------------------------------------------------------- invariant

  predicate Owns(l: Leases.Lease, slot: Slot) {
    l.attempt == Some(slot.attempt) && l.server == Some(slot.server) && l.generation == Some(slot.generation)
  }

  // The lease while a claim attempt of this call is out, before and after it was finalized.
  predicate Waiting(l: Leases.Lease, slot: Slot) {
    l.status != Active && (l.status == Reserving ==> Owns(l, slot))
  }

  predicate Started(l: Leases.Lease, slot: Slot) {
    Owns(l, slot) && l.startedAt.Some? && (l.status == Active || l.Terminal())
  }

  // What the lease row may look like at each point of the call.
  predicate Expected(pc: Pc, clean: bool, l: Leases.Lease) {
    match pc
    case Looping => l.status == Queued || l.Terminal()
    case Ending(_, done) => if done then l.Terminal() else l.status == Queued || l.Terminal()
    case Claimed(slot) => Waiting(l, slot)
    case Asking(slot) => Waiting(l, slot)
    case Finalizing(slot, done, _) => if done == Some(true) then Started(l, slot) else Waiting(l, slot)
    case Undoing(slot, _, done) => if done then l.status == Queued || l.Terminal() else Waiting(l, slot) || Started(l, slot)
    case Dropping(slot, done, _) => if done then l.Terminal() else Started(l, slot)
    case Handling(_, done, _) => if done then l.Terminal() else l.status != Active
    case Teardown(Handle(slot)) => Started(l, slot)
    case Teardown(Raised(_)) => l.status != Active && (clean ==> l.Terminal())
    case LastTry(_, done) => l.status != Active && (clean || done ==> l.Terminal())
    case Exited(Handle(slot)) => Started(l, slot)
    case Exited(Raised(_)) => true
  }

  // Once a finalize strayed between the statements of the undo, the call only unwinds.
  predicate Unwinding(pc: Pc) {
    match pc
    case Undoing(_, after, done) => after.Some? && done
    case Handling(_, _, _) => true
    case Teardown(result) => result.Raised?
    case LastTry(_, _) => true
    case Exited(result) => result.Raised?
    case _ => false
  }

  // A stray finalize belongs to the undo that is still to come, or finds nothing left to finalize.
  predicate StrayOk(pc: Pc, stray: Option<Slot>, l: Leases.Lease) {
    stray.Some? ==>
      if pc.Undoing? && !pc.done then pc.slot == stray.value && pc.after.Some?
      else Unwinding(pc) && (l.status == Queued || l.Terminal())
  }

  ghost predicate Ok(c: Call) {
    && DbOk(c.db) && c.id in c.db.leases
    && (if c.strayed then Unwinding(c.pc) && c.stray.None? && (c.Lease().status == Active || c.Lease().Terminal())
        else Expected(c.pc, c.clean, c.Lease()) && StrayOk(c.pc, c.stray, c.Lease()))
  }

  /** The transactions of others end or requeue this call's lease, or leave it; they never claim or activate it. */
  lemma ForeignLeaves(db: Db, tx: Tx, id: LeaseId)
    requires DbOk(db) && id in db.leases && Foreign(tx, id)
    ensures id in Commit(db, tx).leases
    ensures var l, m := db.leases[id], Commit(db, tx).leases[id];
            || m == l || EndsAs(l, m)
            || (l.status == Active && m == l.(expiresAt := m.expiresAt))
            || (l.status == Reserving && m.status == Queued)
  {
    LeaseStep(db, tx, id);
    var b := Commit(db, tx);
    var l, m := db.leases[id], b.leases[id];
    if l.status != Active && m.status == Active {
      LeaseRuns.OnlyFinalizeActivates(db, tx, id);
    }
    if l.status == Queued && m.status == Reserving {
      LeaseRuns.NewAttemptIsClaim(db, tx, id);
    }
  }

  ghost function TxOf(c: Call, m: Move): Option<Tx>
    requires Enabled(c, m)
  {
    match m
    case Other(tx) => Some(tx)
    case MonitorCancels(now) => Some(TxFinishQueued(c.id, Cancelled, ClientDisconnected, now))
    case Recheck(now) => Some(TxEnsureQueued(c.id, now))
    case TryClaim(s, a, now) => Some(TxClaim(c.id, s, a, now))
    case StrayFinalize(now) =>
      Some(TxFinalize(c.id, c.stray.value.server, c.stray.value.generation, c.stray.value.attempt, now))
    case StrayBetween(now) =>
      Some(TxFinalize(c.id, c.pc.slot.server, c.pc.slot.generation, c.pc.slot.attempt, now))
    case Write(now) =>
      Some(match c.pc
           case Ending(cause, _) =>
             TxFinishQueued(c.id, if cause == Timeout then Expired else Cancelled,
                            if cause == Timeout then QueueTimeout else ClientDisconnected, now)
           case Finalizing(slot, _, _) => TxFinalize(c.id, slot.server, slot.generation, slot.attempt, now)
           case Undoing(slot, _, _) => TxCleanup(c.id, slot.attempt, now)
           case Dropping(slot, _, _) => TxEndActive(c.id, slot.generation, Cancelled, ClientDisconnected, now)
           case Handling(cause, _, _) => TxFinishQueued(c.id, EndingOf(cause).0, EndingOf(cause).1, now)
           case LastTry(_, _) => TxFinishQueued(c.id, Failed, RequestAbandoned, now))
    case _ => None
  }

  /** Every step of the call is one transaction of the lease machine, or touches no row. */
  lemma StepIsTransaction(c: Call, m: Move)
    requires Enabled(c, m)
    ensures TxOf(c, m).Some? ==> WellFormed(TxOf(c, m).value) && After(c, m).db == Commit(c.db, TxOf(c, m).value)
    ensures TxOf(c, m).None? ==> After(c, m).db == c.db
  {}

  lemma ForeignStep(c: Call, m: Move)
    requires Ok(c) && Enabled(c, m) && m.Other?
    ensures Ok(After(c, m))
  {
    DbOkStep(c.db, m.tx);
    ForeignLeaves(c.db, m.tx, c.id);
  }

  // The call's own writes to its lease row.
  lemma OwnWrite(c: Call, m: Move)
    requires Ok(c) && Enabled(c, m) && TxOf(c, m).Some? && !m.Other?
    ensures DbOk(After(c, m).db) && c.id in After(c, m).db.leases
  {
    StepIsTransaction(c, m);
    DbOkStep(c.db, TxOf(c, m).value);
    LeaseStep(c.db, TxOf(c, m).value, c.id);
  }

  lemma FinishStep(c: Call, now: Time)
    requires Ok(c) && Enabled(c, Write(now)) && (c.pc.Ending? || c.pc.Handling? || c.pc.LastTry?)
    ensures Ok(After(c, Write(now)))
  {
    OwnWrite(c, Write(now));
  }

  lemma ClaimStep(c: Call, now: Time)
    requires Ok(c) && Enabled(c, Write(now)) && (c.pc.Finalizing? || c.pc.Undoing? || c.pc.Dropping?)
    ensures Ok(After(c, Write(now)))
  {
    OwnWrite(c, Write(now));
  }

  lemma ReadStep(c: Call, m: Move)
    requires Ok(c) && Enabled(c, m) && (m.MonitorCancels? || m.Recheck? || m.TryClaim?)
    ensures Ok(After(c, m))
  {
    OwnWrite(c, m);
  }

  lemma StrayStep(c: Call, m: Move)
    requires Ok(c) && Enabled(c, m) && (m.StrayFinalize? || m.StrayBetween?)
    ensures Ok(After(c, m))
  {
    OwnWrite(c, m);
  }

  lemma ResumeStep(c: Call)
    requires Ok(c) && Enabled(c, Resume)
    ensures Ok(Resumed(c))
  {}

  lemma FinalizeInterrupted(c: Call, cause: Cause)
    requires Ok(c) && Enabled(c, Interrupt(cause)) && c.pc.Finalizing?
    ensures Ok(Interrupted(c, cause))
  {
    if cause == TaskCancelled && !c.pc.cancelled {
      assert Interrupted(c, cause) == c.(pc := Finalizing(c.pc.slot, c.pc.outcome, true));
    } else {
      assert Interrupted(c, cause).db == c.db;
    }
  }

  lemma ClaimInterrupted(c: Call, cause: Cause)
    requires Ok(c) && Enabled(c, Interrupt(cause)) && (c.pc.Undoing? || c.pc.Asking? || c.pc.Dropping?)
    ensures Ok(Interrupted(c, cause))
  {}

  lemma HandlerCancelledAgain(c: Call)
    requires Ok(c) && c.pc.Handling?
    ensures Ok(c.(pc := Handling(c.pc.cause, c.pc.done, true)))
  {}

  lemma HandlerLeft(c: Call, cause: Cause)
    requires Ok(c) && c.pc.Handling?
    ensures Ok(c.(pc := Teardown(Raised(cause)), clean := c.clean && c.pc.done))
  {}

  lemma HandlerInterrupted(c: Call, cause: Cause)
    requires Ok(c) && Enabled(c, Interrupt(cause)) && c.pc.Handling?
    ensures Ok(Interrupted(c, cause))
  {
    if c.pc.cause == TaskCancelled && cause == TaskCancelled && !c.pc.again {
      HandlerCancelledAgain(c);
    } else {
      HandlerLeft(c, cause);
    }
  }

  lemma TeardownInterrupted(c: Call, cause: Cause)
    requires Ok(c) && Enabled(c, Interrupt(cause)) && (c.pc.Teardown? || c.pc.LastTry?)
    ensures Ok(Interrupted(c, cause))
  {}

  lemma LoopInterrupted(c: Call, cause: Cause)
    requires Ok(c) && Enabled(c, Interrupt(cause)) && (c.pc.Looping? || c.pc.Ending? || c.pc.Claimed?)
    ensures Ok(Interrupted(c, cause))
  {}

  lemma InterruptStep(c: Call, cause: Cause)
    requires Ok(c) && Enabled(c, Interrupt(cause))
    ensures Ok(Interrupted(c, cause))
  {
    match c.pc
    case Looping => LoopInterrupted(c, cause);
    case Ending(_, _) => LoopInterrupted(c, cause);
    case Claimed(_) => LoopInterrupted(c, cause);
    case Handling(_, _, _) => HandlerInterrupted(c, cause);
    case Teardown(_) => TeardownInterrupted(c, cause);
    case LastTry(_, _) => TeardownInterrupted(c, cause);
    case Finalizing(_, _, _) => FinalizeInterrupted(c, cause);
    case _ => ClaimInterrupted(c, cause);
  }

  lemma OkStep(c: Call, m: Move)
    requires Ok(c) && Enabled(c, m)
    ensures Ok(After(c, m))
  {
    match m
    case Other(_) => ForeignStep(c, m);
    case Write(now) =>
      if c.pc.Ending? || c.pc.Handling? || c.pc.LastTry? {
        FinishStep(c, now);
      } else {
        ClaimStep(c, now);
      }
    case MonitorCancels(_) => ReadStep(c, m);
    case Recheck(_) => ReadStep(c, m);
    case TryClaim(_, _, _) => ReadStep(c, m);
    case StrayFinalize(_) => StrayStep(c, m);
    case StrayBetween(_) => StrayStep(c, m);
    case Resume => ResumeStep(c);
    case Interrupt(cause) => InterruptStep(c, cause);
    case _ =>
  }
}
