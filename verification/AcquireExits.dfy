/** How an `acquire` call ends, over every run of it against the shared database. */
module AcquireExits {
  import opened Common
  import opened Leases
  import opened LeaseLifecycle
  import opened Acquire

  datatype Run = Run(calls: seq<Call>, moves: seq<Move>)

  ghost predicate Start(c: Call) {
    && DbOk(c.db) && c.id in c.db.leases && c.Lease().status == Queued
    && c.pc == Looping && c.clean && !c.disconnected && c.stray.None? && !c.strayed
  }

  ghost predicate Valid(run: Run) {
    && |run.calls| == |run.moves| + 1
    && Start(run.calls[0])
    && forall i {:trigger run.moves[i]} | 0 <= i < |run.moves| ::
         Enabled(run.calls[i], run.moves[i]) && run.calls[i + 1] == After(run.calls[i], run.moves[i])
  }

  lemma {:induction false} Reachable(run: Run, i: nat)
    requires Valid(run) && i < |run.calls|
    ensures Ok(run.calls[i])
  {
    if i > 0 {
      Reachable(run, i - 1);
      OkStep(run.calls[i - 1], run.moves[i - 1]);
    }
  }

  // The call raised, and its lease still counts.
  ghost predicate Leaks(c: Call)
    requires c.id in c.db.leases
  {
    c.pc.Exited? && c.pc.result.Raised? && !c.Lease().Terminal()
  }

  // The teardown was cut short: with the handle already claimed, or after a handler that was itself interrupted.
  ghost predicate CutShort(c: Call, m: Move)
    requires c.id in c.db.leases
  {
    m.Interrupt? &&
    match c.pc
    case Teardown(Handle(_)) => c.Lease().status == Active
    case Teardown(Raised(_)) => !c.clean && c.Lease().status in {Queued, Reserving}
    case LastTry(_, done) => !done && !c.clean && c.Lease().status in {Queued, Reserving}
    case _ => false
  }

  // An abandoned finalize slipped between the statements of the undo and its lease is still active.
  ghost predicate LeftActive(c: Call)
    requires c.id in c.db.leases
  {
    c.strayed && c.Lease().status == Active
  }

  // What the invariant says of the lease where a call can exit.
  predicate AtExit(c: Call) {
    && c.id in c.db.leases
    && (c.strayed ==> c.Lease().status == Active || c.Lease().Terminal())
    && (!c.strayed ==>
          match c.pc
          case Teardown(Handle(_)) => c.Lease().status == Active || c.Lease().Terminal()
          case Teardown(Raised(_)) => c.Lease().status != Active && (c.clean ==> c.Lease().Terminal())
          case LastTry(_, done) => c.Lease().status != Active && (c.clean || done ==> c.Lease().Terminal())
          case _ => true)
    && (c.strayed && c.pc.Teardown? ==> c.pc.result.Raised?)
  }

  lemma OkAtExit(c: Call)
    requires Ok(c)
    ensures AtExit(c)
  {}

  lemma ExitByInterrupt(c: Call, cause: Cause)
    requires AtExit(c) && Enabled(c, Interrupt(cause)) && !c.pc.Exited? && Interrupted(c, cause).pc.Exited?
    ensures Leaks(Interrupted(c, cause)) <==> CutShort(c, Interrupt(cause)) || LeftActive(c)
  {}

  lemma ExitByReturn(c: Call)
    requires AtExit(c) && Enabled(c, Resume) && !c.pc.Exited? && Resumed(c).pc.Exited?
    ensures Leaks(Resumed(c)) <==> LeftActive(c)
  {}

  lemma ExitsOnlyThere(c: Call, m: Move)
    requires c.id in c.db.leases && Enabled(c, m) && !c.pc.Exited? && After(c, m).pc.Exited?
    ensures m.Interrupt? || m == Resume
  {}

  /**
   * The call leaves a live lease behind exactly when its teardown is cut short, or a finalize it
   * was cancelled out of twice committed in the middle of its undo. In particular one
   * cancellation while waiting for the disconnect monitor, after the claim succeeded, drops the
   * handle of an active lease.
   */
  lemma LeaksExactlyWhenCutShort(run: Run, i: nat)
    requires Valid(run) && i < |run.moves|
    requires !run.calls[i].pc.Exited? && run.calls[i + 1].pc.Exited?
    ensures run.calls[i].id in run.calls[i].db.leases && run.calls[i + 1].id in run.calls[i + 1].db.leases
    ensures Leaks(run.calls[i + 1]) <==> CutShort(run.calls[i], run.moves[i]) || LeftActive(run.calls[i])
  {
    Reachable(run, i);
    OkAtExit(run.calls[i]);
    ExitStep(run.calls[i], run.moves[i], run.calls[i + 1]);
  }

  lemma ExitStep(c: Call, m: Move, d: Call)
    requires AtExit(c) && Enabled(c, m) && d == After(c, m) && !c.pc.Exited? && d.pc.Exited?
    ensures d.id in d.db.leases
    ensures Leaks(d) <==> CutShort(c, m) || LeftActive(c)
  {
    match m
    case Interrupt(cause) => ExitByInterrupt(c, cause);
    case Resume => ExitByReturn(c);
    case _ => ExitsOnlyThere(c, m);
  }

  // No handler is interrupted before its transaction committed (one more cancellation of the handler
  // of a cancellation does not), nor the teardown with the handle claimed, and no abandoned finalize
  // slips into an undo.
  ghost predicate EndsUndisturbed(run: Run, i: nat)
    requires |run.calls| == |run.moves| + 1 && i < |run.calls|
  {
    forall k {:trigger run.moves[k]} | 0 <= k < i :: Undisturbed(run.calls[k], run.moves[k])
  }

  lemma ExitedStays(c: Call, m: Move)
    requires Ok(c) && Enabled(c, m) && c.pc.Exited? && !Leaks(c) && !c.strayed
    ensures After(c, m).pc == c.pc && After(c, m).id == c.id && After(c, m).id in After(c, m).db.leases
    ensures !Leaks(After(c, m))
  {
    OkStep(c, m);
    StepIsTransaction(c, m);
    if TxOf(c, m).Some? {
      LeaseStep(c.db, TxOf(c, m).value, c.id);
    }
  }

  predicate Undisturbed(c: Call, m: Move) {
    && !m.StrayBetween?
    && (m.Interrupt? ==>
          match c.pc
          case Handling(own, done, again) => done || (own == TaskCancelled && m.cause == TaskCancelled && !again)
          case Teardown(result) => result.Raised?
          case _ => true)
  }

  lemma CleanStays(c: Call, m: Move)
    requires c.id in c.db.leases && Enabled(c, m) && Undisturbed(c, m) && c.clean && !c.strayed
    ensures After(c, m).clean && !After(c, m).strayed
  {}

  lemma UndisturbedStep(c: Call, m: Move)
    requires Ok(c) && Enabled(c, m) && Undisturbed(c, m) && c.clean && !c.strayed && !Leaks(c)
    ensures After(c, m).clean && !After(c, m).strayed
    ensures After(c, m).id in After(c, m).db.leases && !Leaks(After(c, m))
  {
    CleanStays(c, m);
    OkStep(c, m);
    if c.pc.Exited? {
      ExitedStays(c, m);
    } else if After(c, m).pc.Exited? {
      OkAtExit(c);
      ExitStep(c, m, After(c, m));
    }
  }

  /**
   * However often the call is cancelled, disconnected, cleared from the queue or failed at any
   * other await, once it has exited its lease is ended unless its handle was returned.
   */
  lemma {:induction false} BodyInterruptionsNeverLeak(run: Run, i: nat)
    requires Valid(run) && i < |run.calls| && EndsUndisturbed(run, i)
    ensures run.calls[i].clean && !run.calls[i].strayed
    ensures run.calls[i].id in run.calls[i].db.leases && !Leaks(run.calls[i])
  {
    if i > 0 {
      BodyInterruptionsNeverLeak(run, i - 1);
      Reachable(run, i - 1);
      assert Undisturbed(run.calls[i - 1], run.moves[i - 1]);
      UndisturbedStep(run.calls[i - 1], run.moves[i - 1]);
    }
  }

  // --------------------------------------- leaks in terms of the call's own writes

  // A write by which the call itself ends its lease.
  ghost predicate Ends(c: Call, m: Move)
    requires c.id in c.db.leases
  {
    m.Write? && (c.pc.Ending? || c.pc.Handling? || c.pc.LastTry? || c.pc.Dropping?
                 || (c.pc.Undoing? && c.Lease().status == Active))
  }

  ghost predicate EndedItself(run: Run, n: nat)
    requires |run.calls| == |run.moves| + 1 && n < |run.calls|
  {
    n > 0 && ((run.calls[n - 1].id in run.calls[n - 1].db.leases && Ends(run.calls[n - 1], run.moves[n - 1]))
              || EndedItself(run, n - 1))
  }

  // Nobody else ends the lease: not other transactions, not the disconnect monitor.
  ghost predicate LeftAlone(run: Run, n: nat)
    requires |run.calls| == |run.moves| + 1 && n < |run.calls|
  {
    forall k {:trigger run.moves[k]} | 0 <= k < n && (run.moves[k].Other? || run.moves[k].MonitorCancels?) ::
      run.calls[k + 1].id in run.calls[k + 1].db.leases && run.calls[k + 1].Lease().Terminal() ==>
        run.calls[k].id in run.calls[k].db.leases && run.calls[k].Lease().Terminal()
  }

  // Where the call stands with its lease: a stray finalize left it active, or it has ended itself or not.
  predicate Standing(c: Call, ended: bool)
    requires c.id in c.db.leases
  {
    if c.strayed then c.Lease().status == Active else c.Lease().Terminal() <==> ended
  }

  lemma StandingThroughFinish(c: Call, m: Move, ended: bool)
    requires Ok(c) && Enabled(c, m) && m.Write? && (c.pc.Ending? || c.pc.Handling? || c.pc.LastTry?) && Standing(c, ended)
    ensures After(c, m).id in After(c, m).db.leases && Standing(After(c, m), true)
  {}

  lemma StandingThroughClaim(c: Call, m: Move, ended: bool)
    requires Ok(c) && Enabled(c, m) && m.Write? && (c.pc.Finalizing? || c.pc.Undoing? || c.pc.Dropping?) && Standing(c, ended)
    ensures After(c, m).id in After(c, m).db.leases && Standing(After(c, m), ended || Ends(c, m))
  {}

  lemma StandingThroughRead(c: Call, m: Move, ended: bool)
    requires Ok(c) && Enabled(c, m) && (m.Recheck? || m.TryClaim? || m.StrayFinalize? || m.StrayBetween?) && Standing(c, ended)
    ensures After(c, m).id in After(c, m).db.leases && Standing(After(c, m), ended) && !Ends(c, m)
  {}

  lemma StandingThroughQuiet(c: Call, m: Move, ended: bool)
    requires c.id in c.db.leases && Enabled(c, m) && TxOf(c, m).None? && Standing(c, ended)
    ensures After(c, m).id in After(c, m).db.leases && Standing(After(c, m), ended) && !Ends(c, m)
  {
    StepIsTransaction(c, m);
    SameCall(c, m);
  }

  lemma SameCall(c: Call, m: Move)
    requires Enabled(c, m)
    ensures After(c, m).id == c.id && (After(c, m).strayed == c.strayed || m.StrayBetween?)
  {
    match m
    case Interrupt(cause) => assert Interrupted(c, cause).id == c.id;
    case Resume => assert Resumed(c).id == c.id;
    case Write(now) => assert Wrote(c, now).id == c.id;
    case _ =>
  }

  // Other transactions and the monitor: they may end the lease, or they leave its standing as it is.
  lemma StandingThroughOthers(c: Call, m: Move, ended: bool)
    requires Ok(c) && Enabled(c, m) && (m.Other? || m.MonitorCancels?) && Standing(c, ended)
    ensures After(c, m).id in After(c, m).db.leases && !Ends(c, m)
    ensures (After(c, m).Lease().Terminal() ==> c.Lease().Terminal()) ==> Standing(After(c, m), ended)
  {
    StepIsTransaction(c, m);
    SameCall(c, m);
    LeaseStep(c.db, TxOf(c, m).value, c.id);
  }

  lemma StandingStep(c: Call, m: Move, ended: bool)
    requires Ok(c) && Enabled(c, m) && Standing(c, ended)
    requires After(c, m).id in After(c, m).db.leases
    requires (m.Other? || m.MonitorCancels?) && After(c, m).Lease().Terminal() ==> c.Lease().Terminal()
    ensures Standing(After(c, m), ended || Ends(c, m))
  {
    if m.Other? || m.MonitorCancels? {
      StandingThroughOthers(c, m, ended);
    } else if m.Write? {
      if c.pc.Ending? || c.pc.Handling? || c.pc.LastTry? {
        StandingThroughFinish(c, m, ended);
      } else {
        StandingThroughClaim(c, m, ended);
      }
    } else if m.Recheck? || m.TryClaim? || m.StrayFinalize? || m.StrayBetween? {
      StandingThroughRead(c, m, ended);
    } else {
      StandingThroughQuiet(c, m, ended);
    }
  }

  lemma {:induction false} StandingAlong(run: Run, n: nat)
    requires Valid(run) && n < |run.calls| && LeftAlone(run, n)
    ensures run.calls[n].id in run.calls[n].db.leases && Standing(run.calls[n], EndedItself(run, n))
  {
    Reachable(run, n);
    if n > 0 {
      StandingAlong(run, n - 1);
      Reachable(run, n - 1);
      assert run.calls[n] == After(run.calls[n - 1], run.moves[n - 1]);
      StandingStep(run.calls[n - 1], run.moves[n - 1], EndedItself(run, n - 1));
    }
  }

  /**
   * When nobody else ends the lease, a call that raised leaks it exactly when an abandoned
   * finalize slipped into its undo, or none of the writes by which it would have ended the lease
   * itself (before raising, in the undo, in a handler, in the last try) committed.
   */
  lemma LeaksIffNeverEndedItself(run: Run, n: nat)
    requires Valid(run) && n < |run.calls| && LeftAlone(run, n)
    requires run.calls[n].pc.Exited? && run.calls[n].pc.result.Raised?
    ensures run.calls[n].id in run.calls[n].db.leases
    ensures Leaks(run.calls[n]) <==> run.calls[n].strayed || !EndedItself(run, n)
  {
    StandingAlong(run, n);
  }

  /**
   * Two cancellations while a claim is being finalized are enough for that: the finalize runs on,
   * and commits after the undo looked for an active lease and before it looks for a reserving one.
   */
  lemma AbandonedFinalizeStrays(c: Call, now: Time)
    requires Ok(c) && c.pc.Finalizing? && c.pc.outcome.None? && c.pc.cancelled && !c.strayed
    requires Finalizable(c.db, c.id, c.pc.slot.server, c.pc.slot.generation, c.pc.slot.attempt, now)
    ensures Enabled(c, Interrupt(TaskCancelled)) && Enabled(Interrupted(c, TaskCancelled), StrayBetween(now))
    ensures var d := After(Interrupted(c, TaskCancelled), StrayBetween(now));
            && d.id in d.db.leases && d.strayed && d.Lease().status == Active && Owns(d.Lease(), c.pc.slot)
            && d.pc == Undoing(c.pc.slot, Some(TaskCancelled), true)
  {
    InterruptStep(c, TaskCancelled);
    StrayStep(Interrupted(c, TaskCancelled), StrayBetween(now));
  }

  // --------------------------------------------- what each point of the call does

  /** The status and the reason a call leaves on its lease, if it still waits, or is active and the client is gone. */
  lemma WritesAre(c: Call, now: Time)
    requires Ok(c) && Enabled(c, Write(now)) && (c.pc.Ending? || c.pc.Handling? || c.pc.LastTry? || c.pc.Dropping?)
    ensures After(c, Write(now)).id in After(c, Write(now)).db.leases
    ensures var l, m := c.Lease(), After(c, Write(now)).Lease();
            if l.status == Queued || l.status == Reserving then
              match c.pc
              case Ending(Timeout, _) => m == l.(status := Expired, reason := Some(QueueTimeout), releasedAt := Some(now))
              case Ending(_, _) => m == l.(status := Cancelled, reason := Some(ClientDisconnected), releasedAt := Some(now))
              case Handling(RequestCancelled, _, _) =>
                m == l.(status := Cancelled, reason := Some(DisconnectedOrCleared), releasedAt := Some(now))
              case Handling(TaskCancelled, _, _) =>
                m == l.(status := Cancelled, reason := Some(ClientDisconnected), releasedAt := Some(now))
              case Handling(Timeout, _, _) => m == l.(status := Expired, reason := Some(QueueTimeout), releasedAt := Some(now))
              case Handling(OtherError, _, _) => m == l.(status := Failed, reason := Some(AdmissionError), releasedAt := Some(now))
              case _ => m == l.(status := Failed, reason := Some(RequestAbandoned), releasedAt := Some(now))
            else if l.status == Active && c.pc.Dropping? then
              m == l.(status := Cancelled, reason := Some(ClientDisconnected), releasedAt := Some(now))
            else m == l
  {}

  /** A call that raises has been through its teardown: unless that is interrupted, it has tried to end its lease there. */
  lemma ExitsThroughTeardown(c: Call, m: Move)
    requires c.id in c.db.leases && Enabled(c, m) && !c.pc.Exited? && After(c, m).pc.Exited?
    ensures m == Resume && After(c, m).pc.result.Raised? ==> c.pc == LastTry(After(c, m).pc.result.cause, true)
    ensures m == Resume && After(c, m).pc.result.Handle? ==> c.pc == Teardown(After(c, m).pc.result)
    ensures m != Resume ==> m.Interrupt? && After(c, m).pc == Exited(Raised(m.cause)) && (c.pc.Teardown? || c.pc.LastTry?)
  {}

  /** The disconnect monitor of a client that went away cancels the lease if it still waits, and only then. */
  lemma MonitorWrites(c: Call, now: Time)
    requires c.id in c.db.leases && c.disconnected
    ensures Enabled(c, MonitorCancels(now)) && After(c, MonitorCancels(now)).pc == c.pc
    ensures var l, d := c.Lease(), After(c, MonitorCancels(now)).db;
            d == if l.status == Queued || l.status == Reserving
                 then c.db.(leases := c.db.leases[c.id := l.(status := Cancelled, reason := Some(ClientDisconnected),
                                                             releasedAt := Some(now))])
                 else c.db
  {}

  // What the call is on its way to raise.
  function Raising(pc: Pc): Option<Cause> {
    match pc
    case Ending(cause, _) => Some(cause)
    case Finalizing(_, _, cancelled) => if cancelled then Some(TaskCancelled) else None
    case Undoing(_, after, _) => after
    case Dropping(_, _, cancelled) => Some(if cancelled then TaskCancelled else RequestCancelled)
    case Handling(cause, _, _) => Some(cause)
    case Teardown(Raised(cause)) => Some(cause)
    case LastTry(cause, _) => Some(cause)
    case Exited(Raised(cause)) => Some(cause)
    case _ => None
  }

  lemma InterruptRaises(c: Call, cause: Cause)
    requires Enabled(c, Interrupt(cause))
    ensures Raising(Interrupted(c, cause).pc) == Some(cause)
  {}

  lemma ReturnKeepsRaising(c: Call)
    requires Enabled(c, Resume) && Raising(c.pc).Some?
    ensures Raising(Resumed(c).pc) == Raising(c.pc)
  {}

  lemma RaisingStays(c: Call, m: Move)
    requires Enabled(c, m) && (m.Interrupt? || Raising(c.pc).Some?)
    ensures Raising(After(c, m).pc) == if m.Interrupt? then Some(m.cause) else Raising(c.pc)
  {
    match m
    case Interrupt(cause) => InterruptRaises(c, cause);
    case Resume => ReturnKeepsRaising(c);
    case _ =>
  }

  lemma StepRaises(run: Run, k: nat)
    requires Valid(run) && k < |run.moves| && (run.moves[k].Interrupt? || Raising(run.calls[k].pc).Some?)
    ensures Raising(run.calls[k + 1].pc) == if run.moves[k].Interrupt? then Some(run.moves[k].cause) else Raising(run.calls[k].pc)
  {
    assert Enabled(run.calls[k], run.moves[k]) && run.calls[k + 1] == After(run.calls[k], run.moves[k]);
    RaisingStays(run.calls[k], run.moves[k]);
  }

  /** No cancellation or error is swallowed: a call interrupted anywhere ends by raising, and what surfaced last. */
  lemma {:induction false} InterruptedCallRaises(run: Run, i: nat, j: nat)
    requires Valid(run) && i < j < |run.calls| && run.moves[i].Interrupt?
    requires forall k {:trigger run.moves[k]} | i < k < j :: !run.moves[k].Interrupt?
    ensures Raising(run.calls[j].pc) == Some(run.moves[i].cause)
    ensures run.calls[j].pc.Exited? ==> run.calls[j].pc.result == Raised(run.moves[i].cause)
    decreases j
  {
    if i + 1 < j {
      InterruptedCallRaises(run, i, j - 1);
    }
    StepRaises(run, j - 1);
  }

  // A call that raises nothing yet, and what makes it raise.
  ghost predicate StartsRaising(c: Call, m: Move, cause: Cause)
    requires c.id in c.db.leases
  {
    || m == Interrupt(cause)
    || (m == PassDeadline && cause == Timeout)
    || (m == NoticeDisconnect && cause == RequestCancelled)
    || (m.Recheck? && cause == RequestCancelled && c.Lease().status != Queued
        && !(c.Lease().status == Reserving && c.Lease().reservationExpires.Some?))
    || (m == Resume && cause == RequestCancelled && c.disconnected
        && c.pc.Finalizing? && c.pc.outcome == Some(true))
  }

  lemma ReturnStartsRaising(c: Call)
    requires c.id in c.db.leases && Enabled(c, Resume) && Raising(c.pc) == None
    ensures Raising(Resumed(c).pc) ==
            if c.disconnected && c.pc.Finalizing? && c.pc.outcome == Some(true) then Some(RequestCancelled) else None
  {}

  /**
   * Which exception a call raises: the one that surfaced; a timeout when its deadline passed; a
   * cancelled request when it saw its client gone, before or after its claim, or its lease ended. For
   * nothing else does it begin to raise.
   */
  lemma RaisesIff(c: Call, m: Move, cause: Cause)
    requires Ok(c) && Enabled(c, m) && Raising(c.pc) == None
    ensures Raising(After(c, m).pc) == Some(cause) <==> StartsRaising(c, m, cause)
  {
    match m
    case Interrupt(x) => InterruptRaises(c, x);
    case Resume => ReturnStartsRaising(c);
    case _ =>
  }

  /** A handle is only handed over for a committed finalize, uninterrupted, to a client that has not gone away. */
  lemma HandleOnlyWhileConnected(c: Call, m: Move, slot: Slot)
    requires Enabled(c, m) && After(c, m).pc == Teardown(Handle(slot)) && c.pc != Teardown(Handle(slot))
    ensures m == Resume && c.pc == Finalizing(slot, Some(true), false) && !c.disconnected
  {
    match m
    case Interrupt(cause) => InterruptRaises(c, cause);
    case Resume => ReturnHandsOver(c, slot);
    case _ =>
  }

  lemma ReturnHandsOver(c: Call, slot: Slot)
    requires Enabled(c, Resume) && Resumed(c).pc == Teardown(Handle(slot))
    ensures c.pc == Finalizing(slot, Some(true), false) && !c.disconnected
  {}

  /** A cancellation may surface at every await of the call. */
  lemma AnyAwaitCanBeCancelled(c: Call)
    requires c.id in c.db.leases && !c.pc.Exited? && (c.pc.Teardown? ==> c.monitored)
    ensures Enabled(c, Interrupt(TaskCancelled))
  {}

  // ------------------------------------------------- handles and finalizing

  ghost predicate FinalizedAt(run: Run, k: nat, slot: Slot)
    requires |run.calls| == |run.moves| + 1
  {
    && k < |run.moves|
    && run.moves[k].Write? && run.calls[k].pc.Finalizing? && run.calls[k].pc.slot == slot
    && Finalizable(run.calls[k].db, run.calls[k].id, slot.server, slot.generation, slot.attempt, run.moves[k].now)
  }

  // The attempt whose finalize this point of the call relies on.
  function Relies(pc: Pc): Option<Slot> {
    match pc
    case Finalizing(slot, Some(true), _) => Some(slot)
    case Dropping(slot, _, _) => Some(slot)
    case Teardown(Handle(slot)) => Some(slot)
    case Exited(Handle(slot)) => Some(slot)
    case _ => None
  }

  lemma InterruptReliesOnNothingNew(c: Call, cause: Cause)
    requires Enabled(c, Interrupt(cause))
    ensures Relies(Interrupted(c, cause).pc) in {None, Relies(c.pc)}
  {}

  lemma ReturnReliesOnNothingNew(c: Call)
    requires Enabled(c, Resume)
    ensures Relies(Resumed(c).pc) in {None, Relies(c.pc)}
  {}

  lemma OnlyFinalizeIsReliedOn(c: Call, m: Move)
    requires Enabled(c, m) && Relies(After(c, m).pc).Some? && Relies(c.pc) != Relies(After(c, m).pc)
    ensures m.Write? && c.pc.Finalizing? && Relies(After(c, m).pc) == Some(c.pc.slot)
    ensures Finalizable(c.db, c.id, c.pc.slot.server, c.pc.slot.generation, c.pc.slot.attempt, m.now)
  {
    match m
    case Interrupt(cause) => InterruptReliesOnNothingNew(c, cause);
    case Resume => ReturnReliesOnNothingNew(c);
    case Write(_) =>
    case _ =>
  }

  lemma {:induction false} FinalizedBefore(run: Run, i: nat) returns (k: nat)
    requires Valid(run) && i < |run.calls| && Relies(run.calls[i].pc).Some?
    ensures k < i && FinalizedAt(run, k, Relies(run.calls[i].pc).value)
  {
    assert i > 0;
    var c, m := run.calls[i - 1], run.moves[i - 1];
    assert run.calls[i] == After(c, m);
    if Relies(c.pc) == Relies(run.calls[i].pc) {
      k := FinalizedBefore(run, i - 1);
    } else {
      k := i - 1;
      OnlyFinalizeIsReliedOn(c, m);
    }
  }

  /** A returned handle names the attempt this call finalized, and its lease was activated as that attempt. */
  lemma ReturnedHandleWasActivated(run: Run, i: nat) returns (k: nat)
    requires Valid(run) && i < |run.calls| && run.calls[i].pc.Exited? && run.calls[i].pc.result.Handle?
    ensures k < i && FinalizedAt(run, k, run.calls[i].pc.result.slot)
    ensures var c := run.calls[i];
            c.id in c.db.leases && Started(c.Lease(), c.pc.result.slot)
  {
    Reachable(run, i);
    k := FinalizedBefore(run, i);
  }

  /** A request never finds its own earlier reservation in the way: `_ensure_queued` never says "not yet". */
  lemma NeverWaitsForOwnReservation(run: Run, i: nat)
    requires Valid(run) && i < |run.moves| && run.moves[i].Recheck?
    ensures CheckQueued(run.calls[i].db, run.calls[i].id, run.moves[i].now) != NotYet
  {
    Reachable(run, i);
    assert Enabled(run.calls[i], run.moves[i]);
  }

  // ------------------------------------------------------------- a witness

  const ROW := ServerRow(0, 0, Running, Healthy, 1, 1, None)
  const WAITING := Leases.Lease(0, 0, None, None, 0, 1_000_000, Queued, None, None, None, None, None, None, None)

  const SLOT := Slot(0, 1, 7)
  const RESERVED := WAITING.(status := Reserving, server := Some(0), generation := Some(1), attempt := Some(7),
                             reservationExpires := Some(12_000))
  const ACTIVATED := RESERVED.(status := Active, startedAt := Some(1), expiresAt := 90_001, reservationExpires := None)

  // One idle server, one request.
  function Stage(l: Leases.Lease, pc: Pc): Call {
    Call(Db(map[0 := l], map[0 := ROW]), 0, pc, true, false, true, None, false)
  }

  lemma StageClaims()
    ensures Enabled(Stage(WAITING, Looping), TryClaim(0, 7, 0))
    ensures After(Stage(WAITING, Looping), TryClaim(0, 7, 0)) == Stage(RESERVED, Claimed(SLOT))
  {
    var db := Stage(WAITING, Looping).db;
    assert Occupants(db, 0, 0) == {};
    assert IsHead(db, 0, 0, 0);
    assert Claimable(db, 0, 0, 0);
  }

  lemma StageFinalizes()
    ensures Enabled(Stage(RESERVED, Finalizing(SLOT, None, false)), Write(1))
    ensures After(Stage(RESERVED, Finalizing(SLOT, None, false)), Write(1))
            == Stage(ACTIVATED, Finalizing(SLOT, Some(true), false))
  {
    assert Finalizable(Stage(RESERVED, Looping).db, 0, 0, 1, 7, 1);
  }

  function Scripted(k: nat): Move
    requires k < 6
  {
    match k
    case 0 => TryClaim(0, 7, 0)
    case 1 => Resume
    case 2 => AgentAccepts
    case 3 => Write(1)
    case 4 => Resume
    case _ => Interrupt(TaskCancelled)
  }

  function Played(k: nat): Call
    requires k < 7
  {
    match k
    case 0 => Stage(WAITING, Looping)
    case 1 => Stage(RESERVED, Claimed(SLOT))
    case 2 => Stage(RESERVED, Asking(SLOT))
    case 3 => Stage(RESERVED, Finalizing(SLOT, None, false))
    case 4 => Stage(ACTIVATED, Finalizing(SLOT, Some(true), false))
    case 5 => Stage(ACTIVATED, Teardown(Handle(SLOT)))
    case _ => Stage(ACTIVATED, Exited(Raised(TaskCancelled)))
  }

  lemma PlaysAsScripted(k: nat)
    requires k < 6
    ensures Enabled(Played(k), Scripted(k)) && After(Played(k), Scripted(k)) == Played(k + 1)
  {
    if k == 0 {
      StageClaims();
    } else if k == 3 {
      StageFinalizes();
    }
  }

  lemma PlayStarts()
    ensures Start(Played(0))
  {}

  lemma PlayLeaks()
    ensures Played(6).id in Played(6).db.leases && Leaks(Played(6)) && Played(6).Lease().status == Active
  {}

  lemma PlayedIsValid(run: Run)
    requires |run.calls| == 7 && |run.moves| == 6
    requires forall k {:trigger run.calls[k]} | 0 <= k < 7 :: run.calls[k] == Played(k)
    requires forall k {:trigger run.moves[k]} | 0 <= k < 6 :: run.moves[k] == Scripted(k)
    ensures Valid(run)
  {
    PlayStarts();
    forall i | 0 <= i < 6
      ensures Enabled(run.calls[i], run.moves[i]) && run.calls[i + 1] == After(run.calls[i], run.moves[i])
    {
      PlaysAsScripted(i);
    }
  }

  /** One cancellation, in the teardown of a call that has its slot, is enough. */
  lemma TeardownCancellationLeaks() returns (run: Run)
    ensures Valid(run) && |run.calls| == 7 == |run.moves| + 1
    ensures forall k | 0 <= k < 6 :: run.moves[k] == Scripted(k)
    ensures run.calls[6].id in run.calls[6].db.leases && Leaks(run.calls[6]) && run.calls[6].Lease().status == Active
  {
    run := Run(seq(7, k requires 0 <= k < 7 => Played(k)), seq(6, k requires 0 <= k < 6 => Scripted(k)));
    PlayedIsValid(run);
    PlayLeaks();
  }
}
