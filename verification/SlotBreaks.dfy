/**
 * How an agent comes to miscount its slots: what leaves a request behind that still gives a
 * slot back although its operation is over, and the run that follows.
 */
module SlotBreaks {
  import opened Common
  import opened Operations
  import opened SlotLedger
  import opened SlotConservation
  import opened SlotLaw
  import SlotLeaks

  // Request t will give back a slot of the running process of s, but its operation has ended.
  predicate Stale(a: Agent, s: ServerId, t: TaskId) {
    && HoldsLive(a, s, t)
    && a.tasks[t].op.Some?
    && !(a.tasks[t].op.value in a.ops && a.ops[a.tasks[t].op.value].Live())
  }

  // A new request takes a slot and the stale one ends.
  function Overlap(a: Agent, s: ServerId, t: TaskId, now: Time): seq<Event> {
    [Enqueue(s, None, None, false), Grant(a.nextTask, now), Finish(t, OpCompleted, now)]
  }

  // The new request gets its slot; the stale one stays stale.
  lemma NewcomerTakesSlot(a: Agent, s: ServerId, t: TaskId, now: Time)
    requires a.nextTask !in a.tasks && Stale(a, s, t) && a.HasRoom(s)
    ensures var b := EnqueueRequest(a, s, None, None, false);
            var c := GrantSlot(b, a.nextTask, now);
            && Keeps(b, Grant(a.nextTask, now))
            && Stale(c, s, t) && c.Count(s) == a.Count(s) + 1
  {}

  lemma StaleFinishBreaks(c: Agent, s: ServerId, t: TaskId, now: Time)
    requires Basic(c) && Conserved(c) && Stale(c, s, t) && c.Count(s) > 0
    ensures !Conserved(Apply(c, Finish(t, OpCompleted, now)))
  {
    FinishLaw(c, Finish(t, OpCompleted, now));
  }

  /** One new request and the end of a stale one: the counter no longer counts the new one. */
  lemma StaleRequestBreaksLaw(a: Agent, s: ServerId, t: TaskId, now: Time)
    requires Basic(a) && Conserved(a) && Stale(a, s, t) && a.HasRoom(s)
    ensures EnabledRun(a, Overlap(a, s, t, now)) && !Conserved(Run(a, Overlap(a, s, t, now)))
  {
    var es := Overlap(a, s, t, now);
    var b := Apply(a, es[0]);
    var c := Apply(b, es[1]);
    NewcomerTakesSlot(a, s, t, now);
    StepKeepsLaw(a, es[0]);
    StepKeepsLaw(b, es[1]);
    StaleFinishBreaks(c, s, t, now);
    RunOfThree(a, es);
  }

  lemma RunOfThree(a: Agent, es: seq<Event>)
    requires |es| == 3
    ensures Run(a, es) == Apply(Apply(Apply(a, es[0]), es[1]), es[2])
    ensures EnabledRun(a, es) <==>
            Enabled(a, es[0]) && Enabled(Apply(a, es[0]), es[1]) && Enabled(Apply(Apply(a, es[0]), es[1]), es[2])
  {
    var rest := es[1..];
    assert rest[1..] == [es[2]] && rest[0] == es[1];
    var c := Apply(Apply(a, es[0]), es[1]);
    assert [es[2]][1..] == [];
    assert Run(c, [es[2]]) == Run(Apply(c, es[2]), []);
    assert Run(a, es) == Run(Apply(a, es[0]), rest) == Run(c, rest[1..]);
    assert EnabledRun(c, [es[2]]) <==> Enabled(c, es[2]) && EnabledRun(Apply(c, es[2]), []);
    assert EnabledRun(Apply(a, es[0]), rest) <==> Enabled(Apply(a, es[0]), rest[0]) && EnabledRun(c, rest[1..]);
  }

  // Nothing, if the law is already lost; else one new request, and the end of the stale one.
  ghost function Breaking(b: Agent, s: ServerId, t: TaskId, now: Time): seq<Event> {
    if Conserved(b) then Overlap(b, s, t, now) else []
  }

  // From a state that lost the law, or one that the stale request t is about to break.
  lemma Broken(b: Agent, s: ServerId, t: TaskId, now: Time)
    requires Basic(b) && (Conserved(b) ==> Stale(b, s, t) && b.HasRoom(s))
    ensures EnabledRun(b, Breaking(b, s, t, now)) && !Conserved(Run(b, Breaking(b, s, t, now)))
  {
    if Conserved(b) {
      StaleRequestBreaksLaw(b, s, t, now);
    }
  }

  /** Where nothing has gone wrong before, the same three steps keep the law. */
  lemma OverlapAloneKeepsLaw(a: Agent, s: ServerId, t: TaskId, now: Time)
    requires Invariant(a) && t in a.tasks && HoldsLive(a, s, t)
    ensures EnabledRun(a, Overlap(a, s, t, now)) && Conserved(Run(a, Overlap(a, s, t, now)))
  {
    var es := Overlap(a, s, t, now);
    var b := Apply(a, es[0]);
    FreshTask(a);
    assert t in Apply(b, es[1]).tasks && Apply(b, es[1]).tasks[t] == a.tasks[t];
    SafeStep(a, es[0]);
    SafeStep(b, es[1]);
    SafeStep(Apply(b, es[1]), es[2]);
    RunOfThree(a, es);
  }

  /**
   * The two halves of a stop, with the process still winding down between them: for every
   * request that holds a slot of the server, one new request and the end of that one break the law.
   */
  lemma StopWindowBreaksLaw(a: Agent, s: ServerId, t: TaskId, now: Time)
    requires Invariant(a) && t in a.tasks && HoldsLive(a, s, t)
    ensures var b := StopServerOperations(a, s, now);
            && (Conserved(b) <==> forall x | x in a.tasks :: !HoldsAnonymously(a, s, x))
            && EnabledRun(b, Breaking(b, s, t, now)) && !Conserved(Run(b, Breaking(b, s, t, now)))
  {
    var e := FenceOperations(s, now);
    LinkedIsBasic(a);
    assert TaskOk(a, t);
    StepKeepsLaw(a, e);
    var b := Apply(a, e);
    if a.tasks[t].op.None? {
      assert HoldsAnonymously(a, s, t);
    } else {
      assert Stale(b, s, t) && b.HasRoom(s);
    }
    Broken(b, s, t, now);
  }

  /** A release or cancel of a granted stream that has not resumed leaves it stale; one new request and its own end break the law. */
  lemma OwnedReleaseBreaksLaw(a: Agent, s: ServerId, r: RequestId, g: int, token: Option<Attempt>, now: Time)
    requires Invariant(a) && ReleasesOwnedSlot(a, s, r, g, token)
    ensures var b, t := ReleasePending(a, s, r, g, token, now), a.ops[r].task.value;
            Conserved(b) && EnabledRun(b, Overlap(b, s, t, now)) && !Conserved(Run(b, Overlap(b, s, t, now)))
  {
    var e := Release(s, r, g, token, now);
    var t := a.ops[r].task.value;
    LinkedIsBasic(a);
    assert OperationOk(a, r) && TaskOk(a, t);
    FilledIsCounted(a, s, r);
    assert s in a.configs && a.Count(s) <= a.configs[s].Capacity();
    StepKeepsLaw(a, e);
    var b := Apply(a, e);
    assert Stale(b, s, t) && b.HasRoom(s);
    Broken(b, s, t, now);
  }

  /** A process installed under the generation of one whose request is still unwinding: the same. */
  lemma ReusedGenerationBreaksLaw(a: Agent, s: ServerId, c: Config, t: TaskId, now: Time)
    requires Invariant(a) && s !in a.configs
    requires t in a.tasks && a.tasks[t].server == s && a.tasks[t].HasSlot() && a.tasks[t].generation == c.generation
    ensures var b := InstallConfig(a, s, c);
            && (a.tasks[t].op.None? ==> !Conserved(b))
            && EnabledRun(b, Breaking(b, s, t, now)) && !Conserved(Run(b, Breaking(b, s, t, now)))
  {
    var e := Install(s, c);
    LinkedIsBasic(a);
    assert TaskOk(a, t);
    if a.tasks[t].op.Some? && a.tasks[t].op.value in a.ops {
      assert OperationOk(a, a.tasks[t].op.value);
    }
    NoHoldersUnserved(a, s);
    assert a.Count(s) == |OperationHolders(a, s)| + |AnonymousHolders(a, s)|;
    StepKeepsLaw(a, e);
    var b := Apply(a, e);
    if a.tasks[t].op.Some? {
      assert Stale(b, s, t) && b.HasRoom(s);
    }
    Broken(b, s, t, now);
  }

  /** A configuration dropped under a request that holds a slot: its end leaves the slot counted. */
  lemma DroppedConfigBreaksLaw(a: Agent, s: ServerId, t: TaskId, now: Time)
    requires Invariant(a) && t in a.tasks && HoldsLive(a, s, t)
    ensures !Conserved(RemoveConfig(a, s)) || !Conserved(ConnectionFinished(RemoveConfig(a, s), t, OpCompleted, now))
  {
    var e := DropConfig(s);
    LinkedIsBasic(a);
    assert TaskOk(a, t);
    StepKeepsLaw(a, e);
    var b := Apply(a, e);
    if Conserved(b) {
      assert a.tasks[t].op.Some?;
      var r := a.tasks[t].op.value;
      assert OperationOk(a, r);
      assert Fills(b, r);
      StepKeepsLaw(b, Finish(t, OpCompleted, now));
    }
  }

  /** Yet a configuration may go while operations are only queued, reserved or stranded: no counter moves. */
  lemma PendingOperationsSurviveDrop(a: Agent, s: ServerId)
    requires Invariant(a) && forall t | t in a.tasks :: !HoldsLive(a, s, t)
    ensures Conserved(RemoveConfig(a, s))
  {
    LinkedIsBasic(a);
    StepKeepsLaw(a, DropConfig(s));
  }

  /** A concrete stop window: two streams on server 1, one new request, one old end. */
  lemma StopWindowExample()
    ensures Invariant(SlotLeaks.busy) && HoldsLive(SlotLeaks.busy, 1, 1)
    ensures var b := StopServerOperations(SlotLeaks.busy, 1, 0);
            var es := [Enqueue(1, None, None, false), Grant(2, 0), Finish(1, OpCompleted, 0)];
            Conserved(b) && EnabledRun(b, es) && !Conserved(Run(b, es))
  {
    SlotLeaks.BusyConserves();
    StopWindowBreaksLaw(SlotLeaks.busy, 1, 1, 0);
    assert Breaking(StopServerOperations(SlotLeaks.busy, 1, 0), 1, 1, 0)
        == [Enqueue(1, None, None, false), Grant(2, 0), Finish(1, OpCompleted, 0)];
  }
}
