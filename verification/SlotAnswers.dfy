/**
 * What a reservation request is answered and how full a server can get, in terms of the
 * configuration, the counter and the operation table alone.
 */
module SlotAnswers {
  import opened Common
  import opened Operations
  import opened SlotLedger
  import opened SlotConservation
  import opened SlotLaw

  // The request repeats a reservation that still stands.
  predicate Repeats(a: Agent, s: ServerId, r: RequestId, g: int, tok: Attempt) {
    && r in a.ops && a.ops[r].server == s && a.ops[r].generation == g
    && a.ops[r].status == OpReserved && a.ops[r].token == Some(tok)
  }

  // Nothing is known under the id, or only what was cancelled there before it was dispatched.
  predicate Vacant(a: Agent, s: ServerId, r: RequestId) {
    r in a.ops ==> a.ops[r].server == s && a.ops[r].status == OpCancelled && !a.ops[r].dispatched
  }

  predicate HasFreeSlot(a: Agent, s: ServerId)
    requires s in a.configs
  {
    (if s in a.counts then a.counts[s] else 0) < (if a.configs[s].parallel > 1 then a.configs[s].parallel else 1)
  }

  /** The four answers, each with its exact condition: the generation is tested first, then the id, then the room. */
  lemma AnswersAre(a: Agent, s: ServerId, r: RequestId, g: int, tok: Attempt)
    ensures var current := s in a.configs && a.configs[s].generation == g;
            && (ReserveOutcome(a, s, r, g, tok) == GenerationChanged <==> !current)
            && (ReserveOutcome(a, s, r, g, tok) == Exists <==> current && !Repeats(a, s, r, g, tok) && !Vacant(a, s, r))
            && (ReserveOutcome(a, s, r, g, tok) == Full <==>
                  current && !Repeats(a, s, r, g, tok) && Vacant(a, s, r) && !HasFreeSlot(a, s))
            && (ReserveOutcome(a, s, r, g, tok) == Accepted <==>
                  current && (Repeats(a, s, r, g, tok) || (Vacant(a, s, r) && HasFreeSlot(a, s))))
            && (TakesSlot(a, s, r, g, tok) <==> current && Vacant(a, s, r) && HasFreeSlot(a, s))
  {}

  // A one-slot server whose slot is reserved is full for everybody else.
  lemma OneSlotExample()
    ensures var op := Operation(1, 1, OpReserved, Some(5), false, None, Some(15_000), 0);
            var a := Agent(map[1 := Config(1, 1)], map[1 := 1], map[7 := op], map[], 0);
            ReserveOutcome(a, 1, 8, 1, 6) == Full && ReserveOutcome(a, 1, 7, 1, 5) == Accepted && !TakesSlot(a, 1, 7, 1, 5)
  {}

  lemma {:induction false} LawAtEnd(a: Agent, es: seq<Event>)
    requires Basic(a) && Conserved(a) && EnabledRun(a, es) && KeepsThroughout(a, es)
    ensures Conserved(Run(a, es))
    decreases |es|
  {
    if es != [] {
      StepKeepsLaw(a, es[0]);
      LawAtEnd(Apply(a, es[0]), es[1..]);
    }
  }

  /**
   * Along every run that keeps the counter law, neither the counter of a server nor the number of
   * requests that hold one of its slots exceeds the concurrency its process was started with.
   */
  lemma RunsStayWithinParallel(a: Agent, es: seq<Event>, s: ServerId)
    requires Basic(a) && Conserved(a) && EnabledRun(a, es) && KeepsThroughout(a, es) && s in Run(a, es).configs
    ensures var b := Run(a, es);
            var slots := if b.configs[s].parallel > 1 then b.configs[s].parallel else 1;
            && (s in b.counts ==> b.counts[s] <= slots)
            && |OperationHolders(b, s)| + |AnonymousHolders(b, s)| <= slots
  {
    LawAtEnd(a, es);
    var b := Run(a, es);
    assert b.Count(s) <= b.configs[s].Capacity();
    assert b.Count(s) == |OperationHolders(b, s)| + |AnonymousHolders(b, s)|;
  }

  /** A request waiting for a slot gets one exactly when there is a free one and its process is still the one it expects. */
  lemma GrantsIff(a: Agent, t: TaskId, now: Time)
    requires t in a.tasks && a.tasks[t].phase == Waiting
    ensures var b, task := GrantSlot(a, t, now), a.tasks[t];
            t in b.tasks && b.tasks[t].phase != Waiting <==>
              && task.server in a.configs
              && (task.expected.Some? ==> a.configs[task.server].generation == task.expected.value)
              && HasFreeSlot(a, task.server)
  {}
}
