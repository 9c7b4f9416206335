/** How one agent step can change the operation that carries a reservation token. */
module Reservations {
  import opened Common
  import opened Operations
  import opened SlotLedger

  // Operation r is held for attempt tok and nothing has been dispatched on it.
  predicate HeldFor(a: Agent, s: ServerId, r: RequestId, g: int, tok: Attempt) {
    && r in a.ops
    && a.ops[r].status == OpReserved
    && a.ops[r].server == s
    && a.ops[r].generation == g
    && a.ops[r].token == Some(tok)
  }

  predicate StopsServer(e: Event, s: ServerId) {
    (e.Stop? || e.FenceOperations?) && e.s == s
  }

  // The steps that speak for attempt tok.
  predicate SpeaksFor(e: Event, tok: Attempt) {
    || (e.Consume? && e.tok == tok)
    || (e.Release? && e.token == Some(tok))
    || (e.Cancel? && e.token == Some(tok))
  }

  // Where a token in the table after the step comes from.
  predicate TokenKept(a: Agent, e: Event, r: RequestId, op: Operation)
    requires op.token.Some?
  {
    || (&& r in a.ops
        && a.ops[r].token == op.token && a.ops[r].server == op.server && a.ops[r].generation == op.generation
        && (op.status == OpReserved ==> a.ops[r].status == OpReserved)
        && (op.dispatched ==>
              a.ops[r].dispatched
              || (e.Consume? && Consumable(a, e.s, e.r, e.g, e.tok) && op.token == Some(e.tok) && e.r == r && op.status != OpReserved)))
    || (&& e.Reserve? && e.r == r && TakesSlot(a, e.s, e.r, e.g, e.tok)
        && op.token == Some(e.tok) && op.server == e.s && op.generation == e.g
        && op.status == OpReserved && !op.dispatched)
  }

  predicate OfTask(e: Event) {
    e.Bind? || e.Abandon? || e.Grant? || e.Unwait? || e.Resume? || e.Finish?
  }

  lemma TokenOriginOfTask(a: Agent, e: Event, r: RequestId)
    requires OfTask(e) && Enabled(a, e) && r in Apply(a, e).ops && Apply(a, e).ops[r].token.Some?
    ensures TokenKept(a, e, r, Apply(a, e).ops[r])
  {}

  lemma TokenAfterAdmission(a: Agent, b: Agent, e: Event, r: RequestId)
    requires (e.Reserve? || e.Enqueue?) && AdmittedAt(a, b, e, r) && r in b.ops && b.ops[r].token.Some?
    ensures TokenKept(a, e, r, b.ops[r])
  {}

  lemma TokenOriginOfAdmission(a: Agent, e: Event, r: RequestId)
    requires (e.Reserve? || e.Enqueue?) && r in Apply(a, e).ops && Apply(a, e).ops[r].token.Some?
    ensures TokenKept(a, e, r, Apply(a, e).ops[r])
  {
    AdmissionAt(a, e, r);
    TokenAfterAdmission(a, Apply(a, e), e, r);
  }

  lemma TokenOrigin(a: Agent, e: Event, r: RequestId)
    requires Enabled(a, e) && r in Apply(a, e).ops && Apply(a, e).ops[r].token.Some?
    ensures TokenKept(a, e, r, Apply(a, e).ops[r])
  {
    if OfTask(e) {
      TokenOriginOfTask(a, e, r);
    } else if e.Reserve? || e.Enqueue? {
      TokenOriginOfAdmission(a, e, r);
    }
  }

  // A request under id r ends in this step; one that was left over may take the new operation r with it.
  ghost predicate EndsRequest(a: Agent, e: Event, r: RequestId) {
    && (e.Grant? || e.Unwait? || e.Finish?)
    && e.t in a.tasks && a.tasks[e.t].op == Some(r)
    && e.t !in Apply(a, e).tasks
  }

  // The steps that may take a reservation of r on s away without carrying its token.
  ghost predicate Disturbs(a: Agent, e: Event, s: ServerId, r: RequestId) {
    StopsServer(e, s) || EndsRequest(a, e, r)
  }

  lemma HeldThroughTasks(a: Agent, e: Event, s: ServerId, r: RequestId, g: int, tok: Attempt)
    requires HeldFor(a, s, r, g, tok) && OfTask(e) && !Disturbs(a, e, s, r)
    ensures HeldFor(Apply(a, e), s, r, g, tok)
  {}

  lemma HeldAfterAdmission(a: Agent, b: Agent, e: Event, s: ServerId, r: RequestId, g: int, tok: Attempt)
    requires HeldFor(a, s, r, g, tok) && (e.Reserve? || e.Enqueue?) && AdmittedAt(a, b, e, r)
    ensures HeldFor(b, s, r, g, tok)
  {}

  lemma HeldThroughAdmission(a: Agent, e: Event, s: ServerId, r: RequestId, g: int, tok: Attempt)
    requires HeldFor(a, s, r, g, tok) && (e.Reserve? || e.Enqueue?)
    ensures HeldFor(Apply(a, e), s, r, g, tok)
  {
    AdmissionAt(a, e, r);
    HeldAfterAdmission(a, Apply(a, e), e, s, r, g, tok);
  }

  /** A reserved attempt stays reserved through every step that neither disturbs it nor speaks for it. */
  lemma HeldStays(a: Agent, e: Event, s: ServerId, r: RequestId, g: int, tok: Attempt)
    requires HeldFor(a, s, r, g, tok)
    requires !Disturbs(a, e, s, r) && !SpeaksFor(e, tok)
    ensures HeldFor(Apply(a, e), s, r, g, tok)
  {
    if OfTask(e) {
      HeldThroughTasks(a, e, s, r, g, tok);
    } else if e.Reserve? || e.Enqueue? {
      HeldThroughAdmission(a, e, s, r, g, tok);
    }
  }

  lemma EndedRequestIsGone(a: Agent, e: Event, s: ServerId, r: RequestId, g: int, tok: Attempt)
    requires EndsRequest(a, e, r) && Enabled(a, e)
    ensures !HeldFor(Apply(a, e), s, r, g, tok)
  {}

  /** A step that disturbs a reservation takes it away. */
  lemma DisturbedIsGone(a: Agent, e: Event, s: ServerId, r: RequestId, g: int, tok: Attempt)
    requires Disturbs(a, e, s, r) && Enabled(a, e)
    ensures !HeldFor(Apply(a, e), s, r, g, tok)
  {
    if !StopsServer(e, s) {
      EndedRequestIsGone(a, e, s, r, g, tok);
    }
  }

  /** So does a cancel that carries its token. */
  lemma CancelledIsGone(a: Agent, e: Event, s: ServerId, r: RequestId, g: int, tok: Attempt)
    requires e.Cancel? && e.s == s && e.r == r && e.token == Some(tok)
    ensures !HeldFor(Apply(a, e), s, r, g, tok)
  {}

  /** And so does its timer. */
  lemma ExpiredIsGone(a: Agent, e: Event, s: ServerId, r: RequestId, g: int, tok: Attempt)
    requires e.Release? && e.s == s && e.r == r && e.g == g && e.token == Some(tok)
    ensures !HeldFor(Apply(a, e), s, r, g, tok)
  {}

  /** What is not reserved for an attempt becomes so only by its reservation request. */
  lemma HeldOnlyByReserve(a: Agent, e: Event, s: ServerId, r: RequestId, g: int, tok: Attempt)
    requires Enabled(a, e) && !HeldFor(a, s, r, g, tok) && HeldFor(Apply(a, e), s, r, g, tok)
    ensures e.Reserve? && e.tok == tok
  {
    TokenOrigin(a, e, r);
  }

  /** A cancel, an expiry or a dispatch that carries another attempt's token changes nothing under this one. */
  lemma OtherTokensUntouched(a: Agent, e: Event, r: RequestId, tok: Attempt)
    requires r in a.ops && a.ops[r].token.Some? && a.ops[r].token != Some(tok)
    requires SpeaksFor(e, tok)
    ensures r in Apply(a, e).ops && Apply(a, e).ops[r] == a.ops[r]
  {}

  // What a reservation request with another token may do to operation r of this one.
  ghost predicate SparedByReserve(a: Agent, e: Event, r: RequestId)
    requires e.Reserve? && r in a.ops
  {
    var b := Apply(a, e);
    if !TakesSlot(a, e.s, e.r, e.g, e.tok) then b == a
    else if r == e.r then
      a.ops[r].status == OpCancelled && !a.ops[r].dispatched && r in b.ops && b.ops[r].token == Some(e.tok)
    else (r in b.ops && b.ops[r] == a.ops[r]) || (r !in b.ops && !a.ops[r].Live())
  }

  /**
   * A reservation request replaces another attempt's operation only if that was cancelled and never
   * dispatched; operations of other requests stay, or are over and go by retention.
   */
  lemma ReserveSpares(a: Agent, e: Event, r: RequestId)
    requires e.Reserve? && r in a.ops && a.ops[r].token != Some(e.tok)
    ensures SparedByReserve(a, e, r)
  {
    AdmissionAt(a, e, r);
  }
}
