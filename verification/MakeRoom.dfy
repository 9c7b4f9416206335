/**
 * Making room for a cold start: `_make_room` evicts idle servers that share the target's
 * GPU until the target fits. The fleet is closed while it runs: fixed telemetry, no new
 * requests, and every stop the lifecycle accepts succeeds before the next poll.
 */
module MakeRoom {
  import opened Common

  datatype Row = Row(
    id: ServerId,
    host: nat,
    gpu: Option<nat>,
    lastRequest: Option<Time>,
    required: nat,         // VRAM the server is accounted for
    live: nat,             // active leases that have not expired
    active: nat)           // active leases, expired or not
  {
    // What _make_room takes for idle, and what request_server_stop does.
    predicate Idle() { live == 0 }
    predicate Stale() { live == 0 && active > 0 }
  }

  datatype Target = Target(host: nat, gpu: Option<nat>, required: nat)

  datatype Outcome = Fitted | TimedOut

  predicate CoLocated(t: Target, r: Row) {
    r.host == t.host && (t.gpu.None? || r.gpu == t.gpu)
  }

  function Candidates(rows: seq<Row>, t: Target): seq<Row> {
    if rows == [] then []
    else (if CoLocated(t, rows[0]) then [rows[0]] else []) + Candidates(rows[1..], t)
  }

  function Load(rows: seq<Row>): nat {
    if rows == [] then 0 else rows[0].required + Load(rows[1..])
  }

  function IdleOf(rows: seq<Row>): seq<Row> {
    if rows == [] then []
    else (if rows[0].Idle() then [rows[0]] else []) + IdleOf(rows[1..])
  }

  // The evictions _make_room may make, in the order it makes them.
  function Victims(rows: seq<Row>, t: Target): seq<Row> {
    IdleOf(Candidates(rows, t))
  }

  predicate Distinct(rows: seq<Row>) {
    forall i, j | 0 <= i < j < |rows| :: rows[i].id != rows[j].id
  }

  // ORDER BY last_request_at, id: a server without a request comes last.
  predicate UsedBefore(a: Row, b: Row) {
    if a.lastRequest == b.lastRequest then a.id < b.id
    else a.lastRequest.Some? && (b.lastRequest.None? || a.lastRequest.value < b.lastRequest.value)
  }

  predicate InLruOrder(rows: seq<Row>) {
    forall i, j | 0 <= i < j < |rows| :: UsedBefore(rows[i], rows[j])
  }

  function Without(rows: seq<Row>, id: ServerId): seq<Row> {
    if rows == [] then []
    else if rows[0].id == id then rows[1..]
    else [rows[0]] + Without(rows[1..], id)
  }

  // The fleet after the first k evictions.
  function Evict(rows: seq<Row>, t: Target, k: nat): seq<Row>
    decreases k
  {
    if k == 0 || Victims(rows, t) == [] then rows
    else Evict(Without(rows, Victims(rows, t)[0].id), t, k - 1)
  }

  predicate FitsIn(total: nat, t: Target, occupied: nat) {
    occupied + t.required <= total
  }

  // Whether the target fits once the first k victims are gone.
  predicate FitsAfter(rows: seq<Row>, t: Target, total: nat, k: nat)
    requires k <= |Victims(rows, t)|
  {
    Load(Candidates(rows, t)) - Load(Victims(rows, t)[..k]) + t.required <= total
  }

  // How many victims come before the first one that cannot be stopped.
  function Stoppable(victims: seq<Row>): (n: nat)
    ensures n <= |victims|
    ensures forall i | 0 <= i < n :: victims[i].live > 0 || victims[i].active == 0
    ensures n < |victims| ==> victims[n].live == 0 && victims[n].active > 0
  {
    if victims == [] || victims[0].Stale() then 0 else 1 + Stoppable(victims[1..])
  }

  // ------------------------------------------------------------ the methods

  class Fleet {
    var running: seq<Row>

    constructor (rows: seq<Row>)
      ensures running == rows
    {
      running := rows;
    }

    // The rows of the query that share the target's GPU.
    method FindCandidates(t: Target) returns (candidates: seq<Row>)
      ensures candidates == Candidates(running, t)
      ensures forall r :: r in candidates <==> r in running && r.host == t.host && (t.gpu.Some? ==> r.gpu == t.gpu)
    {
      candidates := [];
      for i := 0 to |running|
        invariant candidates + Candidates(running[i..], t) == Candidates(running, t)
      {
        if CoLocated(t, running[i]) {
          candidates := candidates + [running[i]];
        }
        assert running[i..][1..] == running[i + 1..];
      }
      AllCandidates(running, t);
    }

    method TotalRequired(candidates: seq<Row>) returns (occupied: nat)
      ensures occupied == Load(candidates)
    {
      occupied := 0;
      for i := 0 to |candidates|
        invariant occupied + Load(candidates[i..]) == Load(candidates)
      {
        occupied := occupied + candidates[i].required;
        assert candidates[i..][1..] == candidates[i + 1..];
      }
    }

    // The first candidate without unexpired active leases.
    method FirstIdle(candidates: seq<Row>) returns (victim: Option<Row>)
      ensures victim == if IdleOf(candidates) == [] then None else Some(IdleOf(candidates)[0])
    {
      for i := 0 to |candidates|
        invariant IdleOf(candidates[i..]) == IdleOf(candidates)
      {
        assert candidates[i..][1..] == candidates[i + 1..];
        if candidates[i].Idle() {
          return Some(candidates[i]);
        }
      }
      return None;
    }

    // request_server_stop(force=False): busy when any active lease is left, expired or not.
    method StopIdle(r: Row)
      modifies this
      ensures running == if r.active > 0 then old(running) else Without(old(running), r.id)
    {
      if r.active > 0 {
        return;
      }
      var kept := [];
      var i := 0;
      while i < |running| && running[i].id != r.id
        invariant 0 <= i <= |running|
        invariant kept + Without(running[i..], r.id) == Without(running, r.id)
      {
        kept := kept + [running[i]];
        assert running[i..][1..] == running[i + 1..];
        i := i + 1;
      }
      running := kept + (if i < |running| then running[i + 1..] else []);
    }

    /**
     * Polls at most `polls` times before the deadline. `total` is the agent's VRAM, None
     * while its telemetry is unavailable.
     */
    method MakeRoom(t: Target, total: Option<nat>, polls: nat) returns (outcome: Outcome)
      modifies this
      ensures (outcome, running) == Room(old(running), t, total, polls)
    {
      var left := polls;
      while true
        invariant 0 <= left <= polls
        invariant Room(running, t, total, left) == Room(old(running), t, total, polls)
        decreases left
      {
        if left == 0 {
          return TimedOut;
        }
        left := left - 1;
        var candidates := FindCandidates(t);
        var occupied := TotalRequired(candidates);
        if total.None? {
          continue;
        }
        if FitsIn(total.value, t, occupied) {
          return Fitted;
        }
        var victim := FirstIdle(candidates);
        if victim.Some? {
          StopIdle(victim.value);
        }
      }
    }
  }

  // What the polls amount to: each one that does not fit stops the first victim, if it can be stopped.
  function Room(rows: seq<Row>, t: Target, total: Option<nat>, polls: nat): (Outcome, seq<Row>)
    decreases polls
  {
    if polls == 0 then (TimedOut, rows)
    else if total.None? then Room(rows, t, total, polls - 1)
    else if FitsIn(total.value, t, Load(Candidates(rows, t))) then (Fitted, rows)
    else if Victims(rows, t) == [] || Victims(rows, t)[0].active > 0 then Room(rows, t, total, polls - 1)
    else Room(Without(rows, Victims(rows, t)[0].id), t, total, polls - 1)
  }

  // ------------------------------------------------------------- properties

  lemma {:induction false} CandidatesAre(rows: seq<Row>, t: Target, r: Row)
    ensures r in Candidates(rows, t) <==> r in rows && r.host == t.host && (t.gpu.Some? ==> r.gpu == t.gpu)
  {
    if rows != [] {
      CandidatesAre(rows[1..], t, r);
      assert r in rows <==> r == rows[0] || r in rows[1..];
    }
  }

  lemma AllCandidates(rows: seq<Row>, t: Target)
    ensures forall r :: r in Candidates(rows, t) <==> r in rows && r.host == t.host && (t.gpu.Some? ==> r.gpu == t.gpu)
  {
    forall r
      ensures r in Candidates(rows, t) <==> r in rows && r.host == t.host && (t.gpu.Some? ==> r.gpu == t.gpu)
    {
      CandidatesAre(rows, t, r);
    }
  }

  // The memory that servers on this host, and on this GPU if one is given, are accounted for.
  function Occupied(rows: seq<Row>, host: nat, gpu: Option<nat>): nat {
    if rows == [] then 0
    else (if rows[0].host == host && (gpu.None? || rows[0].gpu == gpu) then rows[0].required else 0)
         + Occupied(rows[1..], host, gpu)
  }

  lemma {:induction false} LoadIsOccupied(rows: seq<Row>, t: Target)
    ensures Load(Candidates(rows, t)) == Occupied(rows, t.host, t.gpu)
  {
    if rows != [] {
      LoadIsOccupied(rows[1..], t);
      Unfold(rows, t);
    }
  }

  /**
   * The memory tested is that of the servers on the target's own host and GPU: what is left there
   * when the wait ends fits beside the target, and where it fits from the start nothing is stopped.
   */
  lemma {:induction false} FitsBesideTheRest(rows: seq<Row>, t: Target, total: nat, polls: nat)
    ensures var (outcome, left) := Room(rows, t, Some(total), polls);
            outcome == Fitted ==> Occupied(left, t.host, t.gpu) + t.required <= total
    ensures polls > 0 && Occupied(rows, t.host, t.gpu) + t.required <= total ==>
              Room(rows, t, Some(total), polls) == (Fitted, rows)
    decreases polls
  {
    LoadIsOccupied(rows, t);
    if polls > 0 {
      FitsBesideTheRest(rows, t, total, polls - 1);
      if Victims(rows, t) != [] {
        FitsBesideTheRest(Without(rows, Victims(rows, t)[0].id), t, total, polls - 1);
      }
    }
  }

  lemma {:induction false} WithoutHas(rows: seq<Row>, id: ServerId, r: Row)
    requires Distinct(rows)
    ensures r in Without(rows, id) <==> r in rows && r.id != id
  {
    if rows != [] {
      WithoutHas(rows[1..], id, r);
      assert r in rows <==> r == rows[0] || r in rows[1..];
    }
  }

  lemma {:induction false} WithoutKeeps(rows: seq<Row>, id: ServerId)
    requires Distinct(rows)
    ensures Distinct(Without(rows, id))
  {
    if rows != [] && rows[0].id != id {
      var rest := Without(rows[1..], id);
      WithoutKeeps(rows[1..], id);
      forall j | 0 <= j < |rest|
        ensures rest[j].id != rows[0].id
      {
        WithoutHas(rows[1..], id, rest[j]);
      }
    }
  }

  lemma Unfold(rows: seq<Row>, t: Target)
    requires rows != []
    ensures Victims(rows, t) == (if CoLocated(t, rows[0]) && rows[0].Idle() then [rows[0]] else []) + Victims(rows[1..], t)
    ensures Load(Candidates(rows, t)) == (if CoLocated(t, rows[0]) then rows[0].required else 0)
                                        + Load(Candidates(rows[1..], t))
  {
    var rest := Candidates(rows[1..], t);
    if CoLocated(t, rows[0]) {
      assert Candidates(rows, t) == [rows[0]] + rest && ([rows[0]] + rest)[1..] == rest;
    } else {
      assert Candidates(rows, t) == rest;
    }
  }

  lemma {:induction false} VictimsAreIdle(rows: seq<Row>, t: Target)
    ensures forall v | v in Victims(rows, t) :: v in rows && v.host == t.host && (t.gpu.Some? ==> v.gpu == t.gpu) && v.live == 0
    ensures forall r | r in rows && r.host == t.host && (t.gpu.Some? ==> r.gpu == t.gpu) && r.live == 0 :: r in Victims(rows, t)
  {
    if rows != [] {
      VictimsAreIdle(rows[1..], t);
      Unfold(rows, t);
    }
  }

  // Evicting the first victim leaves the other victims, in order, and frees its memory.
  lemma {:induction false} FirstEviction(rows: seq<Row>, t: Target)
    requires Distinct(rows) && Victims(rows, t) != []
    ensures Victims(Without(rows, Victims(rows, t)[0].id), t) == Victims(rows, t)[1..]
    ensures Load(Candidates(Without(rows, Victims(rows, t)[0].id), t))
            == Load(Candidates(rows, t)) - Victims(rows, t)[0].required
  {
    var r, rest := rows[0], rows[1..];
    var v := Victims(rows, t)[0];
    Unfold(rows, t);
    if CoLocated(t, r) && r.Idle() {
      assert Without(rows, v.id) == rest;
    } else {
      assert Victims(rows, t) == Victims(rest, t);
      VictimsAreIdle(rest, t);
      assert v in rest && r.id != v.id;
      FirstEviction(rest, t);
      var after := Without(rest, v.id);
      assert Without(rows, v.id) == [r] + after;
      assert ([r] + after)[1..] == after;
      Unfold([r] + after, t);
    }
  }

  /** Exactly the first k victims are gone after k evictions; every other server is untouched. */
  lemma {:induction false} EvictRemoves(rows: seq<Row>, t: Target, k: nat, r: Row)
    requires Distinct(rows) && k <= |Victims(rows, t)|
    ensures r in Evict(rows, t, k) <==> r in rows && r !in Victims(rows, t)[..k]
    decreases k
  {
    if k > 0 {
      var victims := Victims(rows, t);
      var v := victims[0];
      WithoutKeeps(rows, v.id);
      FirstEviction(rows, t);
      EvictRemoves(Without(rows, v.id), t, k - 1, r);
      WithoutHas(rows, v.id, r);
      assert victims[..k] == [v] + victims[1..][..k - 1];
      assert v in rows by {
        VictimsAreIdle(rows, t);
      }
    }
  }

  lemma Shift(rows: seq<Row>, t: Target, total: nat, j: nat)
    requires Distinct(rows) && Victims(rows, t) != [] && j < |Victims(rows, t)|
    ensures Victims(Without(rows, Victims(rows, t)[0].id), t) == Victims(rows, t)[1..]
    ensures FitsAfter(rows, t, total, j + 1) == FitsAfter(Without(rows, Victims(rows, t)[0].id), t, total, j)
  {
    FirstEviction(rows, t);
    var victims := Victims(rows, t);
    assert victims[..j + 1] == [victims[0]] + victims[1..][..j];
    assert ([victims[0]] + victims[1..][..j])[1..] == victims[1..][..j];
  }

  // Fewer than k evictions are not enough.
  ghost predicate NoneFits(rows: seq<Row>, t: Target, total: nat, k: nat) {
    k <= |Victims(rows, t)| && forall j | 0 <= j < k :: !FitsAfter(rows, t, total, j)
  }

  // k evictions explain one call of Room.
  ghost predicate Explains(rows: seq<Row>, t: Target, total: nat, polls: nat, k: nat) {
    && k <= Stoppable(Victims(rows, t)) && k <= polls
    && Room(rows, t, Some(total), polls).1 == Evict(rows, t, k)
    && NoneFits(rows, t, total, k)
    && (Room(rows, t, Some(total), polls).0 == Fitted <==> k < polls && FitsAfter(rows, t, total, k))
    && (Room(rows, t, Some(total), polls).0 == TimedOut && k < polls ==> k == Stoppable(Victims(rows, t)))
  }

  lemma NoPoll(rows: seq<Row>, t: Target, total: nat, polls: nat)
    requires polls == 0 || FitsIn(total, t, Load(Candidates(rows, t)))
    ensures Explains(rows, t, total, polls, 0)
  {
    assert Victims(rows, t)[..0] == [];
  }

  lemma NoEviction(rows: seq<Row>, t: Target, total: nat, polls: nat, k: nat)
    requires polls > 0 && (Victims(rows, t) == [] || Victims(rows, t)[0].active > 0)
    requires !FitsIn(total, t, Load(Candidates(rows, t)))
    requires Explains(rows, t, total, polls - 1, k)
    ensures Explains(rows, t, total, polls, k)
  {
    var victims := Victims(rows, t);
    VictimsAreIdle(rows, t);
    assert victims != [] ==> victims[0] in victims;
    assert Stoppable(victims) == 0 == k;
    assert victims[..0] == [];
  }

  lemma NextEviction(rows: seq<Row>, t: Target, total: nat, polls: nat, m: nat)
    requires Distinct(rows) && polls > 0 && Victims(rows, t) != [] && Victims(rows, t)[0].active == 0
    requires !FitsIn(total, t, Load(Candidates(rows, t)))
    requires Explains(Without(rows, Victims(rows, t)[0].id), t, total, polls - 1, m)
    ensures Explains(rows, t, total, polls, m + 1)
  {
    var victims := Victims(rows, t);
    var after := Without(rows, victims[0].id);
    FirstEviction(rows, t);
    assert Room(rows, t, Some(total), polls) == Room(after, t, Some(total), polls - 1);
    assert Stoppable(victims) == 1 + Stoppable(victims[1..]);
    NoneFitsBefore(rows, t, total, m);
    Shift(rows, t, total, m);
  }

  lemma NoneFitsBefore(rows: seq<Row>, t: Target, total: nat, m: nat)
    requires Distinct(rows) && Victims(rows, t) != [] && !FitsIn(total, t, Load(Candidates(rows, t)))
    requires NoneFits(Without(rows, Victims(rows, t)[0].id), t, total, m)
    ensures NoneFits(rows, t, total, m + 1)
  {
    FirstEviction(rows, t);
    assert Victims(rows, t)[..0] == [];
    forall j | 0 <= j < m + 1
      ensures !FitsAfter(rows, t, total, j)
    {
      if j > 0 {
        Shift(rows, t, total, j - 1);
      }
    }
  }

  ghost predicate Explained(rows: seq<Row>, t: Target, total: nat, polls: nat) {
    exists k: nat :: Explains(rows, t, total, polls, k)
  }

  // One poll more, when the first victim goes.
  lemma ExplainedByEviction(rows: seq<Row>, t: Target, total: nat, polls: nat)
    requires Distinct(rows) && polls > 0 && Victims(rows, t) != [] && Victims(rows, t)[0].active == 0
    requires !FitsIn(total, t, Load(Candidates(rows, t)))
    requires Explained(Without(rows, Victims(rows, t)[0].id), t, total, polls - 1)
    ensures Explained(rows, t, total, polls)
  {
    var m: nat :| Explains(Without(rows, Victims(rows, t)[0].id), t, total, polls - 1, m);
    NextEviction(rows, t, total, polls, m);
    assert Explains(rows, t, total, polls, m + 1);
  }

  // One poll more, when nothing goes.
  lemma ExplainedByWaiting(rows: seq<Row>, t: Target, total: nat, polls: nat)
    requires polls > 0 && (Victims(rows, t) == [] || Victims(rows, t)[0].active > 0)
    requires !FitsIn(total, t, Load(Candidates(rows, t)))
    requires Explained(rows, t, total, polls - 1)
    ensures Explained(rows, t, total, polls)
  {
    var k: nat :| Explains(rows, t, total, polls - 1, k);
    NoEviction(rows, t, total, polls, k);
    assert Explains(rows, t, total, polls, k);
  }

  lemma {:induction false} AlwaysExplained(rows: seq<Row>, t: Target, total: nat, polls: nat)
    requires Distinct(rows)
    ensures Explained(rows, t, total, polls)
    decreases polls
  {
    if polls == 0 || FitsIn(total, t, Load(Candidates(rows, t))) {
      NoPoll(rows, t, total, polls);
    } else if Victims(rows, t) == [] || Victims(rows, t)[0].active > 0 {
      AlwaysExplained(rows, t, total, polls - 1);
      ExplainedByWaiting(rows, t, total, polls);
    } else {
      var v := Victims(rows, t)[0];
      WithoutKeeps(rows, v.id);
      AlwaysExplained(Without(rows, v.id), t, total, polls - 1);
      ExplainedByEviction(rows, t, total, polls);
    }
  }

  /**
   * Room evicts the shortest prefix of the least recently used idle servers after which
   * the target fits. It stops short only at its deadline, or in front of a server it takes
   * for idle but may not stop.
   */
  lemma EvictsShortestPrefix(rows: seq<Row>, t: Target, total: nat, polls: nat) returns (k: nat)
    requires Distinct(rows)
    ensures Explains(rows, t, total, polls, k)
  {
    AlwaysExplained(rows, t, total, polls);
    k :| Explains(rows, t, total, polls, k);
  }

  lemma {:induction false} LoadOfPrefix(rows: seq<Row>, j: nat, k: nat)
    requires j <= k <= |rows|
    ensures Load(rows[..j]) <= Load(rows[..k])
  {
    if j > 0 {
      LoadOfPrefix(rows[1..], j - 1, k - 1);
      assert rows[..j][1..] == rows[1..][..j - 1] && rows[..k][1..] == rows[1..][..k - 1];
    }
  }

  /**
   * Given time, the target gets its room exactly when evicting the victims before the
   * first unstoppable one is enough; if evicting every idle server is not, it never does.
   */
  lemma FitsIffStoppableSuffice(rows: seq<Row>, t: Target, total: nat, polls: nat)
    requires Distinct(rows) && polls > |Victims(rows, t)|
    ensures Room(rows, t, Some(total), polls).0 == Fitted <==> FitsAfter(rows, t, total, Stoppable(Victims(rows, t)))
    ensures (forall v | v in Victims(rows, t) :: v.active == 0) ==>
              (Room(rows, t, Some(total), polls).0 == Fitted <==> FitsAfter(rows, t, total, |Victims(rows, t)|))
  {
    var victims := Victims(rows, t);
    var k := EvictsShortestPrefix(rows, t, total, polls);
    if FitsAfter(rows, t, total, k) {
      MoreEvictionsStillFit(rows, t, total, k, Stoppable(victims));
    }
    if forall v | v in victims :: v.active == 0 {
      assert forall i | 0 <= i < |victims| :: victims[i] in victims;
    }
  }

  lemma MoreEvictionsStillFit(rows: seq<Row>, t: Target, total: nat, j: nat, k: nat)
    requires j <= k <= |Victims(rows, t)| && FitsAfter(rows, t, total, j)
    ensures FitsAfter(rows, t, total, k)
  {
    LoadOfPrefix(Victims(rows, t), j, k);
  }

  /** Never a busy server, never one elsewhere, whatever the outcome. */
  lemma BusyServersStay(rows: seq<Row>, t: Target, total: Option<nat>, polls: nat, r: Row)
    requires Distinct(rows) && r in rows
    requires r.active > 0 || r.live > 0 || r.host != t.host || (t.gpu.Some? && r.gpu != t.gpu)
    ensures r in Room(rows, t, total, polls).1
  {
    if total.None? {
      NoTelemetryNoEviction(rows, t, polls);
    } else {
      var k := EvictsShortestPrefix(rows, t, total.value, polls);
      EvictRemoves(rows, t, k, r);
      VictimsAreIdle(rows, t);
    }
  }

  lemma {:induction false} NoTelemetryNoEviction(rows: seq<Row>, t: Target, polls: nat)
    ensures Room(rows, t, None, polls) == (TimedOut, rows)
    decreases polls
  {
    if polls > 0 {
      NoTelemetryNoEviction(rows, t, polls - 1);
    }
  }

  lemma {:induction false} VictimsInOrder(rows: seq<Row>, t: Target)
    requires InLruOrder(rows)
    ensures InLruOrder(Victims(rows, t))
  {
    if rows != [] {
      var rest := Victims(rows[1..], t);
      VictimsInOrder(rows[1..], t);
      Unfold(rows, t);
      forall j | 0 <= j < |rest|
        ensures UsedBefore(rows[0], rest[j])
      {
        VictimsAreIdle(rows[1..], t);
        assert rest[j] in rows[1..];
        var i :| 0 <= i < |rows| - 1 && rows[1..][i] == rest[j];
        assert rows[0] == rows[0] && rows[i + 1] == rest[j];
      }
    }
  }

  /** Least recently used first: an evicted server was used before every idle one that stays. */
  lemma EvictsLeastRecentlyUsed(rows: seq<Row>, t: Target, total: nat, polls: nat, gone: Row, kept: Row)
    requires Distinct(rows) && InLruOrder(rows)
    requires gone in rows && gone !in Room(rows, t, Some(total), polls).1
    requires kept in Room(rows, t, Some(total), polls).1
    requires kept.host == t.host && (t.gpu.Some? ==> kept.gpu == t.gpu) && kept.live == 0
    ensures gone.host == t.host && (t.gpu.Some? ==> gone.gpu == t.gpu) && gone.live == 0 && gone.active == 0
    ensures if gone.lastRequest == kept.lastRequest then gone.id < kept.id
            else gone.lastRequest.Some? && (kept.lastRequest.Some? ==> gone.lastRequest.value < kept.lastRequest.value)
  {
    var k := EvictsShortestPrefix(rows, t, total, polls);
    var victims := Victims(rows, t);
    EvictRemoves(rows, t, k, gone);
    EvictRemoves(rows, t, k, kept);
    VictimsAreIdle(rows, t);
    VictimsInOrder(rows, t);
    EarlierInOrder(victims, k, gone, kept);
  }

  lemma EarlierInOrder(victims: seq<Row>, k: nat, gone: Row, kept: Row)
    requires InLruOrder(victims) && k <= |victims| && gone in victims[..k] && kept in victims && kept !in victims[..k]
    ensures UsedBefore(gone, kept)
  {
    var i :| 0 <= i < k && victims[i] == gone;
    var j :| 0 <= j < |victims| && victims[j] == kept;
    assert forall n | 0 <= n < k :: victims[..k][n] == victims[n];
  }

  /** An expired lease that is still active on the first victim blocks every eviction, though one would do. */
  lemma ExpiredLeaseStarves(polls: nat)
    ensures var t := Target(0, None, 6);
            var blocked := Row(1, 0, None, Some(0), 5, 0, 1);
            var idle := Row(2, 0, None, Some(1), 5, 0, 0);
            && Room([blocked, idle], t, Some(12), polls) == (TimedOut, [blocked, idle])
            && FitsIn(12, t, Load([blocked]))
  {
    var t := Target(0, None, 6);
    var rows := [Row(1, 0, None, Some(0), 5, 0, 1), Row(2, 0, None, Some(1), 5, 0, 0)];
    Unfold(rows, t);
    var k := EvictsShortestPrefix(rows, t, 12, polls);
    assert Victims(rows, t)[0] == rows[0];
    assert Load(Candidates(rows, t)) == 10 by {
      assert Load(Candidates(rows[1..], t)) == 5 by {
        Unfold(rows[1..], t);
      }
    }
    assert Victims(rows, t)[..0] == [];
  }
}
