/**
 * The agent's health hysteresis: a server is called unhealthy after three consecutive
 * failed checks and healthy again after two consecutive good ones.
 */
module Health {
  import opened Common

  const FAILURE_THRESHOLD := 3
  const RECOVERY_THRESHOLD := 2

  datatype Status = Healthy | Unhealthy

  // What happens to one server: a check, a start that reached health, or removal of its state.
  datatype Observation = Checked(ok: bool) | Started | Removed

  datatype Record = Record(status: Option<Status>, failures: nat, successes: nat)

  const UNRECORDED := Record(None, 0, 0)

  function StatusOf(r: Record): Status {
    if r.status.Some? then r.status.value else Healthy
  }

  function Observe(r: Record, o: Observation): (Record, Option<Status>) {
    match o
    case Started => (Record(Some(Healthy), 0, 0), None)
    case Removed => (UNRECORDED, None)
    case Checked(ok) =>
      if ok then
        if StatusOf(r) == Unhealthy && r.successes + 1 >= RECOVERY_THRESHOLD
        then (Record(Some(Healthy), 0, r.successes + 1), Some(Healthy))
        else (Record(r.status, 0, r.successes + 1), None)
      else if StatusOf(r) == Healthy && r.failures + 1 >= FAILURE_THRESHOLD
      then (Record(Some(Unhealthy), r.failures + 1, 0), Some(Unhealthy))
      else (Record(r.status, r.failures + 1, 0), None)
  }

  function Recorded(h: seq<Observation>): Record {
    if h == [] then UNRECORDED else Observe(Recorded(h[..|h| - 1]), h[|h| - 1]).0
  }

  // The published transitions, in order.
  function Events(h: seq<Observation>): seq<Status> {
    if h == [] then []
    else
      var e := Observe(Recorded(h[..|h| - 1]), h[|h| - 1]).1;
      Events(h[..|h| - 1]) + (if e.Some? then [e.value] else [])
  }

  // The checks since the last start or removal.
  function Checks(h: seq<Observation>): seq<bool> {
    if h == [] then []
    else if h[|h| - 1].Checked? then Checks(h[..|h| - 1]) + [h[|h| - 1].ok]
    else []
  }

  // ------------------------------------------------- the dictionaries, in place

  class HealthMonitor {
    var serverHealth: map<ServerId, Status>
    var healthyServers: set<ServerId>
    var failures: map<ServerId, nat>
    var successes: map<ServerId, nat>
    var published: seq<(ServerId, Status)>
    ghost var history: map<ServerId, seq<Observation>>

    ghost function Contents(): Tables
      reads this
    {
      Tables(serverHealth, healthyServers, failures, successes)
    }

    ghost predicate Valid()
      reads this
    {
      forall id :: Agrees(Contents(), published, history, id)
    }

    constructor ()
      ensures Valid() && published == [] && history == map[]
    {
      serverHealth, healthyServers, failures, successes := map[], {}, map[], map[];
      published, history := [], map[];
    }

    // The body of _monitor_server_health once the check answered for the same process.
    method RecordCheck(id: ServerId, ok: bool)
      modifies this
      ensures Contents() == AfterCheck(old(Contents()), id, ok)
      ensures published == old(published) + Announced(id, Observe(old(Contents()).RecordOf(id), Checked(ok)).1)
      ensures history == old(history)
    {
      var previous := if id in serverHealth then serverHealth[id] else Healthy;
      if ok {
        failures := failures[id := 0];
        successes := successes[id := (if id in successes then successes[id] else 0) + 1];
        if previous == Unhealthy {
          if successes[id] < RECOVERY_THRESHOLD {
            return;
          }
          serverHealth := serverHealth[id := Healthy];
          healthyServers := healthyServers + {id};
          published := published + [(id, Healthy)];
        }
        return;
      }
      successes := successes[id := 0];
      failures := failures[id := (if id in failures then failures[id] else 0) + 1];
      if previous == Unhealthy || failures[id] < FAILURE_THRESHOLD {
        return;
      }
      serverHealth := serverHealth[id := Unhealthy];
      healthyServers := healthyServers - {id};
      published := published + [(id, Unhealthy)];
    }

    method Check(id: ServerId, ok: bool)
      requires Valid()
      modifies this
      ensures Valid()
      ensures history == Extended(old(history), id, Checked(ok))
    {
      CheckMoves(Contents(), published, history, id, ok);
      RecordCheck(id, ok);
      history := Extended(history, id, Checked(ok));
    }

    // The health part of a successful start.
    method StartSucceeded(id: ServerId)
      requires Valid()
      modifies this
      ensures Valid()
      ensures history == Extended(old(history), id, Started)
      ensures published == old(published)
      ensures serverHealth == old(serverHealth)[id := Healthy] && healthyServers == old(healthyServers) + {id}
      ensures failures == old(failures)[id := 0] && successes == old(successes)[id := 0]
    {
      ghost var t := Contents();
      healthyServers := healthyServers + {id};
      serverHealth := serverHealth[id := Healthy];
      failures := failures[id := 0];
      successes := successes[id := 0];
      Moves(t, Contents(), published, published, history, id, Started);
      history := Extended(history, id, Started);
    }

    // The health part of a stop, a failed start and a process exit.
    method Remove(id: ServerId)
      requires Valid()
      modifies this
      ensures Valid()
      ensures history == Extended(old(history), id, Removed)
      ensures published == old(published)
      ensures serverHealth == old(serverHealth) - {id} && healthyServers == old(healthyServers) - {id}
      ensures failures == old(failures) - {id} && successes == old(successes) - {id}
    {
      ghost var t := Contents();
      healthyServers := healthyServers - {id};
      serverHealth := serverHealth - {id};
      failures := failures - {id};
      successes := successes - {id};
      Moves(t, Contents(), published, published, history, id, Removed);
      history := Extended(history, id, Removed);
    }
  }

  datatype Tables = Tables(
    health: map<ServerId, Status>, healthy: set<ServerId>, failures: map<ServerId, nat>, successes: map<ServerId, nat>)
  {
    function RecordOf(id: ServerId): Record {
      Record(if id in health then Some(health[id]) else None,
             if id in failures then failures[id] else 0,
             if id in successes then successes[id] else 0)
    }

    predicate CallsHealthy(id: ServerId) {
      id in health && health[id] == Healthy
    }
  }

  // Server id's entries are what its observations amount to, its membership in the healthy
  // set agrees with its recorded status, and its transitions are what was published.
  predicate Agrees(t: Tables, published: seq<(ServerId, Status)>, history: map<ServerId, seq<Observation>>, id: ServerId) {
    && t.RecordOf(id) == Recorded(HistoryIn(history, id))
    && (id in t.healthy <==> t.CallsHealthy(id))
    && PublishedFor(published, id) == Events(HistoryIn(history, id))
  }

  function HistoryIn(history: map<ServerId, seq<Observation>>, id: ServerId): seq<Observation> {
    if id in history then history[id] else []
  }

  function Extended(history: map<ServerId, seq<Observation>>, id: ServerId, o: Observation): map<ServerId, seq<Observation>> {
    history[id := HistoryIn(history, id) + [o]]
  }

  // The transitions published about one server.
  function PublishedFor(published: seq<(ServerId, Status)>, id: ServerId): seq<Status> {
    if published == [] then []
    else PublishedFor(published[..|published| - 1], id)
         + (if published[|published| - 1].0 == id then [published[|published| - 1].1] else [])
  }

  function Announced(id: ServerId, e: Option<Status>): seq<(ServerId, Status)> {
    if e.Some? then [(id, e.value)] else []
  }

  lemma Told(before: seq<(ServerId, Status)>, e: Option<Status>, id: ServerId, jd: ServerId)
    ensures PublishedFor(before + Announced(id, e), jd)
            == PublishedFor(before, jd) + (if e.Some? && jd == id then [e.value] else [])
  {
    if e.Some? {
      assert (before + [(id, e.value)])[..|before|] == before;
    } else {
      assert before + [] == before;
    }
  }

  // An observation of id moves id's entries and events by one step, and nobody else's.
  lemma Moves(t: Tables, u: Tables, before: seq<(ServerId, Status)>, after: seq<(ServerId, Status)>,
              history: map<ServerId, seq<Observation>>, id: ServerId, o: Observation)
    requires forall jd :: Agrees(t, before, history, jd)
    requires u.RecordOf(id) == Observe(t.RecordOf(id), o).0 && (id in u.healthy <==> u.CallsHealthy(id))
    requires after == before + Announced(id, Observe(t.RecordOf(id), o).1)
    requires forall jd {:trigger u.RecordOf(jd)} | jd != id ::
               u.RecordOf(jd) == t.RecordOf(jd) && (jd in u.healthy <==> jd in t.healthy)
    ensures forall jd :: Agrees(u, after, Extended(history, id, o), jd)
  {
    var h := HistoryIn(history, id);
    assert (h + [o])[..|h|] == h;
    assert Agrees(t, before, history, id);
    forall jd
      ensures Agrees(u, after, Extended(history, id, o), jd)
    {
      assert Agrees(t, before, history, jd);
      Told(before, Observe(t.RecordOf(id), o).1, id, jd);
      if jd != id {
        assert HistoryIn(Extended(history, id, o), jd) == HistoryIn(history, jd);
        assert u.RecordOf(jd) == t.RecordOf(jd);
      }
    }
  }

  function AfterCheck(t: Tables, id: ServerId, ok: bool): Tables {
    var r, e := Observe(t.RecordOf(id), Checked(ok)).0, Observe(t.RecordOf(id), Checked(ok)).1;
    Tables(if e.Some? then t.health[id := e.value] else t.health,
           if e == Some(Healthy) then t.healthy + {id} else if e == Some(Unhealthy) then t.healthy - {id} else t.healthy,
           t.failures[id := r.failures],
           t.successes[id := r.successes])
  }

  lemma CheckMoves(t: Tables, before: seq<(ServerId, Status)>, history: map<ServerId, seq<Observation>>,
                   id: ServerId, ok: bool)
    requires forall jd :: Agrees(t, before, history, jd)
    ensures forall jd :: Agrees(AfterCheck(t, id, ok), before + Announced(id, Observe(t.RecordOf(id), Checked(ok)).1),
                                Extended(history, id, Checked(ok)), jd)
  {
    assert Agrees(t, before, history, id);
    Moves(t, AfterCheck(t, id, ok), before, before + Announced(id, Observe(t.RecordOf(id), Checked(ok)).1),
          history, id, Checked(ok));
  }

  // ------------------------------------------------------ the trace property

  predicate AllEqual(c: seq<bool>, from: nat, to: nat, ok: bool)
    requires from <= to <= |c|
  {
    forall k | from <= k < to :: c[k] == ok
  }

  // Two consecutive good checks, the first of them at from or later.
  predicate RecoveredSince(c: seq<bool>, from: nat) {
    exists j | from <= j < |c| - 1 :: c[j] && c[j + 1]
  }

  predicate FailedThrice(c: seq<bool>, i: nat) {
    3 <= i <= |c| && !c[i - 3] && !c[i - 2] && !c[i - 1]
  }

  /** Some three consecutive failures have not since been followed by two consecutive successes. */
  predicate Down(c: seq<bool>) {
    exists i {:trigger FailedThrice(c, i)} | 3 <= i <= |c| :: FailedThrice(c, i) && !RecoveredSince(c, i)
  }

  // The length of the run of `ok` that ends the trace.
  function Trailing(c: seq<bool>, ok: bool): (n: nat)
    ensures n <= |c| && AllEqual(c, |c| - n, |c|, ok)
    ensures n < |c| ==> c[|c| - n - 1] != ok
  {
    if c != [] && c[|c| - 1] == ok then 1 + Trailing(c[..|c| - 1], ok) else 0
  }

  lemma RecoveredAppend(c: seq<bool>, x: bool, from: nat)
    ensures RecoveredSince(c + [x], from) <==> RecoveredSince(c, from) || (x && from < |c| && c[|c| - 1])
  {
    var d := c + [x];
    if RecoveredSince(c, from) {
      var j :| from <= j < |c| - 1 && c[j] && c[j + 1];
      assert d[j] && d[j + 1];
    }
    if x && from < |c| && c[|c| - 1] {
      assert d[|c| - 1] && d[|c|];
    }
  }

  lemma EndsInTwoFailures(c: seq<bool>)
    ensures Trailing(c, false) >= 2 <==> |c| >= 2 && !c[|c| - 1] && !c[|c| - 2]
  {
    if c != [] {
      var d := c[..|c| - 1];
      assert Trailing(c, false) == if c[|c| - 1] == false then 1 + Trailing(d, false) else 0;
      assert d != [] ==> d[|d| - 1] == c[|c| - 2];
    }
  }

  lemma FailedAppend(c: seq<bool>, x: bool, i: nat)
    ensures FailedThrice(c + [x], i) <==>
            FailedThrice(c, i) || (i == |c| + 1 && !x && |c| >= 2 && !c[|c| - 1] && !c[|c| - 2])
  {
    var d := c + [x];
    assert |d| == |c| + 1 && d[|c|] == x;
    assert forall k | 0 <= k < |c| :: d[k] == c[k];
  }

  lemma DownAfterFailure(c: seq<bool>)
    ensures Down(c + [false]) <==> Down(c) || Trailing(c, false) >= 2
  {
    var d := c + [false];
    EndsInTwoFailures(c);
    forall i: nat
      ensures RecoveredSince(d, i) == RecoveredSince(c, i)
      ensures FailedThrice(d, i) <==> FailedThrice(c, i) || (i == |c| + 1 && Trailing(c, false) >= 2)
    {
      RecoveredAppend(c, false, i);
      FailedAppend(c, false, i);
    }
    assert !RecoveredSince(d, |d|);
    if Down(c) {
      var i :| 3 <= i <= |c| && FailedThrice(c, i) && !RecoveredSince(c, i);
      assert FailedThrice(d, i);
    }
    if Trailing(c, false) >= 2 {
      assert FailedThrice(d, |d|);
    }
  }

  lemma DownAfterSuccess(c: seq<bool>)
    ensures Down(c + [true]) <==> Down(c) && Trailing(c, true) == 0
  {
    var d := c + [true];
    forall i: nat
      ensures RecoveredSince(d, i) <==> RecoveredSince(c, i) || (i < |c| && c[|c| - 1])
      ensures FailedThrice(d, i) <==> FailedThrice(c, i)
    {
      RecoveredAppend(c, true, i);
      FailedAppend(c, true, i);
    }
    if Down(c) && Trailing(c, true) == 0 {
      var i :| 3 <= i <= |c| && FailedThrice(c, i) && !RecoveredSince(c, i);
      assert FailedThrice(d, i);
    }
    if Down(d) {
      var i :| 3 <= i <= |d| && FailedThrice(d, i) && !RecoveredSince(d, i);
      assert FailedThrice(c, i);
    }
  }

  // The record r is the one the checks c lead to.
  predicate Tells(r: Record, c: seq<bool>) {
    && (StatusOf(r) == Unhealthy <==> Down(c))
    && r.failures == Trailing(c, false)
    && r.successes == Trailing(c, true)
  }

  lemma GoodCheck(r: Record, c: seq<bool>)
    requires Tells(r, c)
    ensures Tells(Observe(r, Checked(true)).0, c + [true])
  {
    DownAfterSuccess(c);
    assert (c + [true])[..|c|] == c;
  }

  lemma FailedCheck(r: Record, c: seq<bool>)
    requires Tells(r, c)
    ensures Tells(Observe(r, Checked(false)).0, c + [false])
  {
    DownAfterFailure(c);
    assert (c + [false])[..|c|] == c;
  }

  lemma {:induction false} RecordIsTrace(h: seq<Observation>)
    ensures Tells(Recorded(h), Checks(h))
  {
    if h != [] {
      var g, o := h[..|h| - 1], h[|h| - 1];
      RecordIsTrace(g);
      if o == Checked(true) {
        GoodCheck(Recorded(g), Checks(g));
      } else if o == Checked(false) {
        FailedCheck(Recorded(g), Checks(g));
      }
    }
  }

  /**
   * Hysteresis: over any history of checks, a server is recorded as unhealthy exactly when
   * some three consecutive failures since its last start or removal have not since been
   * followed by two consecutive successes.
   */
  lemma UnhealthyIffDown(h: seq<Observation>)
    ensures Recorded(h).status == Some(Unhealthy) <==> Down(Checks(h))
  {
    RecordIsTrace(h);
  }

  // ----------------------------------------------------- published transitions

  // The server was started or removed after its last published transition.
  predicate ResetSince(h: seq<Observation>) {
    h != []
    && (var g, o := h[..|h| - 1], h[|h| - 1];
        if o.Checked? then Observe(Recorded(g), o).1.None? && ResetSince(g) else true)
  }

  lemma {:induction false} LastEventTellsStatus(h: seq<Observation>)
    ensures Events(h) == [] || ResetSince(h) ==> StatusOf(Recorded(h)) == Healthy
    ensures Events(h) != [] && !ResetSince(h) ==> StatusOf(Recorded(h)) == Events(h)[|Events(h)| - 1]
  {
    if h != [] {
      LastEventTellsStatus(h[..|h| - 1]);
    }
  }

  /**
   * Transitions alternate, first to unhealthy, except that an unhealthy server which is
   * started afresh or removed may be announced unhealthy a second time: a transition repeats
   * the one before exactly in that case.
   */
  lemma RepeatsOnlyAfterReset(h: seq<Observation>, o: Observation)
    requires Observe(Recorded(h), o).1.Some?
    ensures Events(h) == [] ==> Observe(Recorded(h), o).1 == Some(Unhealthy)
    ensures Events(h) != [] ==>
              var last := Events(h)[|Events(h)| - 1];
              Observe(Recorded(h), o).1 == Some(last) <==> last == Unhealthy && ResetSince(h)
  {
    LastEventTellsStatus(h);
  }

  /** Between a start (or the first check) and the next, transitions strictly alternate. */
  lemma {:induction false} AlternatesWithinOneStart(h: seq<Observation>, k: nat)
    requires forall j | 0 < j < |h| :: h[j].Checked?
    requires k < |Events(h)|
    ensures Events(h)[k] == if k % 2 == 0 then Unhealthy else Healthy
    ensures StatusOf(Recorded(h)) == if |Events(h)| % 2 == 0 then Healthy else Unhealthy
  {
    var g := h[..|h| - 1];
    if k < |Events(g)| {
      AlternatesWithinOneStart(g, k);
    } else if |Events(g)| > 0 {
      AlternatesWithinOneStart(g, k - 1);
    } else {
      LastEventTellsStatus(g);
    }
  }
}
