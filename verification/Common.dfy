/** Identifiers, clocks and constants shared by the backend and agent models. */
module Common {

  datatype Option<+T> = None | Some(value: T)

  type ServerId = nat
  type AgentId = nat
  type ModelId = nat
  type LeaseId = nat
  type RequestId = nat
  // A reservation attempt: the fresh uuid carried by X-Inference-Reservation-ID.
  type Attempt = nat
  type TaskId = nat

  // Milliseconds. Agents and backend measure durations at the same rate.
  type Time = int

  const RESERVATION_RECOVERY: Time := 12_000
  const RESERVATION_TTL: Time := 15_000
  const ACTIVE_LEASE_TTL: Time := 90_000
  const SERVER_READY_COOLDOWN: Time := 3_000

  function Max(a: int, b: int): int {
    if a < b then b else a
  }

  // A set whose members are those of s plus one new x has one more member.
  lemma AddedOne<T>(s: set<T>, t: set<T>, x: T)
    requires x !in s
    requires forall y :: y in t <==> y in s || y == x
    ensures |t| == |s| + 1
  {
    assert t == s + {x};
  }

  lemma CardinalitySubset<T>(s: set<T>, t: set<T>)
    requires s <= t
    ensures |s| <= |t|
    ensures |s| == |t| ==> s == t
  {
    assert t == s + (t - s);
    assert |t| == |s| + |t - s|;
  }
}
