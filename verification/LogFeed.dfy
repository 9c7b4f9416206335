/**
 * The frontend's visible log: polled history and live events merged by sequence number
 * into a tail, a cursor and a bootstrapped flag. The reference is again the unbounded log.
 */
module LogFeed {
  import opened Common
  import opened LogRing

  const MAX_LINES := 2000

  // A JSON entry: any member may be absent.
  datatype RawEntry = RawEntry(at: Option<int>, stream: Option<string>, line: Option<string>)

  datatype Payload = Payload(
    entries: Option<seq<RawEntry>>, lines: Option<seq<RawEntry>>,
    stdout: Option<seq<string>>, stderr: Option<seq<string>>,
    nextCursor: Option<int>, gap: Option<bool>)

  datatype History = History(lines: Log, nextCursor: int, gap: bool)

  function Default<T>(o: Option<T>, d: T): T {
    if o.Some? then o.value else d
  }

  function LastLines<T>(lines: seq<T>): (kept: seq<T>)
    ensures |kept| == Min(|lines|, 2000) && kept == lines[|lines| - |kept|..]
  {
    if |lines| > MAX_LINES then lines[|lines| - MAX_LINES..] else lines
  }

  function ToLines(entries: seq<RawEntry>, startSeq: int): (lines: Log)
    ensures |lines| == |entries|
    ensures forall i | 0 <= i < |entries| && entries[i].at.Some? :: lines[i].at == entries[i].at.value
    ensures forall i | 0 <= i < |entries| && entries[i].at.None? :: lines[i].at == startSeq + i
    ensures forall i | 0 <= i < |entries| :: lines[i].stream == Default(entries[i].stream, "stdout")
    ensures forall i | 0 <= i < |entries| :: lines[i].line == Default(entries[i].line, "")
  {
    seq(|entries|, i requires 0 <= i < |entries| =>
      LogEntry(Default(entries[i].at, startSeq + i), Default(entries[i].stream, "stdout"), Default(entries[i].line, "")))
  }

  function Unsequenced(texts: seq<string>, stream: string, start: nat): Log {
    seq(|texts|, i requires 0 <= i < |texts| => LogEntry(start + i, stream, texts[i]))
  }

  function ParseHistory(data: Payload): History {
    if data.entries.Some? || data.lines.Some? then
      History(ToLines(if data.entries.Some? then data.entries.value else data.lines.value, 0),
              Default(data.nextCursor, 0), Default(data.gap, false))
    else
      var stdout, stderr := Default(data.stdout, []), Default(data.stderr, []);
      var legacy := Unsequenced(stdout, "stdout", 0) + Unsequenced(stderr, "stderr", |stdout|);
      History(legacy, |legacy|, false)
  }

  /** Numbered entries are read first, then numbered lines; plain streams are numbered on, the errors last. */
  lemma PayloadsAreRead(data: Payload)
    ensures data.entries.Some? ==>
              ParseHistory(data) == History(ToLines(data.entries.value, 0), Default(data.nextCursor, 0), data.gap == Some(true))
    ensures data.entries.None? && data.lines.Some? ==>
              ParseHistory(data) == History(ToLines(data.lines.value, 0), Default(data.nextCursor, 0), data.gap == Some(true))
    ensures data.entries.None? && data.lines.None? ==>
              var h, stdout, stderr := ParseHistory(data), Default(data.stdout, []), Default(data.stderr, []);
              && h.nextCursor == |h.lines| == |stdout| + |stderr| && !h.gap
              && (forall i | 0 <= i < |stdout| :: h.lines[i] == LogEntry(i, "stdout", stdout[i]))
              && (forall i | 0 <= i < |stderr| :: h.lines[|stdout| + i] == LogEntry(|stdout| + i, "stderr", stderr[i]))
  {}

  function Unseen(entries: Log, cursor: int): Log {
    if entries == [] then []
    else (if entries[0].at >= cursor then [entries[0]] else []) + Unseen(entries[1..], cursor)
  }

  function Merge(tail: Log, cursor: int, entries: Log): (Log, int) {
    var unseen := Unseen(entries, cursor);
    if unseen == [] then (tail, cursor)
    else (LastLines(tail + unseen), unseen[|unseen| - 1].at + 1)
  }

  // What the loops of unionLines compute, before the cut.
  function Union(a: Log, b: Log): Log {
    if a == [] then b
    else if b == [] then a
    else if a[0].at < b[0].at then [a[0]] + Union(a[1..], b)
    else if a[0].at > b[0].at then [b[0]] + Union(a, b[1..])
    else [a[0]] + Union(a[1..], b[1..])
  }

  // One turn of the first loop, with a[i..] and b[j..] still to come.
  lemma UnionStep(out: Log, a: Log, b: Log, i: nat, j: nat)
    requires i < |a| && j < |b|
    ensures a[i].at < b[j].at ==> out + Union(a[i..], b[j..]) == out + [a[i]] + Union(a[i + 1..], b[j..])
    ensures a[i].at > b[j].at ==> out + Union(a[i..], b[j..]) == out + [b[j]] + Union(a[i..], b[j + 1..])
    ensures a[i].at == b[j].at ==> out + Union(a[i..], b[j..]) == out + [a[i]] + Union(a[i + 1..], b[j + 1..])
  {
    assert a[i..][1..] == a[i + 1..] && b[j..][1..] == b[j + 1..];
  }

  method Zip(a: Log, b: Log) returns (out: Log, i: nat, j: nat)
    ensures i <= |a| && j <= |b| && (i == |a| || j == |b|)
    ensures out + Union(a[i..], b[j..]) == Union(a, b)
  {
    out, i, j := [], 0, 0;
    while i < |a| && j < |b|
      invariant i <= |a| && j <= |b|
      invariant out + Union(a[i..], b[j..]) == Union(a, b)
      decreases |a| - i + |b| - j
    {
      UnionStep(out, a, b, i, j);
      if a[i].at < b[j].at {
        out := out + [a[i]];
        i := i + 1;
      } else if a[i].at > b[j].at {
        out := out + [b[j]];
        j := j + 1;
      } else {
        out := out + [a[i]];
        i, j := i + 1, j + 1;
      }
    }
  }

  lemma UnionRest(out: Log, a: Log, b: Log)
    requires a == [] || b == []
    ensures out + a + b == out + Union(a, b)
  {
    assert a == [] ==> out + a == out;
    assert b == [] ==> out + a + b == out + a;
  }

  // while (i < a.length) out.push(a[i++])
  method PushRest(out: Log, a: Log, i: nat) returns (all: Log)
    requires i <= |a|
    ensures all == out + a[i..]
  {
    all := out;
    for k := i to |a|
      invariant all == out + a[i..k]
    {
      all := all + [a[k]];
    }
  }

  method UnionLines(a: Log, b: Log) returns (out: Log)
    ensures out == LastLines(Union(a, b))
  {
    var zipped, i, j := Zip(a, b);
    UnionRest(zipped, a[i..], b[j..]);
    out := PushRest(zipped, a, i);
    out := PushRest(out, b, j);
    out := if |out| > MAX_LINES then out[|out| - MAX_LINES..] else out;
  }

  // ------------------------------------------------------- union, characterised

  // u is the sorted union of a and b; where both have a line, a's is taken.
  ghost predicate IsSortedUnion(u: Log, a: Log, b: Log) {
    && Ascending(u)
    && forall e :: e in u <==> e in a || (e in b && forall f | f in a :: f.at != e.at)
  }

  lemma AscendingTail(lines: Log)
    requires Ascending(lines) && lines != []
    ensures Ascending(lines[1..])
    ensures forall e | e in lines[1..] :: lines[0].at < e.at
    ensures forall e :: e in lines <==> e == lines[0] || e in lines[1..]
  {
    assert lines == [lines[0]] + lines[1..];
  }

  // Both heads of a union are at or after its own.
  lemma {:induction false} UnionHas(a: Log, b: Log, e: LogEntry)
    requires Ascending(a) && Ascending(b)
    ensures e in Union(a, b) <==> e in a || (e in b && forall f | f in a :: f.at != e.at)
  {
    if a != [] && b != [] {
      AscendingTail(a);
      AscendingTail(b);
      if a[0].at < b[0].at {
        UnionHas(a[1..], b, e);
        assert e in b ==> e.at > a[0].at;
      } else if a[0].at > b[0].at {
        UnionHas(a, b[1..], e);
        assert forall f | f in a :: f.at != b[0].at;
      } else {
        UnionHas(a[1..], b[1..], e);
      }
    }
  }

  lemma {:induction false} UnionAscends(a: Log, b: Log)
    requires Ascending(a) && Ascending(b)
    ensures Ascending(Union(a, b))
  {
    if a != [] && b != [] {
      AscendingTail(a);
      AscendingTail(b);
      var least, rest := if a[0].at > b[0].at then b[0] else a[0],
                         if a[0].at < b[0].at then Union(a[1..], b)
                         else if a[0].at > b[0].at then Union(a, b[1..])
                         else Union(a[1..], b[1..]);
      if a[0].at < b[0].at {
        UnionAscends(a[1..], b);
      } else if a[0].at > b[0].at {
        UnionAscends(a, b[1..]);
      } else {
        UnionAscends(a[1..], b[1..]);
      }
      forall k | 0 <= k < |rest|
        ensures least.at < rest[k].at
      {
        if a[0].at < b[0].at {
          UnionHas(a[1..], b, rest[k]);
        } else if a[0].at > b[0].at {
          UnionHas(a, b[1..], rest[k]);
        } else {
          UnionHas(a[1..], b[1..], rest[k]);
        }
      }
    }
  }

  /** unionLines yields exactly the last 2000 lines of the sorted union: no other answer fits. */
  lemma UnionIsSortedUnion(a: Log, b: Log)
    requires Ascending(a) && Ascending(b)
    ensures IsSortedUnion(Union(a, b), a, b)
    ensures forall u | IsSortedUnion(u, a, b) :: u == Union(a, b)
  {
    UnionAscends(a, b);
    forall e
      ensures e in Union(a, b) <==> e in a || (e in b && forall f | f in a :: f.at != e.at)
    {
      UnionHas(a, b, e);
    }
    forall u | IsSortedUnion(u, a, b)
      ensures u == Union(a, b)
    {
      AscendingIsDetermined(u, Union(a, b));
    }
  }

  lemma {:induction false} AscendingIsDetermined(u: Log, v: Log)
    requires Ascending(u) && Ascending(v)
    requires forall e :: e in u <==> e in v
    ensures u == v
  {
    if v != [] {
      assert v[0] in u;
    }
    if u != [] {
      assert u[0] in v;
      AscendingTail(u);
      AscendingTail(v);
      assert u[0] == v[0];
      AscendingIsDetermined(u[1..], v[1..]);
    }
  }
}
