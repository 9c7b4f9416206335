/**
 * The agent's log feed: a bounded ring of lines that carry absolute sequence numbers, and
 * the cursor replies clients poll it with. The reference is the unbounded log: every line
 * ever appended, the k-th of them numbered k.
 */
module LogRing {
  import opened Common

  const BUFFER_LINES := 2000
  const REPLY_LIMIT := 500

  datatype LogEntry = LogEntry(at: int, stream: string, line: string)

  type Log = seq<LogEntry>

  predicate Numbered(log: Log) {
    forall i | 0 <= i < |log| :: log[i].at == i
  }

  function Min(a: int, b: int): int {
    if a < b then a else b
  }

  // Where a reply to `cursor` starts when the oldest retained line is `first`.
  function From(log: Log, first: nat, cursor: int): (lo: nat)
    requires first <= |log|
    ensures first <= lo <= |log|
  {
    Min(Max(cursor, first), |log|)
  }

  function EntriesAfter(log: Log, first: nat, cursor: int, limit: nat): Log
    requires first <= |log|
  {
    var lo := From(log, first, cursor);
    log[lo..Min(lo + limit, |log|)]
  }

  function Segment(lines: seq<string>, stream: string, start: nat): Log {
    if lines == [] then []
    else if lines[0] == "" then Segment(lines[1..], stream, start)
    else [LogEntry(start, stream, lines[0])] + Segment(lines[1..], stream, start + 1)
  }

  /** A line is numbered if and only if it is not blank, and it makes no difference how the output was cut into chunks. */
  lemma {:induction false} ChunksJoin(a: seq<string>, b: seq<string>, stream: string, start: nat, line: string)
    ensures Segment(a + b, stream, start) == Segment(a, stream, start) + Segment(b, stream, start + |Segment(a, stream, start)|)
    ensures Segment([], stream, start) == []
    ensures Segment([line], stream, start) == if line == "" then [] else [LogEntry(start, stream, line)]
  {
    assert [line][1..] == [];
    if a == [] {
      assert a + b == b;
    } else {
      assert (a + b)[1..] == a[1..] + b;
      ChunksJoin(a[1..], b, stream, if a[0] == "" then start else start + 1, line);
    }
  }

  class CursorLogRing {
    const maxLines: nat
    var entries: seq<LogEntry>
    var nextSeq: nat
    ghost var log: Log   // everything ever appended

    ghost function First(): nat
      reads this
      requires Valid()
    {
      |log| - |entries|
    }

    // The ring retains exactly the newest lines of the log, as many as it may.
    ghost predicate Valid()
      reads this
    {
      && nextSeq == |log|
      && Numbered(log)
      && |entries| == Min(|log|, maxLines)
      && entries == log[|log| - |entries|..]
    }

    constructor (maxLines: nat := BUFFER_LINES)
      ensures Valid() && log == [] && this.maxLines == maxLines
    {
      this.maxLines := maxLines;
      entries, nextSeq, log := [], 0, [];
    }

    method FirstCursor() returns (cursor: nat)
      requires Valid()
      ensures cursor == First()
    {
      if |entries| > 0 {
        assert entries[0] == log[|log| - |entries|];
        return entries[0].at;
      }
      return nextSeq;
    }

    method Append(stream: string, line: string) returns (entry: LogEntry)
      requires Valid()
      modifies this
      ensures Valid()
      ensures entry == LogEntry(|old(log)|, stream, line) && log == old(log) + [entry]
    {
      entry := LogEntry(nextSeq, stream, line);
      nextSeq := nextSeq + 1;
      entries := entries + [entry];
      log := log + [entry];
      if |entries| > maxLines {
        entries := entries[|entries| - maxLines..];
      }
    }

    // The lines of one raw chunk; blank ones are dropped.
    method Extend(stream: string, lines: seq<string>) returns (added: seq<LogEntry>)
      requires Valid()
      modifies this
      ensures Valid()
      ensures added == Segment(lines, stream, |old(log)|) && log == old(log) + added
    {
      added := [];
      for i := 0 to |lines|
        invariant Valid()
        invariant log == old(log) + added
        invariant added + Segment(lines[i..], stream, |log|) == Segment(lines, stream, |old(log)|)
      {
        assert lines[i..][1..] == lines[i + 1..];
        if lines[i] != "" {
          var entry := Append(stream, lines[i]);
          added := added + [entry];
        }
      }
    }

    method After(cursor: int, limit: nat := REPLY_LIMIT) returns (found: seq<LogEntry>, gap: bool)
      requires Valid()
      ensures found == EntriesAfter(log, First(), cursor, limit)
      ensures gap <==> cursor < First()
    {
      var first := FirstCursor();
      gap := cursor < first;
      found := [];
      ghost var lo := From(log, First(), cursor);
      for i := 0 to |entries|
        invariant found == log[lo..Max(lo, First() + i)]
      {
        assert entries[i] == log[First() + i];
        if entries[i].at >= cursor {
          found := found + [entries[i]];
        }
      }
      assert found == log[lo..|log|];
      if |found| > limit {
        found := found[..limit];
        assert found == log[lo..lo + limit];
      }
    }

    method Tail(lines: int) returns (found: seq<LogEntry>)
      requires Valid()
      ensures lines <= 0 ==> found == []
      ensures lines > 0 ==> found == log[|log| - Min(lines, |entries|)..]
    {
      if lines <= 0 {
        return [];
      }
      found := if lines >= |entries| then entries else entries[|entries| - lines..];
    }
  }

  datatype Reply = Reply(entries: Log, nextCursor: int, gap: bool)

  // The cursor reply as a function of the log.
  function ReplyAfter(log: Log, first: nat, cursor: int): Reply
    requires first <= |log|
  {
    var found := EntriesAfter(log, first, cursor, REPLY_LIMIT);
    Reply(found, if found == [] then cursor else found[|found| - 1].at + 1, cursor < first)
  }

  // get_server_logs for a server with a ring; without one it answers as an empty, stopped feed.
  method GetServerLogs(ring: CursorLogRing?, lines: int, after: Option<int>) returns (reply: Reply)
    requires ring != null ==> ring.Valid()
    ensures ring == null ==> reply == Reply([], 0, false)
    ensures ring != null && after.Some? ==> reply == ReplyAfter(ring.log, ring.First(), after.value)
    ensures ring != null && after.None? ==> reply.nextCursor == |ring.log| && !reply.gap
    ensures ring != null && after.None? ==>
              reply.entries == if lines > 0 then ring.log[|ring.log| - Min(lines * 2, |ring.entries|)..] else []
  {
    if ring == null {
      return Reply([], 0, false);
    }
    if after.Some? {
      var found, gap := ring.After(after.value);
      return Reply(found, if |found| > 0 then found[|found| - 1].at + 1 else after.value, gap);
    }
    var tail := ring.Tail(lines * 2);
    return Reply(tail, ring.nextSeq, false);
  }

  // ---------------------------------------------------------- chained polls

  // What one poll finds: how long the log is by then, and its oldest retained line.
  datatype Poll = Poll(length: nat, first: nat)

  // Polls of one feed, in order: the log only grows, and evicted lines stay evicted.
  ghost predicate Session(log: Log, polls: seq<Poll>) {
    && Numbered(log)
    && (forall k | 0 <= k < |polls| :: polls[k].first <= polls[k].length <= |log|)
    && (forall j, k | 0 <= j < k < |polls| :: polls[j].length <= polls[k].length && polls[j].first <= polls[k].first)
  }

  function ReplyTo(log: Log, poll: Poll, cursor: int): Reply
    requires poll.first <= poll.length <= |log|
  {
    ReplyAfter(log[..poll.length], poll.first, cursor)
  }

  // A client that has polled: its cursor, all it was given, and the lines that were passed
  // over because they had been evicted before their turn.
  datatype Client = Client(cursor: int, got: Log, skipped: set<int>)

  function Between(lo: int, hi: int): (s: set<int>)
    ensures forall n :: n in s <==> lo <= n < hi
    decreases hi - lo
  {
    if lo < hi then Between(lo, hi - 1) + {hi - 1} else {}
  }

  ghost function After(log: Log, c: Client, poll: Poll): Client
    requires poll.first <= poll.length <= |log|
  {
    var r := ReplyTo(log, poll, c.cursor);
    Client(r.nextCursor, c.got + r.entries, c.skipped + Between(c.cursor, Min(poll.first, r.nextCursor)))
  }

  // The client asks each time for what the last reply told it to.
  ghost function Follow(log: Log, start: nat, polls: seq<Poll>): Client
    requires Session(log, polls)
  {
    if polls == [] then Client(start, [], {})
    else After(log, Follow(log, start, polls[..|polls| - 1]), polls[|polls| - 1])
  }

  ghost predicate Ascending(lines: Log) {
    forall i, j | 0 <= i < j < |lines| :: lines[i].at < lines[j].at
  }

  // One reply: where it starts and ends.
  lemma ReplySpan(log: Log, poll: Poll, cursor: nat)
    requires Numbered(log) && poll.first <= poll.length <= |log| && cursor <= poll.length
    ensures var r := ReplyTo(log, poll, cursor);
            var lo := Max(cursor, poll.first);
            && cursor <= r.nextCursor <= poll.length
            && (if r.nextCursor == cursor then r.entries == [] else lo < r.nextCursor && r.entries == log[lo..r.nextCursor])
            && (r.nextCursor == cursor <==> lo == poll.length)
            && (lo < poll.length ==> r.nextCursor == Min(lo + REPLY_LIMIT, poll.length))
  {
    var known := log[..poll.length];
    var lo := From(known, poll.first, cursor);
    var hi := Min(lo + REPLY_LIMIT, poll.length);
    assert known[lo..hi] == log[lo..hi];
    if lo < hi {
      assert log[lo..hi][hi - lo - 1] == log[hi - 1];
    }
  }

  // What a client holds after its polls, line by line.
  ghost predicate Faithful(log: Log, start: nat, c: Client) {
    && start <= c.cursor <= |log|
    && Ascending(c.got)
    && (forall e | e in c.got :: start <= e.at < c.cursor && e == log[e.at])
    && (forall n | n in c.skipped :: start <= n < c.cursor)
    && (forall n {:trigger log[n]} | start <= n < c.cursor :: log[n] in c.got <==> n !in c.skipped)
  }

  lemma AppendedSegment(log: Log, got: Log, c: nat, lo: nat, hi: nat)
    requires Numbered(log) && Ascending(got) && c <= lo < hi <= |log|
    requires forall e | e in got :: 0 <= e.at < c && e == log[e.at]
    ensures Ascending(got + log[lo..hi])
    ensures forall e | e in got + log[lo..hi] :: 0 <= e.at < hi && e == log[e.at]
    ensures forall n {:trigger log[n]} | 0 <= n < hi :: log[n] in got + log[lo..hi] <==> log[n] in got || lo <= n
  {
    var all := got + log[lo..hi];
    forall e | e in all
      ensures 0 <= e.at < hi && e == log[e.at]
    {
      if e !in got {
        var k :| 0 <= k < hi - lo && log[lo..hi][k] == e;
      }
    }
    forall n | 0 <= n < hi
      ensures log[n] in all <==> log[n] in got || lo <= n
    {
      if lo <= n {
        assert log[lo..hi][n - lo] == log[n];
      }
    }
  }

  // A reply that brought lines lo..next after the cursor.
  lemma FaithfulAfter(log: Log, start: nat, c: Client, d: Client, lo: nat, next: nat)
    requires Numbered(log) && Faithful(log, start, c) && c.cursor <= lo < next <= |log|
    requires d.cursor == next && d.got == c.got + log[lo..next]
    requires forall n :: n in d.skipped <==> n in c.skipped || c.cursor <= n < lo
    ensures Faithful(log, start, d)
  {
    AppendedSegment(log, c.got, c.cursor, lo, next);
    forall n | start <= n < next
      ensures log[n] in d.got <==> n !in d.skipped
    {
      assert n >= c.cursor ==> log[n] !in c.got;
    }
  }

  lemma FaithfulStep(log: Log, start: nat, c: Client, poll: Poll)
    requires Numbered(log) && poll.first <= poll.length <= |log|
    requires Faithful(log, start, c) && c.cursor <= poll.length
    ensures Faithful(log, start, After(log, c, poll))
    ensures c.cursor <= After(log, c, poll).cursor <= poll.length
  {
    ReplySpan(log, poll, c.cursor);
    var d := After(log, c, poll);
    if d.cursor > c.cursor {
      FaithfulAfter(log, start, c, d, Max(c.cursor, poll.first), d.cursor);
    } else {
      assert c.got + [] == c.got;
      assert d.skipped == c.skipped;
    }
  }

  /**
   * Chained polls refine the log: whatever is appended and evicted in between, a client is
   * given each line between its first and last cursor once and in order, except exactly the
   * lines that had been evicted before their turn.
   */
  lemma {:induction false} PollsAreFaithful(log: Log, start: nat, polls: seq<Poll>)
    requires Session(log, polls) && (if polls == [] then start <= |log| else start <= polls[0].length)
    ensures Faithful(log, start, Follow(log, start, polls))
    ensures polls != [] ==> Follow(log, start, polls).cursor <= polls[|polls| - 1].length
  {
    if polls != [] {
      var before := polls[..|polls| - 1];
      PollsAreFaithful(log, start, before);
      FaithfulStep(log, start, Follow(log, start, before), polls[|polls| - 1]);
    }
  }

  // No poll was told of a gap.
  ghost predicate GapFree(log: Log, start: nat, polls: seq<Poll>)
    requires Session(log, polls)
  {
    polls != [] ==>
      && GapFree(log, start, polls[..|polls| - 1])
      && !ReplyTo(log, polls[|polls| - 1], Follow(log, start, polls[..|polls| - 1]).cursor).gap
  }

  lemma NoGapStep(log: Log, start: nat, c: Client, poll: Poll, d: Client)
    requires Numbered(log) && poll.first <= poll.length <= |log|
    requires start <= c.cursor <= poll.length && c.got == log[start..c.cursor]
    requires !ReplyTo(log, poll, c.cursor).gap && d == After(log, c, poll)
    ensures c.cursor <= d.cursor <= poll.length
    ensures d.got == log[start..d.cursor]
  {
    ReplySpan(log, poll, c.cursor);
  }

  /** Without a gap the replies concatenate to exactly the segment of the log between the cursors. */
  lemma {:induction false} NoGapNoLoss(log: Log, start: nat, polls: seq<Poll>)
    requires Session(log, polls) && (if polls == [] then start <= |log| else start <= polls[0].length)
    requires GapFree(log, start, polls)
    ensures start <= Follow(log, start, polls).cursor <= |log|
    ensures Follow(log, start, polls).got == log[start..Follow(log, start, polls).cursor]
    ensures polls != [] ==> Follow(log, start, polls).cursor <= polls[|polls| - 1].length
  {
    if polls != [] {
      var before, last := polls[..|polls| - 1], polls[|polls| - 1];
      NoGapNoLoss(log, start, before);
      NoGapStep(log, start, Follow(log, start, before), last, Follow(log, start, polls));
    }
  }

  // A ring that was ever written to retains a line.
  ghost predicate Retaining(polls: seq<Poll>) {
    forall k | 0 <= k < |polls| :: polls[k].first < polls[k].length || polls[k].length == 0
  }

  lemma GapSkips(log: Log, start: nat, c: Client, poll: Poll)
    requires Numbered(log) && poll.first <= poll.length <= |log| && (poll.first < poll.length || poll.length == 0)
    requires Faithful(log, start, c) && c.cursor <= poll.length
    ensures ReplyTo(log, poll, c.cursor).gap ==> c.cursor in After(log, c, poll).skipped
    ensures !ReplyTo(log, poll, c.cursor).gap ==> After(log, c, poll).skipped == c.skipped
  {
    ReplySpan(log, poll, c.cursor);
  }

  /**
   * Over any chain of polls: no reply flags a gap exactly when the client was given every line
   * between where it began and its cursor.
   */
  lemma {:induction false} GapIffLoss(log: Log, start: nat, polls: seq<Poll>)
    requires Session(log, polls) && Retaining(polls)
    requires if polls == [] then start <= |log| else start <= polls[0].length
    ensures start <= Follow(log, start, polls).cursor <= |log|
    ensures var c := Follow(log, start, polls);
            GapFree(log, start, polls) <==> forall n {:trigger log[n]} | start <= n < c.cursor :: log[n] in c.got
  {
    PollsAreFaithful(log, start, polls);
    NothingSkippedIff(log, start, polls);
    var c := Follow(log, start, polls);
    if n :| n in c.skipped {
      assert log[n] !in c.got;
    }
  }

  lemma {:induction false} NothingSkippedIff(log: Log, start: nat, polls: seq<Poll>)
    requires Session(log, polls) && Retaining(polls)
    requires if polls == [] then start <= |log| else start <= polls[0].length
    ensures GapFree(log, start, polls) <==> Follow(log, start, polls).skipped == {}
  {
    if polls != [] {
      var before, last := polls[..|polls| - 1], polls[|polls| - 1];
      NothingSkippedIff(log, start, before);
      PollsAreFaithful(log, start, before);
      assert |before| > 0 ==> before[|before| - 1].length <= last.length && before[0] == polls[0];
      GapSkips(log, start, Follow(log, start, before), last);
    }
  }

  ghost function Repeated(log: Log, c: Client, poll: Poll, n: nat): Client
    requires poll.first <= poll.length <= |log|
  {
    if n == 0 then c else After(log, Repeated(log, c, poll, n - 1), poll)
  }

  lemma NextCursor(log: Log, c: Client, poll: Poll)
    requires Numbered(log) && poll.first < poll.length <= |log| && 0 <= c.cursor <= poll.length
    ensures var d := After(log, c, poll).cursor;
            d == if c.cursor == poll.length then poll.length else Min(Max(c.cursor, poll.first) + REPLY_LIMIT, poll.length)
  {
    ReplySpan(log, poll, c.cursor);
  }

  /** Despite the cap of a reply, a client that polls often enough without new lines catches up. */
  lemma {:induction false} PollsCatchUp(log: Log, c: Client, poll: Poll, n: nat)
    requires Numbered(log) && poll.first < poll.length <= |log| && 0 <= c.cursor <= poll.length && n > 0
    ensures Repeated(log, c, poll, n).cursor == Min(Max(c.cursor, poll.first) + 500 * n, poll.length)
  {
    if n > 1 {
      PollsCatchUp(log, c, poll, n - 1);
    }
    NextCursor(log, Repeated(log, c, poll, n - 1), poll);
  }
}
