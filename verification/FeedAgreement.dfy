/**
 * How the visible tail agrees with the unbounded log of its feed, when replies computed at
 * any time and live segments arrive in any order.
 */
module FeedAgreement {
  import opened Common
  import opened LogRing
  import opened LogFeed
  import opened VisibleFeed

  // ------------------------------------------------------ what the wire carries

  function Full(e: LogEntry): RawEntry {
    RawEntry(Some(e.at), Some(e.stream), Some(e.line))
  }

  function Bare(e: LogEntry): RawEntry {
    RawEntry(None, Some(e.stream), Some(e.line))
  }

  function Mapped(lines: Log, f: LogEntry -> RawEntry): seq<RawEntry> {
    seq(|lines|, i requires 0 <= i < |lines| => f(lines[i]))
  }

  // The agent's reply: sequenced entries, beside the plain lines of each stream.
  function Encode(r: Reply, stdout: seq<string>, stderr: seq<string>): Payload {
    Payload(Some(Mapped(r.entries, Full)), None, Some(stdout), Some(stderr), Some(r.nextCursor), Some(r.gap))
  }

  // A log.lines event carries its lines without numbers and the number of the first.
  function Announce(lines: Log, start: int): LiveLines {
    LiveLines(Some(start), Mapped(lines, Bare))
  }

  /** A cursor reply is read back as it was sent, whatever else the payload repeats. */
  lemma RepliesRoundTrip(r: Reply, stdout: seq<string>, stderr: seq<string>)
    ensures ParseHistory(Encode(r, stdout, stderr)) == History(r.entries, r.nextCursor, r.gap)
  {
    var back := ToLines(Mapped(r.entries, Full), 0);
    forall i | 0 <= i < |r.entries|
      ensures back[i] == r.entries[i]
    {
      assert Mapped(r.entries, Full)[i] == Full(r.entries[i]);
    }
    assert back == r.entries;
  }

  /** The lines of a live event get back the numbers they have in the log. */
  lemma EventsRoundTrip(log: Log, start: nat, end: nat)
    requires Numbered(log) && start <= end <= |log|
    ensures ToLines(Announce(log[start..end], start).raw, start) == log[start..end]
  {
    var lines := log[start..end];
    var back := ToLines(Mapped(lines, Bare), start);
    forall i | 0 <= i < end - start
      ensures back[i] == lines[i]
    {
      assert lines[i] == log[start + i];
    }
  }

  // ------------------------------------------------------------ holes in the tail

  // The tail is the stretch of the log that ends at the cursor.
  ghost predicate Contiguous(f: Feed, log: Log) {
    0 <= f.cursor <= |log| && |f.tail| <= f.cursor && f.tail == log[f.cursor - |f.tail|..f.cursor]
  }

  lemma {:induction false} UnseenOfSegment(log: Log, lo: nat, hi: nat, cursor: int)
    requires Numbered(log) && lo <= hi <= |log|
    ensures Unseen(log[lo..hi], cursor) == if Max(lo, cursor) < hi then log[Max(lo, cursor)..hi] else []
    decreases hi - lo
  {
    if lo < hi {
      assert log[lo..hi][1..] == log[lo + 1..hi];
      UnseenOfSegment(log, lo + 1, hi, cursor);
    }
  }

  lemma MergedSegment(f: Feed, log: Log, lo: nat, hi: nat)
    requires Numbered(log) && lo <= hi <= |log| && 0 <= f.cursor
    ensures MergeInto(f, log[lo..hi]).bootstrapped == f.bootstrapped
    ensures Max(lo, f.cursor) >= hi ==> MergeInto(f, log[lo..hi]) == f
    ensures Max(lo, f.cursor) < hi ==>
              && MergeInto(f, log[lo..hi]).tail == LastLines(f.tail + log[Max(lo, f.cursor)..hi])
              && MergeInto(f, log[lo..hi]).cursor == hi
  {
    UnseenOfSegment(log, lo, hi, f.cursor);
  }

  lemma StretchKept<T>(log: seq<T>, from: nat, mid: nat, to: nat)
    requires from <= mid <= to <= |log|
    ensures log[from..mid] + log[mid..to] == log[from..to]
    ensures LastLines(log[from..to]) == log[to - |LastLines(log[from..to])|..to]
  {
    var stretch := log[from..to];
    var d := |stretch| - |LastLines(stretch)|;
    assert stretch[d..] == log[from + d..to];
  }

  lemma JoinKeeps<T>(tail: seq<T>, log: seq<T>, cursor: nat, hi: nat)
    requires |tail| <= cursor <= hi <= |log| && tail == log[cursor - |tail|..cursor]
    ensures var kept := LastLines(tail + log[cursor..hi]);
            |kept| <= hi && kept == log[hi - |kept|..hi]
  {
    StretchKept(log, cursor - |tail|, cursor, hi);
  }

  // Joining a stretch that begins past the cursor to a tail that is not displaced leaves a hole.
  lemma JoinLeavesHole(tail: Log, log: Log, cursor: nat, lo: nat, hi: nat)
    requires Numbered(log) && 0 < cursor < lo < hi <= |log| && hi - lo < MAX_LINES
    requires tail != [] && tail[|tail| - 1] == log[cursor - 1]
    ensures var kept := LastLines(tail + log[lo..hi]);
            |kept| > hi ||  kept != log[hi - |kept|..hi]
  {
    var all := tail + log[lo..hi];
    var kept := LastLines(all);
    var k := |kept| - (hi - lo) - 1;
    assert kept[k] == all[|tail| - 1] == tail[|tail| - 1];
    if |kept| <= hi {
      assert log[hi - |kept|..hi][k] == log[lo - 1];
      assert log[lo - 1].at != log[cursor - 1].at;
    }
  }

  lemma MergeByCursor(f: Feed, log: Log, lo: nat, hi: nat)
    requires Numbered(log) && lo <= hi <= |log| && Contiguous(f, log) && (hi <= f.cursor || lo <= f.cursor || lo == hi)
    ensures Contiguous(MergeInto(f, log[lo..hi]), log) && f.cursor <= MergeInto(f, log[lo..hi]).cursor
  {
    MergedSegment(f, log, lo, hi);
    var g := MergeInto(f, log[lo..hi]);
    if Max(lo, f.cursor) < hi {
      JoinKeeps(f.tail, log, f.cursor, hi);
      assert g.tail == LastLines(f.tail + log[f.cursor..hi]) && g.cursor == hi;
    } else {
      assert g == f;
    }
  }

  lemma MergeIntoNothing(f: Feed, log: Log, lo: nat, hi: nat)
    requires Numbered(log) && 0 <= f.cursor < lo < hi <= |log| && f.tail == []
    ensures Contiguous(MergeInto(f, log[lo..hi]), log)
  {
    MergedSegment(f, log, lo, hi);
    assert f.tail + log[lo..hi] == log[lo..hi];
    StretchKept(log, lo, lo, hi);
  }

  lemma MergeBeyondCursor(f: Feed, log: Log, lo: nat, hi: nat)
    requires Numbered(log) && 0 < f.cursor < lo < hi <= |log| && hi - lo < MAX_LINES
    requires f.tail != [] && f.tail[|f.tail| - 1] == log[f.cursor - 1]
    ensures !Contiguous(MergeInto(f, log[lo..hi]), log)
  {
    MergedSegment(f, log, lo, hi);
    JoinLeavesHole(f.tail, log, f.cursor, lo, hi);
  }

  // Merging log[lo..hi] leaves a hole unless it starts by the cursor, or there is nothing to leave it in.
  lemma MergeContiguousIff(f: Feed, log: Log, lo: nat, hi: nat)
    requires Numbered(log) && lo <= hi <= |log| && hi - lo < MAX_LINES && Contiguous(f, log)
    ensures Contiguous(MergeInto(f, log[lo..hi]), log) <==> hi <= Max(lo, f.cursor) || lo <= f.cursor || f.tail == []
  {
    if f.cursor < lo < hi {
      if f.tail == [] {
        MergeIntoNothing(f, log, lo, hi);
      } else {
        assert f.tail[|f.tail| - 1] == log[f.cursor - 1];
        MergeBeyondCursor(f, log, lo, hi);
      }
    } else {
      MergeByCursor(f, log, lo, hi);
    }
  }

  /** Once bootstrapped, a live event of any stretch of the log never leaves a hole. */
  lemma LiveNeverLeavesHole(f: Feed, log: Log, start: nat, end: nat)
    requires Numbered(log) && start <= end <= |log| && f.bootstrapped && Contiguous(f, log)
    ensures Contiguous(Live(f, Announce(log[start..end], start)), log)
    ensures f.cursor <= Live(f, Announce(log[start..end], start)).cursor
  {
    EventsRoundTrip(log, start, end);
    if !Missed(f, start) {
      MergeByCursor(f, log, start, end);
    }
  }

  // One batch of live events, each a stretch of the log.
  function Announcements(log: Log, stretches: seq<(nat, nat)>): seq<LiveLines>
    requires forall i | 0 <= i < |stretches| :: stretches[i].0 <= stretches[i].1 <= |log|
  {
    seq(|stretches|, i requires 0 <= i < |stretches| => Announce(log[stretches[i].0..stretches[i].1], stretches[i].0))
  }

  // Either the event joins on and the cursor is past its end, or it begins past the cursor and is dropped.
  lemma LiveJoinsOrDrops(f: Feed, log: Log, start: nat, end: nat)
    requires Numbered(log) && start <= end <= |log| && f.bootstrapped && Contiguous(f, log)
    ensures var g := Live(f, Announce(log[start..end], start));
            if start > f.cursor then g == f else g.cursor == (if end > f.cursor then end else f.cursor)
  {
    EventsRoundTrip(log, start, end);
    if start <= f.cursor {
      MergedSegment(f, log, start, end);
    }
  }

  lemma FirstOfBatch(f: Feed, log: Log, stretches: seq<(nat, nat)>)
    requires Numbered(log) && f.bootstrapped && Contiguous(f, log) && stretches != []
    requires forall i | 0 <= i < |stretches| :: stretches[i].0 <= stretches[i].1 <= |log|
    ensures var events, g := Announcements(log, stretches), Live(f, Announce(log[stretches[0].0..stretches[0].1], stretches[0].0));
            && Contiguous(g, log) && g.bootstrapped && f.cursor <= g.cursor
            && LiveBatch(f, events) == LiveBatch(g, Announcements(log, stretches[1..]))
            && (AsksForPoll(f, events) <==>
                  stretches[0].0 > f.cursor || AsksForPoll(g, Announcements(log, stretches[1..])))
            && (stretches[0].0 <= f.cursor ==> stretches[0].1 <= g.cursor)
  {
    LiveJoinsOrDrops(f, log, stretches[0].0, stretches[0].1);
    LiveNeverLeavesHole(f, log, stretches[0].0, stretches[0].1);
    assert Announcements(log, stretches)[1..] == Announcements(log, stretches[1..]);
  }

  lemma {:induction false} BatchKeepsUp(f: Feed, log: Log, stretches: seq<(nat, nat)>)
    requires Numbered(log) && f.bootstrapped && Contiguous(f, log)
    requires forall i | 0 <= i < |stretches| :: stretches[i].0 <= stretches[i].1 <= |log|
    ensures var events := Announcements(log, stretches);
            && Contiguous(LiveBatch(f, events), log) && f.cursor <= LiveBatch(f, events).cursor
            && (!AsksForPoll(f, events) ==> forall i | 0 <= i < |stretches| :: stretches[i].1 <= LiveBatch(f, events).cursor)
    decreases |stretches|
  {
    if stretches != [] {
      var rest := stretches[1..];
      FirstOfBatch(f, log, stretches);
      BatchKeepsUp(Live(f, Announce(log[stretches[0].0..stretches[0].1], stretches[0].0)), log, rest);
      assert forall i | 0 < i < |stretches| :: stretches[i] == rest[i - 1];
    }
  }

  /**
   * A bootstrapped, contiguous feed asks for a poll after a batch of live events exactly when one of
   * them was dropped because it begins past the cursor reached by then. When it does not ask,
   * its cursor is past the end of every event; in either case it has no hole.
   */
  lemma BatchKeepsUpOrAsks(f: Feed, log: Log, stretches: seq<(nat, nat)>)
    requires Numbered(log) && f.bootstrapped && Contiguous(f, log)
    requires forall i | 0 <= i < |stretches| :: stretches[i].0 <= stretches[i].1 <= |log|
    ensures var events := Announcements(log, stretches);
            && Contiguous(LiveBatch(f, events), log) && f.cursor <= LiveBatch(f, events).cursor
            && (AsksForPoll(f, events) <==> exists i | 0 <= i < |stretches| :: stretches[i].0 > LiveBatch(f, events[..i]).cursor)
            && (!AsksForPoll(f, events) ==> forall i | 0 <= i < |stretches| :: stretches[i].1 <= LiveBatch(f, events).cursor)
  {
    var events := Announcements(log, stretches);
    BatchKeepsUp(f, log, stretches);
    AsksIff(f, events);
    assert forall i | 0 <= i < |stretches| :: BeginsPast(f, events, i) <==> stretches[i].0 > LiveBatch(f, events[..i]).cursor;
  }

  function AsHistory(r: Reply): History {
    History(r.entries, r.nextCursor, r.gap)
  }

  // Where the lines of a reply that has some begin.
  function StartOf(poll: Poll, sent: nat): int {
    Max(sent, poll.first)
  }

  /**
   * A reply, however late, leaves a hole exactly when it brings new lines that begin past
   * the cursor it meets: past evicted lines, or past lines dropped by an overlapping poll.
   */
  lemma PollLeavesHoleIff(f: Feed, log: Log, poll: Poll, sent: nat)
    requires Numbered(log) && poll.first <= poll.length <= |log| && sent <= poll.length && Contiguous(f, log)
    ensures var r := ReplyTo(log, poll, sent);
            !Contiguous(PollReply(f, AsHistory(r)), log)
            <==> r.nextCursor > f.cursor && StartOf(poll, sent) > f.cursor && f.tail != []
                 && r.nextCursor > StartOf(poll, sent)
  {
    var r := ReplyTo(log, poll, sent);
    ReplySpan(log, poll, sent);
    var lo := StartOf(poll, sent);
    if r.nextCursor == sent {
      assert r.entries == log[sent..sent];
      if r.nextCursor >= f.cursor {
        MergedSegment(f, log, sent, sent);
      }
    } else {
      assert r.entries == log[lo..r.nextCursor];
      if r.nextCursor >= f.cursor {
        MergeContiguousIff(f, log, lo, r.nextCursor);
      }
    }
  }

  lemma SegmentEndsBefore(log: Log, lo: nat, hi: nat, e: LogEntry)
    requires Numbered(log) && lo <= hi <= |log| && e.at >= hi
    ensures e !in log[lo..hi]
  {}

  lemma NewestStays(tail: Log, more: Log)
    requires tail != [] && |more| < MAX_LINES
    ensures tail[|tail| - 1] in LastLines(tail + more)
  {
    var all := tail + more;
    var kept := LastLines(all);
    assert kept[|kept| - |more| - 1] == all[|tail| - 1];
  }

  lemma MergeKeepsNewest(f: Feed, log: Log, lo: nat, hi: nat)
    requires Numbered(log) && lo <= hi <= |log| && hi - lo < MAX_LINES && 0 <= f.cursor <= hi && f.tail != []
    ensures f.tail[|f.tail| - 1] in MergeInto(f, log[lo..hi]).tail && f.cursor <= MergeInto(f, log[lo..hi]).cursor
  {
    MergedSegment(f, log, lo, hi);
    var m := Max(lo, f.cursor);
    if m < hi {
      NewestStays(f.tail, log[m..hi]);
    }
  }

  /**
   * A reply to this very feed is mistaken for a restarted one exactly when live lines moved
   * the cursor past its end: then the newest visible line disappears and the cursor goes back.
   */
  lemma StaleReplyDropsNewestIff(f: Feed, log: Log, poll: Poll, sent: nat)
    requires Numbered(log) && poll.first <= poll.length <= |log| && sent <= poll.length && Contiguous(f, log) && f.tail != []
    ensures var r := ReplyTo(log, poll, sent);
            && (PollReply(f, AsHistory(r)).cursor < f.cursor <==> r.nextCursor < f.cursor)
            && (f.tail[|f.tail| - 1] !in PollReply(f, AsHistory(r)).tail <==> r.nextCursor < f.cursor)
  {
    var r := ReplyTo(log, poll, sent);
    ReplySpan(log, poll, sent);
    var lo := if r.nextCursor == sent then sent else StartOf(poll, sent);
    assert r.entries == log[lo..r.nextCursor];
    assert f.tail[|f.tail| - 1] == log[f.cursor - 1];
    if r.nextCursor < f.cursor {
      SegmentEndsBefore(log, lo, r.nextCursor, log[f.cursor - 1]);
    } else {
      MergeKeepsNewest(f, log, lo, r.nextCursor);
    }
  }

  /**
   * Two overlapping polls and live lines in between lose five lines for good although no
   * reply flags a gap: the first reply sets the cursor back, the second begins past it.
   */
  lemma OverlappingPollsLoseLines(log: Log)
    requires Numbered(log) && |log| >= 25
    ensures var f0 := Feed(log[..10], 10, true);
            var asked, askedAgain := ReplyTo(log, Poll(15, 0), 10), ReplyTo(log, Poll(25, 0), 20);
            var f1 := Live(f0, Announce(log[10..20], 10));
            var f2 := PollReply(f1, AsHistory(asked));
            var f3 := PollReply(f2, AsHistory(askedAgain));
            && f1 == Feed(log[..20], 20, true)
            && !asked.gap && !askedAgain.gap
            && f2 == Feed(log[10..15], 15, true)
            && f3 == Feed(log[10..15] + log[20..25], 25, true)
  {
    var f0 := Feed(log[..10], 10, true);
    EventsRoundTrip(log, 10, 20);
    MergedSegment(f0, log, 10, 20);
    assert log[..10] + log[10..20] == log[..20];
    ReplySpan(log, Poll(15, 0), 10);
    ReplySpan(log, Poll(25, 0), 20);
    MergedSegment(Feed(log[10..15], 15, true), log, 20, 25);
  }

  // ------------------------------------------------------- the tail is the log

  // The tail is what the log shows of its lines from b up to the cursor.
  ghost predicate Mirrors(f: Feed, log: Log, b: nat) {
    b <= f.cursor <= |log| && f.tail == LastLines(log[b..f.cursor])
  }

  datatype Arrival =
    | Answer(poll: Poll, sent: nat)
    | Lines(start: nat, end: nat)

  predicate Possible(log: Log, a: Arrival) {
    match a
    case Answer(poll, sent) => poll.first <= poll.length <= |log| && sent <= poll.length
    case Lines(start, end) => start <= end <= |log|
  }

  function Receive(f: Feed, log: Log, a: Arrival): Feed
    requires Possible(log, a)
  {
    match a
    case Answer(poll, sent) => PollReply(f, AsHistory(ReplyTo(log, poll, sent)))
    case Lines(start, end) => Live(f, Announce(log[start..end], start))
  }

  // Replies are not stale and begin by the cursor they meet; live lines may be anything.
  predicate Timely(f: Feed, log: Log, a: Arrival)
    requires Possible(log, a)
  {
    a.Answer? ==> ReplyTo(log, a.poll, a.sent).nextCursor >= f.cursor && StartOf(a.poll, a.sent) <= f.cursor
  }

  lemma LastLinesOfSum<T>(s: seq<T>, t: seq<T>)
    ensures LastLines(LastLines(s) + t) == LastLines(s + t)
  {
    var kept, all := LastLines(s), s + t;
    var d := |s| - |kept|;
    var rest := kept + t;
    assert rest == all[d..];
    var e := |rest| - |LastLines(rest)|;
    assert rest[e..] == all[d + e..];
  }

  lemma LastLinesExtended<T>(log: seq<T>, b: nat, c: nat, d: nat)
    requires b <= c <= d <= |log|
    ensures LastLines(LastLines(log[b..c]) + log[c..d]) == LastLines(log[b..d])
  {
    var before, added := log[b..c], log[c..d];
    LastLinesOfSum(before, added);
    assert before + added == log[b..d];
  }

  lemma MergeMirrors(f: Feed, log: Log, b: nat, lo: nat, hi: nat)
    requires Numbered(log) && lo <= hi <= |log| && lo <= f.cursor && Mirrors(f, log, b)
    ensures Mirrors(MergeInto(f, log[lo..hi]), log, b) && f.cursor <= MergeInto(f, log[lo..hi]).cursor
  {
    var g := MergeInto(f, log[lo..hi]);
    MergedSegment(f, log, lo, hi);
    if f.cursor < hi {
      var c := f.cursor;
      assert g.cursor == hi && g.tail == LastLines(f.tail + log[c..hi]);
      LastLinesExtended(log, b, c, hi);
    } else {
      assert g == f;
    }
  }

  lemma ReceiveMirrors(f: Feed, log: Log, b: nat, a: Arrival)
    requires Numbered(log) && Possible(log, a) && Timely(f, log, a) && f.bootstrapped && Mirrors(f, log, b)
    ensures Mirrors(Receive(f, log, a), log, b) && f.cursor <= Receive(f, log, a).cursor && Receive(f, log, a).bootstrapped
  {
    match a
    case Answer(poll, sent) =>
      var r := ReplyTo(log, poll, sent);
      ReplySpan(log, poll, sent);
      var lo := if r.nextCursor == sent then sent else StartOf(poll, sent);
      assert r.entries == log[lo..r.nextCursor];
      MergeMirrors(f, log, b, lo, r.nextCursor);
    case Lines(start, end) =>
      EventsRoundTrip(log, start, end);
      if !Missed(f, start) {
        MergeMirrors(f, log, b, start, end);
      }
  }

  function ReceiveAll(f: Feed, log: Log, arrivals: seq<Arrival>): Feed
    requires forall a | a in arrivals :: Possible(log, a)
  {
    if arrivals == [] then f
    else Receive(ReceiveAll(f, log, arrivals[..|arrivals| - 1]), log, arrivals[|arrivals| - 1])
  }

  ghost predicate AllTimely(f: Feed, log: Log, arrivals: seq<Arrival>)
    requires forall a | a in arrivals :: Possible(log, a)
  {
    arrivals != [] ==>
      && AllTimely(f, log, arrivals[..|arrivals| - 1])
      && Timely(ReceiveAll(f, log, arrivals[..|arrivals| - 1]), log, arrivals[|arrivals| - 1])
  }

  // A new feed that adopted the last `kept` lines of a log of that length.
  function Opened(log: Log, length: nat, kept: nat): Feed
    requires kept <= length <= |log|
  {
    Bootstrap(NEW_FEED, History(log[length - kept..length], length, false))
  }

  /** A feed that starts from the retained tail shows it. */
  lemma OpenedMirrors(log: Log, length: nat, kept: nat)
    requires Numbered(log) && kept <= length <= |log| && kept <= MAX_LINES
    ensures Mirrors(Opened(log, length, kept), log, length - kept)
    ensures Opened(log, length, kept).cursor == length && Opened(log, length, kept).bootstrapped
  {
    assert Union(log[length - kept..length], []) == log[length - kept..length];
  }

  /**
   * End to end: a feed bootstrapped from the retained tail (see OpenedMirrors) shows, after any
   * timely replies and any live events, lost, repeated or reordered, exactly the last 2000 lines
   * of the log from where it began up to its cursor, and the cursor never goes back.
   */
  lemma {:induction false} TailMirrorsLog(f: Feed, log: Log, b: nat, arrivals: seq<Arrival>)
    requires Numbered(log) && f.bootstrapped && Mirrors(f, log, b)
    requires forall a | a in arrivals :: Possible(log, a)
    requires AllTimely(f, log, arrivals)
    ensures Mirrors(ReceiveAll(f, log, arrivals), log, b)
    ensures ReceiveAll(f, log, arrivals).cursor >= f.cursor && ReceiveAll(f, log, arrivals).bootstrapped
  {
    if arrivals != [] {
      var before := arrivals[..|arrivals| - 1];
      TailMirrorsLog(f, log, b, before);
      ReceiveMirrors(ReceiveAll(f, log, before), log, b, arrivals[|arrivals| - 1]);
    }
  }
}
