/**
 * The steps of the log hook over its tail, cursor and bootstrapped flag, and how the
 * visible tail relates to the log behind it, whatever the order in which replies to
 * overlapping polls and live events arrive.
 */
module VisibleFeed {
  import opened Common
  import opened LogRing
  import opened LogFeed

  datatype Feed = Feed(tail: Log, cursor: int, bootstrapped: bool)

  const NEW_FEED := Feed([], 0, false)

  // A log.lines or benchmark.log event of this feed; its start may be missing or not a number.
  datatype LiveLines = LiveLines(start: Option<int>, raw: seq<RawEntry>)

  function AfterLast(lines: Log): int {
    if lines == [] then 0 else lines[|lines| - 1].at + 1
  }

  // The first reply: adopt the retained tail, joined with what arrived meanwhile.
  function Bootstrap(f: Feed, h: History): Feed {
    var combined := LastLines(Union(h.lines, f.tail));
    Feed(combined, Max(h.nextCursor, AfterLast(combined)), true)
  }

  function MergeInto(f: Feed, lines: Log): Feed {
    var merged := Merge(f.tail, f.cursor, lines);
    f.(tail := merged.0, cursor := merged.1)
  }

  // A later reply; one that ends before the cursor is taken for a new feed.
  function PollReply(f: Feed, h: History): Feed {
    if h.nextCursor < f.cursor then f.(tail := h.lines, cursor := h.nextCursor)
    else MergeInto(f, h.lines)
  }

  predicate Missed(f: Feed, start: int) {
    f.bootstrapped && start > f.cursor
  }

  function Live(f: Feed, e: LiveLines): Feed {
    if e.start.None? || Missed(f, e.start.value) then f
    else MergeInto(f, ToLines(e.raw, e.start.value))
  }

  function LiveBatch(f: Feed, events: seq<LiveLines>): Feed
    decreases |events|
  {
    if events == [] then f else LiveBatch(Live(f, events[0]), events[1..])
  }

  // Whether a batch asks for a poll: some event started past the cursor it found.
  predicate AsksForPoll(f: Feed, events: seq<LiveLines>)
    decreases |events|
  {
    events != []
    && ((events[0].start.Some? && Missed(f, events[0].start.value)) || AsksForPoll(Live(f, events[0]), events[1..]))
  }

  // An event that begins past the cursor reached by then, once the feed is bootstrapped.
  ghost predicate BeginsPast(f: Feed, events: seq<LiveLines>, i: nat)
    requires i < |events|
  {
    events[i].start.Some? && f.bootstrapped && events[i].start.value > LiveBatch(f, events[..i]).cursor
  }

  lemma {:induction false} AsksIff(f: Feed, events: seq<LiveLines>)
    ensures AsksForPoll(f, events) <==> exists i | 0 <= i < |events| :: BeginsPast(f, events, i)
    ensures LiveBatch(f, events).bootstrapped == f.bootstrapped
    decreases |events|
  {
    if events != [] {
      var g, rest := Live(f, events[0]), events[1..];
      AsksIff(g, rest);
      assert LiveBatch(f, events[..0]) == f;
      forall i | 0 <= i < |rest|
        ensures BeginsPast(f, events, i + 1) <==> BeginsPast(g, rest, i)
      {
        assert events[..i + 1][1..] == rest[..i];
      }
      assert BeginsPast(f, events, 0) <==> events[0].start.Some? && Missed(f, events[0].start.value);
      if i :| 0 <= i < |events| && BeginsPast(f, events, i) {
        assert i > 0 ==> BeginsPast(g, rest, i - 1);
      }
      if i :| 0 <= i < |rest| && BeginsPast(g, rest, i) {
        assert BeginsPast(f, events, i + 1);
      }
    }
  }

  // The hook's refs, updated in place.
  class LogFeedRefs {
    var tail: Log
    var cursor: int
    var bootstrapped: bool

    ghost function State(): Feed
      reads this
    {
      Feed(tail, cursor, bootstrapped)
    }

    constructor ()
      ensures State() == NEW_FEED
    {
      tail, cursor, bootstrapped := [], 0, false;
    }

    // refetch once its fetch returned; `first` is the flag as it was before the fetch.
    method Refetched(data: Payload, first: bool)
      modifies this
      ensures State() == if first then Bootstrap(old(State()), ParseHistory(data)) else PollReply(old(State()), ParseHistory(data))
      ensures bootstrapped <==> old(bootstrapped) || first
      ensures first ==> tail == LastLines(Union(ParseHistory(data).lines, old(tail)))
      ensures first && tail != [] ==> cursor == Max(ParseHistory(data).nextCursor, tail[|tail| - 1].at + 1)
      ensures first && tail == [] ==> cursor == Max(ParseHistory(data).nextCursor, 0)
      ensures !first && ParseHistory(data).nextCursor < old(cursor) ==>
                tail == ParseHistory(data).lines && cursor == ParseHistory(data).nextCursor
      ensures !first && ParseHistory(data).nextCursor >= old(cursor) ==>
                (tail, cursor) == Merge(old(tail), old(cursor), ParseHistory(data).lines)
    {
      var history := ParseHistory(data);
      if first {
        var combined := UnionLines(history.lines, tail);
        var lastSeq := if |combined| > 0 then combined[|combined| - 1].at + 1 else 0;
        tail := combined;
        cursor := Max(history.nextCursor, lastSeq);
        bootstrapped := true;
        return;
      }
      if history.nextCursor < cursor {
        tail := history.lines;
        cursor := history.nextCursor;
        return;
      }
      tail, cursor := Merge(tail, cursor, history.lines).0, Merge(tail, cursor, history.lines).1;
    }

    method OnEvents(events: seq<LiveLines>) returns (poll: bool)
      modifies this
      ensures State() == LiveBatch(old(State()), events)
      ensures poll == AsksForPoll(old(State()), events)
      ensures poll <==> exists i | 0 <= i < |events| :: BeginsPast(old(State()), events, i)
    {
      AsksIff(State(), events);
      poll := false;
      for i := 0 to |events|
        invariant LiveBatch(State(), events[i..]) == LiveBatch(old(State()), events)
        invariant poll || AsksForPoll(State(), events[i..]) <==> AsksForPoll(old(State()), events)
      {
        assert events[i..][1..] == events[i + 1..];
        var e := events[i];
        if e.start.None? {
          continue;
        }
        if bootstrapped && e.start.value > cursor {
          poll := true;
          continue;
        }
        var lines := ToLines(e.raw, e.start.value);
        tail, cursor := Merge(tail, cursor, lines).0, Merge(tail, cursor, lines).1;
      }
    }
  }

  // -------------------------------------------------- never twice, never out of order

  // What is shown: ascending, every line below the cursor.
  ghost predicate Orderly(f: Feed) {
    Ascending(f.tail) && forall e | e in f.tail :: e.at < f.cursor
  }

  // What agents send: ascending lines, the next cursor past them.
  ghost predicate WellSequenced(h: History) {
    Ascending(h.lines) && forall e | e in h.lines :: e.at < h.nextCursor
  }

  lemma {:induction false} UnseenHas(lines: Log, cursor: int, e: LogEntry)
    ensures e in Unseen(lines, cursor) <==> e in lines && e.at >= cursor
  {
    if lines != [] {
      UnseenHas(lines[1..], cursor, e);
      assert e in lines <==> e == lines[0] || e in lines[1..];
    }
  }

  lemma HeadIsLeast(lines: Log, e: LogEntry)
    requires Ascending(lines) && lines != [] && e in lines[1..]
    ensures lines[0].at < e.at
  {
    var i :| 0 <= i < |lines| - 1 && lines[1..][i] == e;
    assert lines[i + 1] == e;
  }

  lemma {:induction false} UnseenKeepsOrder(lines: Log, cursor: int)
    requires Ascending(lines)
    ensures Ascending(Unseen(lines, cursor))
    ensures forall e | e in Unseen(lines, cursor) :: e.at >= cursor
  {
    if lines != [] {
      var later := lines[1..];
      var rest := Unseen(later, cursor);
      UnseenKeepsOrder(later, cursor);
      forall k | 0 <= k < |rest|
        ensures rest[k].at > lines[0].at
      {
        UnseenHas(later, cursor, rest[k]);
        HeadIsLeast(lines, rest[k]);
      }
    }
  }

  lemma JoinAscends(a: Log, b: Log, c: int)
    requires Ascending(a) && Ascending(b)
    requires (forall e | e in a :: e.at < c) && (forall e | e in b :: e.at >= c)
    ensures Ascending(a + b)
  {
    forall i, j | 0 <= i < j < |a + b|
      ensures (a + b)[i].at < (a + b)[j].at
    {
      if i < |a| <= j {
        assert a[i] in a && b[j - |a|] in b;
      }
    }
  }

  lemma LastLinesAscend(lines: Log)
    requires Ascending(lines)
    ensures Ascending(LastLines(lines))
    ensures forall e | e in LastLines(lines) :: e in lines && e.at < AfterLast(lines) && e.at < AfterLast(LastLines(lines))
  {
    var kept := LastLines(lines);
    var d := |lines| - |kept|;
    forall e | e in kept
      ensures e in lines && e.at < AfterLast(lines) && e.at < AfterLast(kept)
    {
      var i :| 0 <= i < |kept| && kept[i] == e;
      assert e == lines[d + i];
      assert i < |kept| - 1 ==> kept[i].at < kept[|kept| - 1].at;
      assert d + i < |lines| - 1 ==> lines[d + i].at < lines[|lines| - 1].at;
    }
  }

  lemma JoinIsOrderly(tail: Log, unseen: Log, cursor: int)
    requires Ascending(tail) && Ascending(unseen) && unseen != []
    requires (forall e | e in tail :: e.at < cursor) && (forall e | e in unseen :: e.at >= cursor)
    ensures var kept := LastLines(tail + unseen);
            Ascending(kept) && forall e | e in kept :: e.at < AfterLast(unseen)
  {
    var all := tail + unseen;
    JoinAscends(tail, unseen, cursor);
    LastLinesAscend(all);
    assert all[|all| - 1] == unseen[|unseen| - 1];
  }

  lemma MergeIsOrderly(f: Feed, lines: Log)
    requires Orderly(f) && Ascending(lines)
    ensures Orderly(MergeInto(f, lines))
  {
    UnseenKeepsOrder(lines, f.cursor);
    var unseen := Unseen(lines, f.cursor);
    if unseen != [] {
      JoinIsOrderly(f.tail, unseen, f.cursor);
    }
  }

  lemma BootstrapIsOrderly(f: Feed, h: History)
    requires Orderly(f) && WellSequenced(h)
    ensures Orderly(Bootstrap(f, h))
  {
    UnionAscends(h.lines, f.tail);
    LastLinesAscend(Union(h.lines, f.tail));
  }

  lemma {:induction false} BatchIsOrderly(f: Feed, events: seq<LiveLines>)
    requires Orderly(f)
    requires forall e | e in events && e.start.Some? :: Ascending(ToLines(e.raw, e.start.value))
    ensures Orderly(LiveBatch(f, events))
    decreases |events|
  {
    if events != [] {
      var e := events[0];
      if e.start.Some? {
        MergeIsOrderly(f, ToLines(e.raw, e.start.value));
      }
      BatchIsOrderly(Live(f, e), events[1..]);
    }
  }

  datatype Step =
    | NewFeed
    | FirstReply(h: History)
    | Reply(h: History)
    | Events(batch: seq<LiveLines>)

  function Apply(f: Feed, step: Step): Feed {
    match step
    case NewFeed => NEW_FEED
    case FirstReply(h) => Bootstrap(f, h)
    case Reply(h) => PollReply(f, h)
    case Events(batch) => LiveBatch(f, batch)
  }

  ghost predicate Sound(step: Step) {
    match step
    case NewFeed => true
    case FirstReply(h) => WellSequenced(h)
    case Reply(h) => WellSequenced(h)
    case Events(batch) => forall e | e in batch && e.start.Some? :: Ascending(ToLines(e.raw, e.start.value))
  }

  function Shown(steps: seq<Step>): Feed {
    if steps == [] then NEW_FEED else Apply(Shown(steps[..|steps| - 1]), steps[|steps| - 1])
  }

  /**
   * For any interleaving of bootstraps, poll replies, live batches and feed resets, the
   * tail is strictly ascending and below the cursor: no line shows twice or out of order.
   */
  lemma {:induction false} AlwaysOrderly(steps: seq<Step>)
    requires forall s | s in steps :: Sound(s)
    ensures Orderly(Shown(steps))
  {
    if steps != [] {
      var before, last := steps[..|steps| - 1], steps[|steps| - 1];
      AlwaysOrderly(before);
      assert last in steps;
      match last
      case NewFeed =>
      case FirstReply(h) => BootstrapIsOrderly(Shown(before), h);
      case Reply(h) => MergeIsOrderly(Shown(before), h.lines);
      case Events(batch) => BatchIsOrderly(Shown(before), batch);
    }
  }
}
