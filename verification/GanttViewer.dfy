/** processTrace of tools/gantt_viewer.html: begin and end events are paired into duration bars. */
module GanttViewer {
  import opened Basics
  import opened Trace

  datatype ViewerEvent = ViewerEvent(tid: int, ph: Mark, ts: int, name: EventType, core: int)

  /** The bar's duration is endTime - startTime. endType is None for an instant event, whose bar has no extent. */
  datatype Span = Span(tid: int, startTime: int, endTime: int, name: EventType, endType: Option<EventType>, core: int)

  datatype OpenSpan = OpenSpan(startTime: int, name: EventType, core: int)

  /** openSpans and threadSpans after some events. */
  datatype Pairing = Pairing(open: map<int, OpenSpan>, spans: seq<Span>)

  function PairOne(p: Pairing, ev: ViewerEvent): Pairing {
    match ev.ph
    case Begin => p.(open := p.open[ev.tid := OpenSpan(ev.ts, ev.name, ev.core)])
    case End =>
      if ev.tid in p.open then
        var o := p.open[ev.tid];
        Pairing(p.open - {ev.tid}, p.spans + [Span(ev.tid, o.startTime, ev.ts, o.name, Some(ev.name), o.core)])
      else p
    case Instant => p.(spans := p.spans + [Span(ev.tid, ev.ts, ev.ts, ev.name, None, ev.core)])
  }

  function Pair(events: seq<ViewerEvent>): Pairing {
    if events == [] then Pairing(map[], []) else PairOne(Pair(events[..|events| - 1]), events[|events| - 1])
  }

  ghost predicate Sorted(events: seq<ViewerEvent>) {
    forall i, j | 0 <= i < j < |events| :: events[i].ts <= events[j].ts
  }

  /** x goes before the first event that is not earlier: inserting from the back keeps ties in order. */
  function Insert(x: ViewerEvent, events: seq<ViewerEvent>): seq<ViewerEvent> {
    if events == [] || x.ts <= events[0].ts then [x] + events else [events[0]] + Insert(x, events[1..])
  }

  /** events.sort by timestamp, which is stable. */
  function StableSort(events: seq<ViewerEvent>): seq<ViewerEvent> {
    if events == [] then [] else Insert(events[0], StableSort(events[1..]))
  }

  /** A recording with non-decreasing timestamps is displayed in recording order. */
  lemma {:induction false} SortedStays(events: seq<ViewerEvent>)
    requires Sorted(events)
    ensures StableSort(events) == events
  {
    if events != [] {
      SortedStays(events[1..]);
      assert events == [events[0]] + events[1..];
    }
  }

  /** The events with timestamp ts, in order. */
  function AtTime(events: seq<ViewerEvent>, ts: int): seq<ViewerEvent> {
    if events == [] then []
    else if events[0].ts == ts then [events[0]] + AtTime(events[1..], ts) else AtTime(events[1..], ts)
  }

  lemma {:induction false} InsertSorts(x: ViewerEvent, events: seq<ViewerEvent>, ts: int)
    requires Sorted(events)
    ensures Sorted(Insert(x, events))
    ensures forall e :: e in Insert(x, events) <==> e == x || e in events
    ensures AtTime(Insert(x, events), ts) == AtTime([x] + events, ts)
  {
    assert ([x] + events)[1..] == events;
    if events != [] && x.ts > events[0].ts {
      var rest := Insert(x, events[1..]);
      InsertSorts(x, events[1..], ts);
      assert ([x] + events[1..])[1..] == events[1..];
      assert ([events[0]] + rest)[1..] == rest;
    }
  }

  /** Sorting orders the events by time, and those of one timestamp are the same events in the same order. */
  lemma {:induction false} SortSorts(events: seq<ViewerEvent>, ts: int)
    ensures Sorted(StableSort(events))
    ensures AtTime(StableSort(events), ts) == AtTime(events, ts)
  {
    if events != [] {
      SortSorts(events[1..], ts);
      InsertSorts(events[0], StableSort(events[1..]), ts);
      assert ([events[0]] + StableSort(events[1..]))[1..] == StableSort(events[1..]);
    }
  }

  /** The duration bars, without the instant markers. */
  function Bars(spans: seq<Span>): seq<Span> {
    if spans == [] then []
    else
      var r := Bars(spans[..|spans| - 1]);
      if spans[|spans| - 1].endType.Some? then r + [spans[|spans| - 1]] else r
  }

  lemma BarsSnoc(spans: seq<Span>, x: Span)
    ensures Bars(spans + [x]) == if x.endType.Some? then Bars(spans) + [x] else Bars(spans)
  {
    assert (spans + [x])[..|spans|] == spans;
  }

  lemma PairSnoc(events: seq<ViewerEvent>, x: ViewerEvent)
    ensures Pair(events + [x]) == PairOne(Pair(events), x)
  {
    assert (events + [x])[..|events|] == events;
  }

  // ----- what pairing means -----

  /** i is the last begin or end event of thread t among the first n events. */
  ghost predicate LastMark(events: seq<ViewerEvent>, n: nat, t: int, i: int) {
    && 0 <= i < n <= |events| && events[i].tid == t && events[i].ph != Instant
    && forall j | i < j < n :: events[j].tid == t ==> events[j].ph == Instant
  }

  /** A span is open for t exactly if t's latest begin or end event is a begin, and starts there. */
  lemma {:induction false} OpenMeans(events: seq<ViewerEvent>, n: nat, t: int)
    requires n <= |events|
    ensures t in Pair(events[..n]).open <==> exists i :: LastMark(events, n, t, i) && events[i].ph == Begin
    ensures forall i :: LastMark(events, n, t, i) && events[i].ph == Begin ==>
      t in Pair(events[..n]).open
      && Pair(events[..n]).open[t] == OpenSpan(events[i].ts, events[i].name, events[i].core)
  {
    if n > 0 {
      var ev := events[n - 1];
      OpenMeans(events, n - 1, t);
      assert events[..n][..n - 1] == events[..n - 1];
      if ev.tid == t && ev.ph != Instant {
        assert LastMark(events, n, t, n - 1);
      } else {
        forall i ensures LastMark(events, n, t, i) <==> LastMark(events, n - 1, t, i) {
          if LastMark(events, n - 1, t, i) {
            forall j | i < j < n && events[j].tid == t ensures events[j].ph == Instant {
              if j < n - 1 { assert events[j].ph == Instant; }
            }
          }
        }
      }
    }
  }

  /** processTrace pairs correctly for any recording. An end event adds a bar exactly if the thread's previous
      begin or end event is a begin, from there to here; an instant event adds a marker; and nothing else adds
      anything at all. */
  lemma BarsMean(events: seq<ViewerEvent>, n: nat)
    requires n < |events|
    ensures var (before, after, ev) := (Pair(events[..n]).spans, Pair(events[..n + 1]).spans, events[n]);
      && (forall i :: LastMark(events, n, ev.tid, i) && events[i].ph == Begin && ev.ph == End ==>
            after == before + [Span(ev.tid, events[i].ts, ev.ts, events[i].name, Some(ev.name), events[i].core)])
      && (ev.ph == End && !(exists i :: LastMark(events, n, ev.tid, i) && events[i].ph == Begin) ==> after == before)
      && (ev.ph == Begin ==> after == before)
      && (ev.ph == Instant ==> after == before + [Span(ev.tid, ev.ts, ev.ts, ev.name, None, ev.core)])
  {
    OpenMeans(events, n, events[n].tid);
    assert events[..n + 1] == events[..n] + [events[n]];
    PairSnoc(events[..n], events[n]);
  }

  /** The instant markers, without the duration bars. */
  function Markers(spans: seq<Span>): seq<Span> {
    if spans == [] then []
    else
      var r := Markers(spans[..|spans| - 1]);
      if spans[|spans| - 1].endType.None? then r + [spans[|spans| - 1]] else r
  }

  /** A marker for each instant event. */
  function Instants(events: seq<ViewerEvent>): seq<Span> {
    if events == [] then []
    else
      var (n, r) := (|events| - 1, Instants(events[..|events| - 1]));
      var ev := events[n];
      if ev.ph == Instant then r + [Span(ev.tid, ev.ts, ev.ts, ev.name, None, ev.core)] else r
  }

  /** Over a whole recording the markers are exactly the instant events, in order. */
  lemma {:induction false} MarkersAre(events: seq<ViewerEvent>)
    ensures Markers(Pair(events).spans) == Instants(events)
  {
    if events != [] {
      var n := |events| - 1;
      MarkersAre(events[..n]);
      var (p, q) := (Pair(events[..n]).spans, Pair(events).spans);
      assert q != p ==> q[..|q| - 1] == p;
    }
  }

  /** The bar that the n-th event closes, if it closes one. */
  ghost predicate Closes(events: seq<ViewerEvent>, n: nat, bar: Span) {
    && n < |events| && events[n].ph == End
    && exists i :: LastMark(events, n, events[n].tid, i) && events[i].ph == Begin
         && bar == Span(events[n].tid, events[i].ts, events[n].ts, events[i].name, Some(events[n].name), events[i].core)
  }

  lemma BarStep(events: seq<ViewerEvent>, n: nat)
    requires n < |events|
    ensures var (before, after) := (Bars(Pair(events[..n]).spans), Bars(Pair(events[..n + 1]).spans));
      || (exists bar :: Closes(events, n, bar) && after == before + [bar])
      || ((forall bar :: !Closes(events, n, bar)) && after == before)
  {
    BarsMean(events, n);
    var p := Pair(events[..n]).spans;
    forall x: Span ensures Bars(p + [x]) == if x.endType.Some? then Bars(p) + [x] else Bars(p) { BarsSnoc(p, x); }
    hide Bars, Pair, LastMark;
    if i :| LastMark(events, n, events[n].tid, i) && events[i].ph == Begin && events[n].ph == End {
      var bar := Span(events[n].tid, events[i].ts, events[n].ts, events[i].name, Some(events[n].name), events[i].core);
      assert Closes(events, n, bar);
    }
  }

  /** An end event closes no more than one bar. */
  lemma ClosesOne(events: seq<ViewerEvent>, n: nat, bar: Span, other: Span)
    requires Closes(events, n, bar) && Closes(events, n, other)
    ensures bar == other
  {
    OpenMeans(events, n, events[n].tid);
  }

  /** Over a whole recording the bars are exactly those that end events close, in the order of these. */
  lemma {:induction false} BarsAre(events: seq<ViewerEvent>, n: nat) returns (ends: seq<nat>)
    requires n <= |events|
    ensures var bars := Bars(Pair(events[..n]).spans);
      && |ends| == |bars| && (forall j | 0 <= j < |ends| :: ends[j] < n && Closes(events, ends[j], bars[j]))
      && (forall i, j | 0 <= i < j < |ends| :: ends[i] < ends[j])
      && (forall m: nat, bar | m < n && Closes(events, m, bar) :: m in ends)
  {
    if n == 0 {
      ends := [];
    } else {
      var rest := BarsAre(events, n - 1);
      hide Bars, Pair, Closes;
      BarStep(events, n - 1);
      var last := n - 1;
      if bar :| Closes(events, last, bar) {
        ends := rest + [n - 1];
        forall m: nat, x | m < n && Closes(events, m, x) ensures m in ends {
          if m < n - 1 { assert m in rest; } else { assert ends[|rest|] == m; }
        }
      } else {
        ends := rest;
      }
    }
  }

  /** processTrace. The alert for an empty recording is the empty result. */
  method ProcessTrace(events: seq<ViewerEvent>) returns (threadSpans: seq<Span>)
    ensures threadSpans == Pair(StableSort(events)).spans
    ensures Markers(threadSpans) == Instants(StableSort(events))
  {
    MarkersAre(StableSort(events));
    threadSpans := [];
    if |events| == 0 { return; }
    var sorted := StableSort(events);
    var openSpans: map<int, OpenSpan> := map[];
    for i := 0 to |sorted|
      invariant Pair(sorted[..i]) == Pairing(openSpans, threadSpans)
    {
      var ev := sorted[i];
      assert sorted[..i + 1] == sorted[..i] + [ev];
      PairSnoc(sorted[..i], ev);
      if ev.ph == Begin {
        openSpans := openSpans[ev.tid := OpenSpan(ev.ts, ev.name, ev.core)];
      } else if ev.ph == End {
        if ev.tid in openSpans {
          var o := openSpans[ev.tid];
          threadSpans := threadSpans + [Span(ev.tid, o.startTime, ev.ts, o.name, Some(ev.name), o.core)];
          openSpans := openSpans - {ev.tid};
        }
      } else {
        threadSpans := threadSpans + [Span(ev.tid, ev.ts, ev.ts, ev.name, None, ev.core)];
      }
    }
    assert sorted[..|sorted|] == sorted;
  }
}
