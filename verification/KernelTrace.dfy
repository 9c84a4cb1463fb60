/** What the trace of a 1:N run looks like, and that the viewer reads the dispatch history off it. */
module KernelTrace {
  import opened Basics
  import opened WaitObjects
  import opened Kernel
  import opened KernelSteps
  import opened KernelRuns
  import opened GanttViewer
  import Trace

  /** Who is on the CPU after the trace, if its begin and end events alternate as they should when
      `first` was running at its start; Stray otherwise. */
  datatype Cpu = Free | Held(tid: Tid) | Stray

  function CpuAfter(trace: seq<Event>, first: Tid): Cpu {
    if trace == [] then Held(first)
    else
      var c := CpuAfter(trace[..|trace| - 1], first);
      var e := trace[|trace| - 1];
      match Trace.Phase(e.kind)
      case Begin => if c == Free then Held(e.tid) else Stray
      case End => if c == Held(e.tid) then Free else Stray
      case Instant => c
  }

  /** The recording as the viewer receives it, with the timestamps ts. */
  function Stamped(trace: seq<Event>, ts: nat -> int): (r: seq<ViewerEvent>)
    ensures |r| == |trace|
  {
    seq(|trace|, i requires 0 <= i < |trace| =>
      ViewerEvent(trace[i].tid, Trace.Phase(trace[i].kind), ts(i), trace[i].kind, 0))
  }

  /** A stay on the CPU as a bar: from the RUN event that began it to the event that ended it. */
  function BarsOf(stays: seq<Stay>, trace: seq<Event>, ts: nat -> int): seq<Span>
    requires forall i | 0 <= i < |stays| :: stays[i].from < |trace| && stays[i].to < |trace|
  {
    seq(|stays|, i requires 0 <= i < |stays| =>
      Span(stays[i].tid, ts(stays[i].from), ts(stays[i].to), Trace.Run, Some(trace[stays[i].to].kind), 0))
  }

  ghost predicate StaysOk(h: History) {
    && (forall i | 0 <= i < |h.stays| :: h.stays[i].from < |h.trace| && h.stays[i].to < |h.trace|)
    && (h.since.Some? ==> h.since.value < |h.trace|)
  }

  /** Who was on the CPU in the stays so far, and who is now if the trace saw it start. */
  function Runners(h: History, c: Tid): seq<Tid> {
    seq(|h.stays|, i requires 0 <= i < |h.stays| => h.stays[i].tid) + if h.since.Some? then [c] else []
  }

  /** When the trace began: who was running, and who had been dispatched before. */
  datatype Origin = Origin(tid: Tid, dispatches: seq<Tid>)


  /** The trace began as `first` says and has recorded everything since; c is the current
      thread, and runs tells whether it is on the CPU. */
  ghost predicate Recorded(h: History, c: Tid, runs: bool, first: Origin, ts: nat -> int) {
    && StaysOk(h) && h.dispatches == first.dispatches + Runners(h, c) && (h.since.Some? ==> runs)
    && CpuAfter(h.trace, first.tid) == (if runs then Held(c) else Free)
    && var p := Pair(Stamped(h.trace, ts));
      && p.open == (if h.since.Some? then map[c := OpenSpan(ts(h.since.value), Trace.Run, 0)] else map[])
      && Bars(p.spans) == BarsOf(h.stays, h.trace, ts)
  }

  ghost predicate Tracked(k: Kernel, first: Origin, ts: nat -> int) {
    k.current in k.threads && Recorded(k.h, k.current, k.threads[k.current].state == Running, first, ts)
  }

  lemma StampedSnoc(trace: seq<Event>, e: Event, ts: nat -> int)
    ensures Stamped(trace + [e], ts)
      == Stamped(trace, ts) + [ViewerEvent(e.tid, Trace.Phase(e.kind), ts(|trace|), e.kind, 0)]
    ensures Pair(Stamped(trace + [e], ts))
      == PairOne(Pair(Stamped(trace, ts)), ViewerEvent(e.tid, Trace.Phase(e.kind), ts(|trace|), e.kind, 0))
  {
    PairSnoc(Stamped(trace, ts), ViewerEvent(e.tid, Trace.Phase(e.kind), ts(|trace|), e.kind, 0));
    assert Stamped(trace + [e], ts)
      == Stamped(trace, ts) + [ViewerEvent(e.tid, Trace.Phase(e.kind), ts(|trace|), e.kind, 0)];
  }

  /** An instant event changes neither bars nor CPU. */
  lemma InstantEvent(h: History, e: Event, first: Origin, ts: nat -> int)
    requires StaysOk(h) && Trace.Phase(e.kind) == Trace.Instant
    ensures CpuAfter(h.trace + [e], first.tid) == CpuAfter(h.trace, first.tid)
    ensures Pair(Stamped(h.trace + [e], ts)).open == Pair(Stamped(h.trace, ts)).open
    ensures Bars(Pair(Stamped(h.trace + [e], ts)).spans) == Bars(Pair(Stamped(h.trace, ts)).spans)
    ensures BarsOf(h.stays, h.trace + [e], ts) == BarsOf(h.stays, h.trace, ts)
  {
    StampedSnoc(h.trace, e, ts);
    BarsSnoc(Pair(Stamped(h.trace, ts)).spans, Span(e.tid, ts(|h.trace|), ts(|h.trace|), e.kind, None, 0));
    assert (h.trace + [e])[..|h.trace|] == h.trace;
  }

  lemma InstantRecorded(h: History, e: Event, c: Tid, runs: bool, first: Origin, ts: nat -> int)
    requires Recorded(h, c, runs, first, ts) && Trace.Phase(e.kind) == Trace.Instant
    ensures Recorded(h.(trace := h.trace + [e]), c, runs, first, ts)
  {
    InstantEvent(h, e, first, ts);
  }

  /** The bar of a stay that ends with event e, the last of the trace. */
  lemma BarsOfSnoc(stays: seq<Stay>, trace: seq<Event>, e: Event, c: Tid, from: nat, ts: nat -> int)
    requires forall i | 0 <= i < |stays| :: stays[i].from < |trace| && stays[i].to < |trace|
    requires from < |trace|
    ensures BarsOf(stays, trace + [e], ts) == BarsOf(stays, trace, ts)
    ensures BarsOf(stays + [Stay(c, from, |trace|)], trace + [e], ts)
      == BarsOf(stays, trace, ts) + [Span(c, ts(from), ts(|trace|), Trace.Run, Some(e.kind), 0)]
  {
  }

  /** An end event frees the CPU, and closes the open bar of the thread if there is one. */
  lemma EndEvent(h: History, c: Tid, e: Trace.EventType, first: Origin, ts: nat -> int)
    requires Recorded(h, c, true, first, ts) && Trace.Phase(e) == Trace.End
    ensures var tr := h.trace + [Event(c, e)]; var (p, p') := (Pair(Stamped(h.trace, ts)), Pair(Stamped(tr, ts)));
      && CpuAfter(tr, first.tid) == Free && p'.open == map[]
      && Bars(p'.spans) == if h.since.None? then Bars(p.spans)
           else Bars(p.spans) + [Span(c, ts(h.since.value), ts(|h.trace|), Trace.Run, Some(e), 0)]
  {
    var pr := Pair(Stamped(h.trace, ts));
    StampedSnoc(h.trace, Event(c, e), ts);
    assert (h.trace + [Event(c, e)])[..|h.trace|] == h.trace;
    hide Pair, Stamped, BarsOf;
    if h.since.Some? { BarsSnoc(pr.spans, Span(c, ts(h.since.value), ts(|h.trace|), Trace.Run, Some(e), 0)); }
  }

  /** The running thread leaves the CPU; its bar, if the trace saw it start, ends here. */
  lemma EndRecorded(h: History, c: Tid, e: Trace.EventType, first: Origin, ts: nat -> int)
    requires Recorded(h, c, true, first, ts) && Trace.Phase(e) == Trace.End
    ensures var stays := if h.since.Some? then h.stays + [Stay(c, h.since.value, |h.trace|)] else h.stays;
      Recorded(h.(since := None, stays := stays, trace := h.trace + [Event(c, e)]), c, false, first, ts)
  {
    EndEvent(h, c, e, first, ts);
    hide Pair, Stamped, CpuAfter, Bars;
    if h.since.Some? {
      BarsOfSnoc(h.stays, h.trace, Event(c, e), c, h.since.value, ts);
      hide BarsOf;
    } else {
      assert BarsOf(h.stays, h.trace + [Event(c, e)], ts) == BarsOf(h.stays, h.trace, ts);
    }
  }

  lemma BeginRecorded(h: History, c: Tid, t: Tid, first: Origin, ts: nat -> int)
    requires Recorded(h, c, false, first, ts)
    ensures Recorded(h.(dispatches := h.dispatches + [t], since := Some(|h.trace|), trace := h.trace + [Event(t, Trace.Run)]),
                     t, true, first, ts)
  {
    assert Runners(h.(since := Some(|h.trace|)), t) == Runners(h, c) + [t];
    var ev := Event(t, Trace.Run);
    StampedSnoc(h.trace, ev, ts);
    assert (h.trace + [ev])[..|h.trace|] == h.trace;
    assert BarsOf(h.stays, h.trace + [ev], ts) == BarsOf(h.stays, h.trace, ts);
  }

  lemma {:induction false} AdmitAllTracked(k: Kernel, us: seq<Tid>, e: Trace.EventType, first: Origin, ts: nat -> int)
    requires Tracked(k, first, ts) && Domain(k) && Within(k.threads, us) && Trace.Phase(e) == Trace.Instant
    requires forall t | t in us && t in k.threads :: k.threads[t].state != Running
    ensures Tracked(AdmitAll(k, us, e), first, ts)
  {
    hide Recorded, Domain;
    if us != [] {
      var n := |us| - 1;
      AdmitAllTracked(k, us[..n], e, first, ts);
      AdmitAllThreads(k, us[..n], e, us[n]);
      var k1 := AdmitAll(k, us[..n], e);
      InstantRecorded(k1.h, Event(us[n], e), k1.current, k1.threads[k1.current].state == Running, first, ts);
    }
  }

  lemma WaitingDoNotRun(k: Kernel)
    requires Inv(k)
    ensures forall t | t in k.epoll || t in k.sleepers :: t in k.threads && k.threads[t].state != Running
    ensures NoDup(k.sleepers) && Domain(k)
  {
    hide OrdersOk, LivesOk, WaitsOk;
  }

  lemma PassTracked(k: Kernel, e: World, first: Origin, ts: nat -> int)
    requires Inv(k) && k.phase != Idle && Fits(k, e) && Tracked(k, first, ts)
    ensures Tracked(Pass(k, e), first, ts)
  {
    hide Inv, Domain, AdmitAll, Recorded;
    WaitingDoNotRun(k);
    var k1 := AdmitAll(k, e.events, Trace.IoUnblock);
    AdmitAllTracked(k, e.events, Trace.IoUnblock, first, ts);
    PassFirst(k, e);
    WaitingDoNotRun(k1);
    ClockDomain(k1, e.now);
    DueMembers(k1, k1.sleepers, e.now, true);
    AdmitAllTracked(k1.(clock := e.now), Due(k1, k1.sleepers, e.now, true), Trace.Wakeup, first, ts);
  }

  lemma ClockDomain(k: Kernel, now: nat)
    requires Domain(k)
    ensures Domain(k.(clock := now)) && Within(k.threads, k.sleepers)
  {
  }

  lemma LeaveTracked(k: Kernel, s: State, p: Place, e: Trace.EventType, first: Origin, ts: nat -> int)
    requires Tracked(k, first, ts) && k.threads[k.current].state == Running
    requires s != Running && Trace.Phase(e) == Trace.End
    ensures Tracked(Leave(k, s, p, e), first, ts)
  {
    hide Recorded;
    EndRecorded(k.h, k.current, e, first, ts);
  }

  lemma SameRecord(h: History, h': History, c: Tid, runs: bool, first: Origin, ts: nat -> int)
    requires Recorded(h, c, runs, first, ts)
    requires h'.trace == h.trace && h'.since == h.since && h'.stays == h.stays && h'.dispatches == h.dispatches
    ensures Recorded(h', c, runs, first, ts)
  {
  }

  lemma ScheduleTracked(k: Kernel, first: Origin, ts: nat -> int)
    requires Tracked(k, first, ts) && k.threads[k.current].state != Running && Domain(k)
    ensures Tracked(Schedule(k), first, ts)
  {
    hide Recorded, Alive, Domain;
    if k.ready != [] {
      var t := Next(k);
      BeginRecorded(k.h, k.current, t, first, ts);
    }
  }

  lemma QuietTracked(k: Kernel, first: Origin, ts: nat -> int)
    requires Tracked(k, first, ts)
    ensures Tracked(Gc(k), first, ts) && Tracked(k.(phase := Idle), first, ts) && Tracked(k.(phase := Switching), first, ts)
    ensures Domain(k) ==> Tracked(Requeue(k), first, ts)
  {
    hide Recorded;
    if k.threads[k.current].state == Running { LeaveTracked(k, Ready, InReady, Trace.Yield, first, ts); }
  }

  lemma ResumeTracked(k: Kernel, e: World, first: Origin, ts: nat -> int)
    requires Inv(k) && k.phase == Switching && Fits(k, e) && Tracked(k, first, ts)
    ensures Tracked(Resume(k, e), first, ts)
  {
    hide Inv, Domain, Fits, Pass, Schedule, Gc, Tracked;
    GcFits(k, e);
    QuietTracked(k, first, ts);
    assert Gc(k).phase != Idle by { QuietCore(k); }
    PassTracked(Gc(k), e, first, ts);
    var k1 := Pass(Gc(k), e);
    QuietTracked(k1, first, ts);
    ScheduleTracked(Requeue(k1), first, ts);
  }

  lemma EnteredTracked(k: Kernel, op: Op, first: Origin, ts: nat -> int)
    requires Enabled(k, op) && Tracked(k, first, ts) && (op.OpPoll? || k.threads[k.current].state == Running)
    ensures Entered(k, op).Some? ==> Tracked(Entered(k, op).value, first, ts)
  {
    hide Recorded, Fits;
    if !op.OpPoll? && !op.OpYield? && Entered(k, op).Some? {
      var x := Entered(k, op).value.threads[k.current];
      var e := match op
        case OpSleep(ms, at, e) => Trace.Sleep
        case OpIo(e) => Trace.IoBlock
        case OpExit(e) => Trace.Exit
        case _ => Trace.Block;
      EndRecorded(k.h, k.current, e, first, ts);
      if op.OpExit? {
        var l := Leave(k, x.state, x.place, e);
        SameRecord(l.h, Entered(k, op).value.h, k.current, false, first, ts);
      }
    }
  }

  /** Every operation extends the recording faithfully. */
  lemma StepTracked(k: Kernel, op: Op, first: Origin, ts: nat -> int)
    requires Inv(k) && Enabled(k, op) && Tracked(k, first, ts)
    ensures Tracked(Apply(k, op), first, ts)
  {
    hide ListsOk, OrdersOk, LivesOk, Fits, Tracked, Pass, Resume, Schedule, Release, Spawn;
    if !op.OpPoll? { UserRuns(k); }
    if Entered(k, op).Some? {
      EnteredKeeps(k, op);
      EnteredTracked(k, op, first, ts);
      var k0 := Entered(k, op).value;
      if op.OpPoll? || op.OpExit? {
        PassTracked(k0, op.e, first, ts);
        PassCurrent(k0, op.e);
        var k1 := Pass(k0, op.e);
        QuietTracked(k1, first, ts);
        ScheduleTracked(k1, first, ts);
      } else {
        ResumeTracked(k0, op.e, first, ts);
      }
    } else {
      PlainTracked(k, op, first, ts);
    }
  }

  /** Operations that do not enter the scheduler record at most one instant event. */
  lemma PlainTracked(k: Kernel, op: Op, first: Origin, ts: nat -> int)
    requires Inv(k) && Enabled(k, op) && Tracked(k, first, ts) && Entered(k, op).None?
    ensures Tracked(Apply(k, op), first, ts)
  {
    hide OrdersOk, Recorded, Fits;
    match op
    case OpUnlock(w) => ReleaseTracked(k, w, Lock(UnlockMutex(k.waits[w].m)), first, ts);
    case OpPost(w) => ReleaseTracked(k, w, Semaphore(PostSem(k.waits[w].s)), first, ts);
    case OpCreate(t, priority, result) =>
      QuietTracked(k, first, ts);
      var h := k.h.(created := k.h.created + {t});
      SameRecord(k.h, h, k.current, true, first, ts);
      InstantRecorded(h, Event(t, Trace.Create), k.current, true, first, ts);
    case _ =>
  }

  lemma ReleaseTracked(k: Kernel, w: Wid, o: WaitObject, first: Origin, ts: nat -> int)
    requires Inv(k) && k.phase == User && w in k.waits && Within(k.threads, Waiters(o)) && Tracked(k, first, ts)
    ensures Tracked(Release(k, w, o), first, ts)
  {
    UserRuns(k);
    if Waiters(k.waits[w]) != [] {
      WokenFacts(k, w);
      hide Inv, Recorded;
      InstantRecorded(k.h, Event(Waiters(k.waits[w])[0], Trace.Unblock), k.current, true, first, ts);
    }
  }

  /** The run begins at the moment tracing is enabled. */
  ghost predicate TracedRun(ks: seq<Kernel>, ops: seq<Op>) {
    && Run(ks, ops) && ks[0].phase == User
    && ks[0].h.trace == [] && ks[0].h.since == None && ks[0].h.stays == []
  }

  function OriginOf(k: Kernel): Origin { Origin(k.current, k.h.dispatches) }

  lemma {:induction false} TracedRunKeeps(ks: seq<Kernel>, ops: seq<Op>, j: nat, ts: nat -> int)
    requires TracedRun(ks, ops) && j < |ks|
    ensures Tracked(ks[j], OriginOf(ks[0]), ts)
    decreases j
  {
    hide ListsOk, OrdersOk, LivesOk, Apply, Enabled;
    if j == 0 {
      UserRuns(ks[0]);
    } else {
      hide Tracked, Inv;
      TracedRunKeeps(ks, ops, j - 1, ts);
      RunKeeps(ks, ops, j - 1);
      assert Follows(ks[j - 1], ops[j - 1], ks[j]);
      StepTracked(ks[j - 1], ops[j - 1], OriginOf(ks[0]), ts);
    }
  }

  /** Begin and end events of the whole system alternate strictly, one thread at a time, starting with
      the end of the stay of the thread that was running when tracing began. */
  lemma Alternation(ks: seq<Kernel>, ops: seq<Op>, j: nat)
    requires TracedRun(ks, ops) && j < |ks|
    ensures ks[j].current in ks[j].threads
    ensures CpuAfter(ks[j].h.trace, ks[0].current)
      == if ks[j].threads[ks[j].current].state == Running then Held(ks[j].current) else Free
  {
    TracedRunKeeps(ks, ops, j, i => i);
  }

  lemma StampedSorted(trace: seq<Event>, ts: nat -> int)
    requires forall i: nat, j: nat | i <= j :: ts(i) <= ts(j)
    ensures StableSort(Stamped(trace, ts)) == Stamped(trace, ts)
  {
    SortedStays(Stamped(trace, ts));
  }

  /** Trace fidelity: for any non-decreasing timestamps, the duration bars of processTrace are exactly
      the stays on the CPU that began while tracing, in order; only the stay of the thread that was
      already running at the start is missing. The stays, with the one under way, are exactly the dispatches
      since then, and the markers are exactly the instant events. */
  lemma Fidelity(ks: seq<Kernel>, ops: seq<Op>, j: nat, ts: nat -> int)
    requires TracedRun(ks, ops) && j < |ks|
    requires forall i: nat, h: nat | i <= h :: ts(i) <= ts(h)
    ensures StaysOk(ks[j].h)
    ensures var shown := Pair(StableSort(Stamped(ks[j].h.trace, ts))).spans;
      Bars(shown) == BarsOf(ks[j].h.stays, ks[j].h.trace, ts) && Markers(shown) == Instants(Stamped(ks[j].h.trace, ts))
    ensures ks[j].h.dispatches == ks[0].h.dispatches + Runners(ks[j].h, ks[j].current)
  {
    TracedRunKeeps(ks, ops, j, ts);
    StampedSorted(ks[j].h.trace, ts);
    MarkersAre(Stamped(ks[j].h.trace, ts));
  }

  lemma {:induction false} PairPrefix(events: seq<ViewerEvent>, n: nat)
    requires n <= |events|
    ensures Bars(Pair(events[..n]).spans) <= Bars(Pair(events).spans)
  {
    if n == |events| {
      assert events[..n] == events;
    } else {
      var m := |events| - 1;
      PairPrefix(events[..m], n);
      assert events[..m][..n] == events[..n];
      var p := Pair(events[..m]);
      forall x: Span ensures Bars(p.spans) <= Bars(p.spans + [x]) { BarsSnoc(p.spans, x); }
    }
  }

  /** When the buffer was full after n events, the viewer still shows a prefix of the true stays. */
  lemma TruncatedFidelity(ks: seq<Kernel>, ops: seq<Op>, j: nat, n: nat, ts: nat -> int)
    requires TracedRun(ks, ops) && j < |ks| && n <= |ks[j].h.trace|
    requires forall i: nat, h: nat | i <= h :: ts(i) <= ts(h)
    ensures StaysOk(ks[j].h)
    ensures Bars(Pair(StableSort(Stamped(ks[j].h.trace[..n], ts))).spans)
      <= BarsOf(ks[j].h.stays, ks[j].h.trace, ts)
  {
    var tr := ks[j].h.trace;
    Fidelity(ks, ops, j, ts);
    StampedSorted(tr, ts);
    StampedSorted(tr[..n], ts);
    assert Stamped(tr[..n], ts) == Stamped(tr, ts)[..n];
    PairPrefix(Stamped(tr, ts), n);
  }
}
