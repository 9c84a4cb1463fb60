/** The operations of the 1:N scheduler, and the proof that each of them keeps the system invariant. */
module KernelSteps {
  import opened Basics
  import opened WaitObjects
  import opened Kernel
  import Trace

  // ----- one thread record changes: what becomes of the lists -----

  lemma ListedSame(threads: map<Tid, Thread>, q: seq<Tid>, p: Place, u: Tid, x: Thread)
    requires ListedAs(threads, q, p) && (x.place == p <==> u in threads && threads[u].place == p)
    ensures ListedAs(threads[u := x], q, p)
  {
  }

  lemma ListedMore(threads: map<Tid, Thread>, q: seq<Tid>, p: Place, u: Tid, x: Thread)
    requires ListedAs(threads, q, p) && x.place == p && (u in threads ==> threads[u].place != p)
    ensures ListedAs(threads[u := x], q + [u], p) && ListedAs(threads[u := x], [u] + q, p)
  {
    forall t | t in threads[u := x] && threads[u := x][t].place == p ensures t in q + [u] && t in [u] + q {
      if t != u { assert t in q; }
    }
  }

  lemma ListedLess(threads: map<Tid, Thread>, q: seq<Tid>, p: Place, u: Tid, x: Thread)
    requires ListedAs(threads, q, p) && x.place != p
    ensures ListedAs(threads[u := x], Without(q, u), p)
  {
    WithoutNoDup(q, u);
    var r := Without(q, u);
    forall i | 0 <= i < |r| ensures r[i] in threads[u := x] && threads[u := x][r[i]].place == p {
      assert r[i] in r;
    }
  }

  lemma WaitsSame(threads: map<Tid, Thread>, waits: map<Wid, WaitObject>, u: Tid, x: Thread)
    requires WaitsOk(threads, waits) && !x.place.InWait? && (u in threads ==> !threads[u].place.InWait?)
    ensures WaitsOk(threads[u := x], waits)
  {
    forall w | w in waits ensures ListedAs(threads[u := x], Waiters(waits[w]), InWait(w)) {
      ListedSame(threads, Waiters(waits[w]), InWait(w), u, x);
    }
  }

  lemma RestSame(threads: map<Tid, Thread>, u: Tid, x: Thread, counter: nat, created: set<Tid>, exited: set<Tid>)
    requires OrdersOk(threads, counter) && LivesOk(threads, created, exited)
    requires u in threads && x.order == threads[u].order
    requires x.state == Finished <==> threads[u].state == Finished
    ensures OrdersOk(threads[u := x], counter) && LivesOk(threads[u := x], created, exited)
  {
  }

  lemma AdmitLists(k: Kernel, t: Tid, e: Trace.EventType)
    requires Lists(k) && Domain(k) && t in k.threads && k.threads[t].place in {InSleep, InEpoll}
    ensures Lists(Admit(k, t, e))
  {
    var x := k.threads[t].(state := Ready, place := InReady);
    ListedMore(k.threads, k.ready, InReady, t, x);
    ListedLess(k.threads, k.sleepers, InSleep, t, x);
    WaitsSame(k.threads, k.waits, t, x);
  }

  lemma AdmitThreads(k: Kernel, t: Tid, e: Trace.EventType)
    requires ThreadsOk(k) && Domain(k) && k.phase != Idle && t in k.threads && k.threads[t].place in {InSleep, InEpoll}
    requires k.threads[t].due <= k.clock
    ensures ThreadsOk(Admit(k, t, e))
  {
  }

  lemma AdmitKeeps(k: Kernel, t: Tid, e: Trace.EventType)
    requires Inv(k) && k.phase != Idle && t in k.threads && k.threads[t].place in {InSleep, InEpoll}
    requires k.threads[t].due <= k.clock
    ensures Inv(Admit(k, t, e))
  {
    hide OrdersOk, LivesOk;
    assert k.threads[t].state != Finished;
    hide ListsOk, ThreadsOk;
    AdmitLists(k, t, e);
    AdmitThreads(k, t, e);
    RestSame(k.threads, t, k.threads[t].(state := Ready, place := InReady), k.counter, k.h.created, k.h.exited);
  }
  
  lemma ListedGc(k: Kernel, q: seq<Tid>, p: Place)
    requires ListedAs(k.threads, q, p) && ThreadsOk(k) && p != Nowhere
    ensures ListedAs(Gc(k).threads, q, p)
  {
  }

  lemma GcLists(k: Kernel)
    requires Lists(k) && ThreadsOk(k)
    ensures Lists(Gc(k)) 
  {
    var k' := Gc(k);
    ListedGc(k, k.ready, InReady);
    ListedGc(k, k.sleepers, InSleep);
    forall w | w in k.waits ensures ListedAs(k'.threads, Waiters(k.waits[w]), InWait(w)) {
      ListedGc(k, Waiters(k.waits[w]), InWait(w));
    }
  }

  lemma GcKeeps(k: Kernel)
    requires Inv(k)
    ensures Inv(Gc(k))
  {
    GcLists(k);
    hide ListsOk;
  }

  // ----- check_io_events and check_sleep_list -----

  /** Only lists, thread records and the trace differ. */
  ghost predicate OnlyLists(k: Kernel, r: Kernel) {
    && r.phase == k.phase && r.current == k.current && r.waits == k.waits && r.clock == k.clock
    && r.policy == k.policy && r.counter == k.counter && r.epollOpen == k.epollOpen
    && r.h == k.h.(trace := r.h.trace)
  }

  /** AdmitAll appends ts to the ready queue in order. */
  lemma {:induction false} AdmitAllFields(k: Kernel, ts: seq<Tid>, e: Trace.EventType)
    requires Domain(k) && Within(k.threads, ts)
    ensures OnlyLists(k, AdmitAll(k, ts, e))
    ensures AdmitAll(k, ts, e).ready == k.ready + ts
  {
    hide Domain;
    if ts != [] {
      var n := |ts| - 1;
      AdmitAllFields(k, ts[..n], e);
      assert k.ready + ts == (k.ready + ts[..n]) + [ts[n]];
    }
  }

  /** The members of ts become READY; no other thread record changes. */
  lemma {:induction false} AdmitAllThreads(k: Kernel, ts: seq<Tid>, e: Trace.EventType, t: Tid)
    requires Domain(k) && t in k.threads && Within(k.threads, ts)
    ensures AdmitAll(k, ts, e).threads[t] ==
      if t in ts then k.threads[t].(state := Ready, place := InReady) else k.threads[t]
    ensures t in AdmitAll(k, ts, e).epoll <==> t in k.epoll && t !in ts
  {
    hide Domain;
    if ts != [] {
      var n := |ts| - 1;
      AdmitAllThreads(k, ts[..n], e, t);
      assert ts == ts[..n] + [ts[n]];
    }
  }

  lemma {:induction false} AdmitAllKeeps(k: Kernel, ts: seq<Tid>, e: Trace.EventType)
    requires Inv(k) && k.phase != Idle && NoDup(ts) && Within(k.threads, ts)
    requires forall t | t in ts && t in k.threads :: k.threads[t].place in {InSleep, InEpoll} && k.threads[t].due <= k.clock
    ensures Inv(AdmitAll(k, ts, e))
  {
    hide ListsOk, ThreadsOk, OrdersOk, LivesOk;
    if ts != [] {
      var n := |ts| - 1;
      AdmitAllKeeps(k, ts[..n], e);
      AdmitAllFields(k, ts[..n], e);
      AdmitAllThreads(k, ts[..n], e, ts[n]);
      AdmitKeeps(AdmitAll(k, ts[..n], e), ts[n], e);
    }
  }

  /** Due selects by the clock, and keeps duplicates out. */
  lemma {:induction false} DueMembers(k: Kernel, q: seq<Tid>, now: nat, expired: bool)
    requires NoDup(q) && forall i | 0 <= i < |q| :: q[i] in k.threads
    ensures var r := Due(k, q, now, expired);
      NoDup(r) && forall t :: t in r <==> t in q && (k.threads[t].due <= now) == expired
  {
    if q != [] {
      DueMembers(k, q[..|q| - 1], now, expired);
      assert q == q[..|q| - 1] + [q[|q| - 1]];
    }
  }

  lemma PassFirst(k: Kernel, e: World)
    requires Inv(k) && k.phase != Idle && Fits(k, e)
    ensures var k1 := AdmitAll(k, e.events, Trace.IoUnblock);
      Inv(k1) && OnlyLists(k, k1)
  {
    AdmitAllKeeps(k, e.events, Trace.IoUnblock);
    AdmitAllFields(k, e.events, Trace.IoUnblock);
  }

  lemma PassKeeps(k: Kernel, e: World)
    requires Inv(k) && k.phase != Idle && Fits(k, e)
    ensures Inv(Pass(k, e)) && OnlyLists(k.(clock := e.now), Pass(k, e))
  {
    PassFirst(k, e);
    SleepKeeps(AdmitAll(k, e.events, Trace.IoUnblock), e.now);
    hide Inv, Domain, AdmitAll;
  }

  lemma SleepKeeps(k: Kernel, now: nat)
    requires Inv(k) && k.phase != Idle && k.clock <= now
    ensures Inv(CheckSleep(k, now)) && OnlyLists(k.(clock := now), CheckSleep(k, now))
  {
    var k1 := k.(clock := now);
    DueMembers(k, k.sleepers, now, true);
    AdmitAllKeeps(k1, Due(k, k.sleepers, now, true), Trace.Wakeup);
    AdmitAllFields(k1, Due(k, k.sleepers, now, true), Trace.Wakeup);
  }

  // ----- taking the next thread -----

  lemma DispatchLists(k: Kernel, t: Tid)
    requires Lists(k) && t in k.threads && k.threads[t].place == InReady
    ensures Lists(Dispatch(k, t))
  {
    var x := k.threads[t].(state := Running, place := Nowhere);
    ListedLess(k.threads, k.ready, InReady, t, x);
    ListedSame(k.threads, k.sleepers, InSleep, t, x);
    WaitsSame(k.threads, k.waits, t, x);
  }

  lemma DispatchThreads(k: Kernel, t: Tid)
    requires ThreadsOk(k) && k.phase == Switching && k.threads[k.current].state != Running
    requires t in k.threads && k.threads[t].place == InReady
    ensures ThreadsOk(Dispatch(k, t))
  {
  }

  lemma DispatchKeeps(k: Kernel, t: Tid)
    requires Inv(k) && k.phase == Switching && t in k.ready && k.threads[k.current].state != Running
    ensures Inv(Dispatch(k, t)) && Dispatch(k, t).phase == User
  {
    var x := k.threads[t].(state := Running, place := Nowhere);
    hide LivesOk, OrdersOk;
    assert k.threads[t].place == InReady && k.threads[t].state != Finished;
    hide ListsOk, ThreadsOk;
    DispatchLists(k, t);
    DispatchThreads(k, t);
    RestSame(k.threads, t, x, k.counter, k.h.created, k.h.exited);
  }

  /** The tail of uthread_yield and uthread_exit: take the next thread, or poll, or end the process. */
  ghost function Schedule(k: Kernel): Kernel
    requires Domain(k)
  {
    if k.ready != [] then Dispatch(k, Next(k))
    else k.(phase := if Alive(k) && k.epollOpen then Idle else Halted)
  }

  lemma ScheduleKeeps(k: Kernel)
    requires Inv(k) && k.phase == Switching && k.threads[k.current].state != Running
    ensures Inv(Schedule(k)) && Schedule(k).phase != Switching
  {
    hide ListsOk, LivesOk, OrdersOk;
    if k.ready != [] { DispatchKeeps(k, Next(k)); }
  }

  // ----- the running thread stops running -----

  function ParkReady(k: Kernel): Kernel
    requires k.current in k.threads
  {
    var l := Leave(k, Ready, InReady, Trace.Yield);
    l.(ready := l.ready + [l.current])
  }

  /** On the wait list of w, which has become x. */
  function ParkWait(k: Kernel, w: Wid, x: WaitObject): Kernel
    requires k.current in k.threads
  {
    var l := Leave(k, Blocked, InWait(w), Trace.Block);
    l.(waits := l.waits[w := x])
  }

  /** At the head of the sleep list, with the wake-up time the caller asked for at time at. */
  function ParkSleep(k: Kernel, ms: nat, at: nat): Kernel
    requires k.current in k.threads
  {
    var l := Leave(k, IoBlocked, InSleep, Trace.Sleep);
    l.(sleepers := [l.current] + l.sleepers, clock := at,
       threads := l.threads[l.current := l.threads[l.current].(due := at + ms * 1000000)])
  }

  function ParkIo(k: Kernel): Kernel
    requires k.current in k.threads
  {
    var l := Leave(k, IoBlocked, InEpoll, Trace.IoBlock);
    l.(epoll := l.epoll + {l.current})
  }

  function ParkExit(k: Kernel): Kernel
    requires k.current in k.threads
  {
    var l := Leave(k, Finished, Nowhere, Trace.Exit);
    l.(h := l.h.(exited := l.h.exited + {l.current}))
  }

  /** The current thread runs, so it is in no list. */
  ghost predicate Runs(k: Kernel) {
    Inv(k) && k.phase in {User, Switching} && k.threads[k.current].state == Running
  }

  /** The current thread has stopped running; the scheduler is about to choose. */
  ghost predicate Parked(k: Kernel) {
    Inv(k) && k.phase == Switching && k.threads[k.current].state != Running
  }

  lemma ParkThreads(k: Kernel, k': Kernel, x: Thread)
    requires ThreadsOk(k) && k.phase in {User, Switching} && k.threads[k.current].state == Running
    requires k'.threads == k.threads[k.current := x] && k'.current == k.current && k'.phase == Switching
    requires k'.waits.Keys == k.waits.Keys && k.clock <= k'.clock
    requires StateFits(x, false, k.waits.Keys) && (x.place != InSleep ==> x.due <= k'.clock)
    ensures ThreadsOk(k') && k'.threads[k'.current].state != Running
  {
  }

  lemma ParkKeeps(k: Kernel, k': Kernel, x: Thread)
    requires Runs(k) && Lists(k')
    requires k'.threads == k.threads[k.current := x] && k'.current == k.current && k'.phase == Switching
    requires k'.waits.Keys == k.waits.Keys && k.clock <= k'.clock
    requires StateFits(x, false, k.waits.Keys) && (x.place != InSleep ==> x.due <= k'.clock)
    requires k'.counter == k.counter && k'.h.created == k.h.created && k'.h.exited == k.h.exited
    requires x.order == k.threads[k.current].order && x.state != Finished
    ensures Parked(k')
  {
    assert Domain(k') by { hide ThreadsOk, OrdersOk, LivesOk; }
    hide ListsOk, OrdersOk, LivesOk;
    ParkThreads(k, k', x);
    RestSame(k.threads, k.current, x, k.counter, k.h.created, k.h.exited);
  }

  lemma ListsToReady(threads: map<Tid, Thread>, ready: seq<Tid>, sleepers: seq<Tid>, epoll: set<Tid>,
                           waits: map<Wid, WaitObject>, u: Tid, x: Thread)
    requires ListsOk(threads, ready, sleepers, epoll, waits)
    requires (u in threads ==> threads[u].place == Nowhere) && x.place == InReady
    ensures ListsOk(threads[u := x], ready + [u], sleepers, epoll, waits)
  {
    ListedMore(threads, ready, InReady, u, x);
    ListedSame(threads, sleepers, InSleep, u, x);
    WaitsSame(threads, waits, u, x);
  }

  lemma ListsToSleep(threads: map<Tid, Thread>, ready: seq<Tid>, sleepers: seq<Tid>, epoll: set<Tid>,
                           waits: map<Wid, WaitObject>, u: Tid, x: Thread)
    requires ListsOk(threads, ready, sleepers, epoll, waits)
    requires u in threads && threads[u].place == Nowhere && x.place == InSleep
    ensures ListsOk(threads[u := x], ready, [u] + sleepers, epoll, waits)
  {
    ListedSame(threads, ready, InReady, u, x);
    ListedMore(threads, sleepers, InSleep, u, x);
    WaitsSame(threads, waits, u, x);
  }

  lemma ListsToEpoll(threads: map<Tid, Thread>, ready: seq<Tid>, sleepers: seq<Tid>, epoll: set<Tid>,
                           waits: map<Wid, WaitObject>, u: Tid, x: Thread)
    requires ListsOk(threads, ready, sleepers, epoll, waits)
    requires u in threads && threads[u].place == Nowhere && x.place == InEpoll
    ensures ListsOk(threads[u := x], ready, sleepers, epoll + {u}, waits)
  {
    ListedSame(threads, ready, InReady, u, x);
    ListedSame(threads, sleepers, InSleep, u, x);
    WaitsSame(threads, waits, u, x);
  }

  lemma ListsToNowhere(threads: map<Tid, Thread>, ready: seq<Tid>, sleepers: seq<Tid>, epoll: set<Tid>,
                             waits: map<Wid, WaitObject>, u: Tid, x: Thread)
    requires ListsOk(threads, ready, sleepers, epoll, waits)
    requires u in threads && threads[u].place == Nowhere && x.place == Nowhere
    ensures ListsOk(threads[u := x], ready, sleepers, epoll, waits)
  {
    ListedSame(threads, ready, InReady, u, x);
    ListedSame(threads, sleepers, InSleep, u, x);
    WaitsSame(threads, waits, u, x);
  }

  lemma WaitsChange(threads: map<Tid, Thread>, waits: map<Wid, WaitObject>, u: Tid, x: Thread,
                          w: Wid, o: WaitObject)
    requires WaitsOk(threads, waits) && w in waits && WaitObjectOk(o)
    requires ListedAs(threads[u := x], Waiters(o), InWait(w))
    requires u in threads && threads[u].place.InWait? ==> threads[u].place.w == w
    requires x.place.InWait? ==> x.place.w == w
    ensures WaitsOk(threads[u := x], waits[w := o])
  {
    hide WaitObjectOk;
    forall v | v in waits && v != w ensures ListedAs(threads[u := x], Waiters(waits[v]), InWait(v)) {
      ListedSame(threads, Waiters(waits[v]), InWait(v), u, x);
    }
  }

  /** u joins the wait list of w. */
  lemma ListsToWait(threads: map<Tid, Thread>, ready: seq<Tid>, sleepers: seq<Tid>, epoll: set<Tid>,
                          waits: map<Wid, WaitObject>, u: Tid, x: Thread, w: Wid, o: WaitObject)
    requires ListsOk(threads, ready, sleepers, epoll, waits) && w in waits && WaitObjectOk(o)
    requires u in threads && threads[u].place == Nowhere && x.place == InWait(w)
    requires Waiters(o) == Waiters(waits[w]) + [u]
    ensures ListsOk(threads[u := x], ready, sleepers, epoll, waits[w := o])
  {
    hide WaitObjectOk, ListedAs;
    ListedSame(threads, ready, InReady, u, x);
    ListedSame(threads, sleepers, InSleep, u, x);
    ListedMore(threads, Waiters(waits[w]), InWait(w), u, x);
    WaitsChange(threads, waits, u, x, w, o);
    hide WaitsOk;
  }

  /** The head of the wait list of w moves to the ready queue. */
  lemma ListsRelease(threads: map<Tid, Thread>, ready: seq<Tid>, sleepers: seq<Tid>, epoll: set<Tid>,
                           waits: map<Wid, WaitObject>, x: Thread, w: Wid, o: WaitObject)
    requires ListsOk(threads, ready, sleepers, epoll, waits) && w in waits && WaitObjectOk(o)
    requires Waiters(waits[w]) != [] && x.place == InReady && Waiters(o) == Waiters(waits[w])[1..]
    ensures ListsOk(threads[Waiters(waits[w])[0] := x], ready + [Waiters(waits[w])[0]], sleepers, epoll, waits[w := o])
  {
    hide WaitObjectOk;
    var q := Waiters(waits[w]);
    var u := q[0];
    assert u in threads && threads[u].place == InWait(w);
    ListedMore(threads, ready, InReady, u, x);
    ListedSame(threads, sleepers, InSleep, u, x);
    ListedLess(threads, q, InWait(w), u, x);
    WaitsChange(threads, waits, u, x, w, o);
    hide WaitsOk, ListedAs;
  }

  lemma RunsFacts(k: Kernel)
    requires Runs(k)
    ensures k.threads[k.current].place == Nowhere && k.threads[k.current].due <= k.clock
  {
    hide OrdersOk, LivesOk, ListsOk;
  }

  lemma ParkReadyKeeps(k: Kernel)
    requires Runs(k)
    ensures Parked(ParkReady(k))
  {
    var x := k.threads[k.current].(state := Ready, place := InReady);
    RunsFacts(k);
    hide Domain, ListsOk, ThreadsOk, OrdersOk, LivesOk;
    ListsToReady(k.threads, k.ready, k.sleepers, k.epoll, k.waits, k.current, x);
    ParkKeeps(k, ParkReady(k), x);
  }

  lemma ParkSleepKeeps(k: Kernel, ms: nat, at: nat)
    requires Runs(k) && k.clock <= at
    ensures Parked(ParkSleep(k, ms, at))
  {
    var x := k.threads[k.current].(state := IoBlocked, place := InSleep, due := at + ms * 1000000);
    RunsFacts(k);
    hide Domain, ListsOk, ThreadsOk, OrdersOk, LivesOk;
    ListsToSleep(k.threads, k.ready, k.sleepers, k.epoll, k.waits, k.current, x);
    var k' := ParkSleep(k, ms, at);
    assert k'.threads == k.threads[k.current := x];
    ParkKeeps(k, k', x);
  }

  lemma ParkIoKeeps(k: Kernel)
    requires Runs(k)
    ensures Parked(ParkIo(k))
  {
    var x := k.threads[k.current].(state := IoBlocked, place := InEpoll);
    hide Domain, ListsOk, ThreadsOk, OrdersOk, LivesOk;
    RunsFacts(k);
    ListsToEpoll(k.threads, k.ready, k.sleepers, k.epoll, k.waits, k.current, x);
    ParkKeeps(k, ParkIo(k), x);
  }

  lemma ParkWaitKeeps(k: Kernel, w: Wid, o: WaitObject)
    requires Runs(k) && w in k.waits && WaitObjectOk(o) && Waiters(o) == Waiters(k.waits[w]) + [k.current]
    ensures Parked(ParkWait(k, w, o))
  {
    var x := k.threads[k.current].(state := Blocked, place := InWait(w));
    RunsFacts(k);
    hide Domain, ListsOk, ThreadsOk, OrdersOk, LivesOk, WaitObjectOk;
    ListsToWait(k.threads, k.ready, k.sleepers, k.epoll, k.waits, k.current, x, w, o);
    assert k.waits[w := o].Keys == k.waits.Keys;
    ParkKeeps(k, ParkWait(k, w, o), x);
  }

  lemma ExitLives(threads: map<Tid, Thread>, u: Tid, x: Thread, counter: nat, created: set<Tid>, exited: set<Tid>)
    requires OrdersOk(threads, counter) && LivesOk(threads, created, exited)
    requires u in threads && x.order == threads[u].order && x.state == Finished
    ensures OrdersOk(threads[u := x], counter) && LivesOk(threads[u := x], created, exited + {u})
  {
  }

  lemma ParkExitKeeps(k: Kernel)
    requires Runs(k)
    ensures Parked(ParkExit(k))
  {
    var k' := ParkExit(k);
    var x := k.threads[k.current].(state := Finished, place := Nowhere);
    RunsFacts(k);
    assert Domain(k') by { hide ListsOk, ThreadsOk, OrdersOk, LivesOk; }
    hide Domain, ListsOk, ThreadsOk, OrdersOk, LivesOk;
    ListsToNowhere(k.threads, k.ready, k.sleepers, k.epoll, k.waits, k.current, x);
    ParkThreads(k, k', x);
    ExitLives(k.threads, k.current, x, k.counter, k.h.created, k.h.exited);
  }

  /** A thread that is still RUNNING when it yields goes to the back of the ready queue. */
  function Requeue(k: Kernel): (r: Kernel)
    requires Domain(k)
    ensures Domain(r)
  {
    if k.threads[k.current].state == Running then ParkReady(k) else k
  }

  /** uthread_yield, entered by a thread that still runs or has just put itself on some list. */
  ghost function Reschedule(k: Kernel, e: World): Kernel
    requires Domain(Gc(k)) && Fits(Gc(k), e)
  {
    Schedule(Requeue(Pass(Gc(k), e)))
  }

  lemma GcFits(k: Kernel, e: World)
    requires Inv(k) && Fits(k, e)
    ensures Inv(Gc(k)) && Fits(Gc(k), e) && Domain(Gc(k))
  {
    GcKeeps(k);
    hide ThreadsOk, OrdersOk, LivesOk, WaitsOk, ListedAs;
    forall t | t in e.events ensures t in Gc(k).threads { assert t in Gc(k).epoll; }
  }

  lemma RescheduleKeeps(k: Kernel, e: World)
    requires Inv(k) && k.phase == Switching && Fits(k, e)
    ensures Inv(Gc(k)) && Fits(Gc(k), e)
    ensures Inv(Reschedule(k, e)) && Reschedule(k, e).phase != Switching
  {
    GcFits(k, e);
    PassKeeps(Gc(k), e);
    var k1 := Pass(Gc(k), e);
    hide ListsOk, ThreadsOk, OrdersOk, LivesOk, Pass, Schedule, ParkReady;
    if k1.threads[k1.current].state == Running {
      ParkReadyKeeps(k1);
      ScheduleKeeps(ParkReady(k1));
    } else {
      ScheduleKeeps(k1);
    }
  }

  /** Waking the head of a wait list, if there is one: unlock and post. */
  function Release(k: Kernel, w: Wid, o: WaitObject): Kernel
    requires Domain(k) && w in k.waits && Within(k.threads, Waiters(o))
  {
    var k1 := k.(waits := k.waits[w := o]);
    if Waiters(k.waits[w]) == [] then k1 else Admit(k1, Waiters(k.waits[w])[0], Trace.Unblock)
  }

  /** A wait object whose wait list stays the same, or a new one without waiters. */
  lemma QuietChange(k: Kernel, w: Wid, o: WaitObject)
    requires Inv(k) && WaitObjectOk(o)
    requires Waiters(o) == if w in k.waits then Waiters(k.waits[w]) else []
    requires w !in k.waits ==> k.phase == User
    ensures Inv(k.(waits := k.waits[w := o]))
  {
    hide OrdersOk, LivesOk, WaitObjectOk;
  }

  lemma WokenFacts(k: Kernel, w: Wid)
    requires Inv(k) && w in k.waits && Waiters(k.waits[w]) != []
    ensures var u := Waiters(k.waits[w])[0];
      u in k.threads && k.threads[u].place == InWait(w) && u !in k.sleepers && u !in k.epoll
      && k.threads[u].state == Blocked && k.threads[u].due <= k.clock
  {
    hide OrdersOk, LivesOk, WaitObjectOk;
  }

  lemma ReleaseThreads(k: Kernel, w: Wid, o: WaitObject, u: Tid, k': Kernel)
    requires ThreadsOk(k) && k.phase == User && u in k.threads && k.threads[u].place == InWait(w)
    requires k.threads[u].due <= k.clock && w in k.waits
    requires k'.threads == k.threads[u := k.threads[u].(state := Ready, place := InReady)]
    requires k'.phase == User && k'.current == k.current && k'.clock == k.clock && k'.waits.Keys == k.waits.Keys
    ensures ThreadsOk(k')
  {
  }

  lemma ReleaseFields(k: Kernel, w: Wid, o: WaitObject, u: Tid)
    requires Domain(k) && w in k.waits && Within(k.threads, Waiters(o)) && Waiters(k.waits[w]) != []
    requires Waiters(k.waits[w])[0] == u
    requires u !in k.sleepers && u !in k.epoll
    ensures var r := Release(k, w, o);
      && r.threads == k.threads[u := k.threads[u].(state := Ready, place := InReady)]
      && r.ready == k.ready + [u] && r.sleepers == k.sleepers && r.epoll == k.epoll && r.waits == k.waits[w := o]
      && OnlyLists(k.(waits := r.waits), r) && Domain(r)
  {
    WithoutAbsent(k.sleepers, u);
    assert k.epoll - {u} == k.epoll;
  }

  lemma ReleaseKeeps(k: Kernel, w: Wid, o: WaitObject)
    requires Inv(k) && k.phase == User && w in k.waits && WaitObjectOk(o)
    requires Waiters(o) == if Waiters(k.waits[w]) == [] then [] else Waiters(k.waits[w])[1..]
    ensures Inv(Release(k, w, o)) && Release(k, w, o).phase == User
  {
    var q := Waiters(k.waits[w]);
    if q == [] {
      QuietChange(k, w, o);
    } else {
      var u := q[0];
      WokenFacts(k, w);
      ReleaseFields(k, w, o, u);
      hide Release, Domain, OrdersOk, LivesOk, WaitObjectOk, ListsOk, ThreadsOk, WaitsOk;
      var x := k.threads[u].(state := Ready, place := InReady);
      ListsRelease(k.threads, k.ready, k.sleepers, k.epoll, k.waits, x, w, o);
      ReleaseThreads(k, w, o, u, Release(k, w, o));
      RestSame(k.threads, u, x, k.counter, k.h.created, k.h.exited);
    }
  }

  // ----- the operations -----

  datatype CreateResult = Made | NoTcb | NoStack

  datatype Op =
    | OpYield(e: World)
    | OpLock(w: Wid, e: World)
    | OpUnlock(w: Wid)
    | OpWait(w: Wid, e: World)
    | OpPost(w: Wid)
    | OpSleep(ms: nat, at: nat, e: World)
    | OpIo(e: World)
    | OpCreate(t: Tid, priority: int, result: CreateResult)
    | OpExit(e: World)
    | OpPoll(e: World)
    | OpPolicy(p: Policy)
    | OpNewMutex(w: Wid)
    | OpNewSem(w: Wid, count: nat)

  function Locked(k: Kernel, w: Wid): WaitObject
    requires w in k.waits && k.waits[w].Lock?
  {
    Lock(LockMutex(k.waits[w].m, k.current))
  }

  function Waited(k: Kernel, w: Wid): WaitObject
    requires w in k.waits && k.waits[w].Semaphore?
  {
    Semaphore(WaitSem(k.waits[w].s, k.current))
  }

  /** The lock or semaphore call by the current thread would block. */
  predicate Blocks(x: WaitObject) {
    match x
    case Lock(m) => m.locked
    case Semaphore(s) => s.count <= 0
  }

  /** The operation is one the current thread may perform (for OpPoll: the idle loop). Only the owner
      unlocks; thread numbers are fresh. */
  ghost predicate MayCall(k: Kernel, op: Op) {
    && (if op.OpPoll? then k.phase == Idle else k.phase == User)
    && match op
       case OpLock(w, e) => w in k.waits && k.waits[w].Lock?
       case OpUnlock(w) => w in k.waits && k.waits[w].Lock? && k.waits[w].m.Owner() == Some(k.current)
       case OpWait(w, e) => w in k.waits && k.waits[w].Semaphore?
       case OpPost(w) => w in k.waits && k.waits[w].Semaphore?
       case OpSleep(ms, at, e) => k.clock <= at
       case OpCreate(t, priority, result) => t !in k.h.created
       case OpNewMutex(w) => w !in k.waits
       case OpNewSem(w, count) => w !in k.waits
       case _ => true
  }

  /** The state in which an operation enters the scheduler, if it does. */
  function Entered(k: Kernel, op: Op): (r: Option<Kernel>)
    requires k.current in k.threads
    requires op.OpLock? ==> op.w in k.waits && k.waits[op.w].Lock?
    requires op.OpWait? ==> op.w in k.waits && k.waits[op.w].Semaphore?
  {
    match op
    case OpYield(e) => Some(k.(phase := Switching))
    case OpPoll(e) => Some(k.(phase := Switching))
    case OpLock(w, e) => if Blocks(k.waits[w]) then Some(ParkWait(k, w, Locked(k, w))) else None
    case OpWait(w, e) => if Blocks(k.waits[w]) then Some(ParkWait(k, w, Waited(k, w))) else None
    case OpSleep(ms, at, e) => Some(ParkSleep(k, ms, at))
    case OpIo(e) => Some(ParkIo(k))
    case OpExit(e) => Some(ParkExit(k))
    case _ => None
  }

  ghost predicate Enabled(k: Kernel, op: Op) {
    && MayCall(k, op) && k.current in k.threads
    && var k1 := Entered(k, op); (k1.Some? ==> Fits(k1.value, op.e))
  }

  /** A call on a wait object keeps the object's own invariant; only a blocking one adds a waiter. */
  lemma WaitingOk(k: Kernel, w: Wid)
    requires Runs(k) && w in k.waits
    ensures var o := if k.waits[w].Lock? then Locked(k, w) else Waited(k, w);
      && WaitObjectOk(o)
      && Waiters(o) == if Blocks(k.waits[w]) then Waiters(k.waits[w]) + [k.current] else Waiters(k.waits[w])
  {
    RunsFacts(k);
    hide ThreadsOk, OrdersOk, LivesOk;
    assert k.current !in Waiters(k.waits[w]);
  }

  lemma EnteredKeeps(k: Kernel, op: Op)
    requires Inv(k) && MayCall(k, op)
    ensures Entered(k, op).Some? ==> Inv(Entered(k, op).value) && Entered(k, op).value.phase == Switching
    ensures op.OpExit? || op.OpPoll? ==> Parked(Entered(k, op).value)
    ensures var k1 := Entered(k, op);
      k1.Some? ==> Domain(k1.value) && (op.OpPoll? || op.OpExit? || k1.value.threads[k1.value.current].state != Finished)
  {
    hide ListsOk, OrdersOk, LivesOk;
    match op
    case OpLock(w, e) => if k.waits[w].m.locked { WaitingOk(k, w); ParkWaitKeeps(k, w, Locked(k, w)); }
    case OpWait(w, e) => if k.waits[w].s.count <= 0 { WaitingOk(k, w); ParkWaitKeeps(k, w, Waited(k, w)); }
    case OpSleep(ms, at, e) => ParkSleepKeeps(k, ms, at);
    case OpIo(e) => ParkIoKeeps(k);
    case OpExit(e) => ParkExitKeeps(k);
    case _ =>
  }

  ghost function Apply(k: Kernel, op: Op): Kernel
    requires Inv(k) && Enabled(k, op)
  {
    EnteredKeeps(k, op);
    match op
    case OpPoll(e) =>
      var k1 := Pass(Entered(k, op).value, e);
      if k1.ready != [] then Schedule(k1) else k1.(phase := Idle)
    case OpExit(e) => Schedule(Pass(Entered(k, op).value, e))
    case OpUnlock(w) => Release(k, w, Lock(UnlockMutex(k.waits[w].m)))
    case OpPost(w) => Release(k, w, Semaphore(PostSem(k.waits[w].s)))
    case OpCreate(t, priority, result) => Spawn(Gc(k), t, priority, result)
    case OpPolicy(p) => k.(policy := p)
    case OpNewMutex(w) => k.(waits := k.waits[w := Lock(NewMutex())])
    case OpNewSem(w, count) => k.(waits := k.waits[w := Semaphore(NewSem(count))])
    case OpYield(e) => Resume(Entered(k, op).value, e)
    case OpSleep(ms, at, e) => Resume(Entered(k, op).value, e)
    case OpIo(e) => Resume(Entered(k, op).value, e)
    case OpLock(w, e) =>
      if Blocks(k.waits[w]) then Resume(Entered(k, op).value, e) else k.(waits := k.waits[w := Locked(k, w)])
    case OpWait(w, e) =>
      if Blocks(k.waits[w]) then Resume(Entered(k, op).value, e) else k.(waits := k.waits[w := Waited(k, w)])
  }

  ghost function Resume(k: Kernel, e: World): Kernel
    requires Inv(k) && Fits(k, e)
  {
    GcFits(k, e);
    Reschedule(k, e)
  }

  /** uthread_create after garbage collection; allocating the TCB or the stack may fail. */
  function Spawn(k: Kernel, t: Tid, priority: int, result: CreateResult): Kernel {
    match result
    case NoTcb => k
    case NoStack => k.(counter := k.counter + 1)
    case Made =>
      Emit(k.(threads := k.threads[t := Thread(Ready, InReady, 0, priority, k.counter)], counter := k.counter + 1,
              ready := k.ready + [t], h := k.h.(created := k.h.created + {t})), t, Trace.Create)
  }

  lemma SpawnLives(threads: map<Tid, Thread>, t: Tid, priority: int, counter: nat, created: set<Tid>, exited: set<Tid>)
    requires OrdersOk(threads, counter) && LivesOk(threads, created, exited) && t !in created && t !in exited
    ensures var x := Thread(Ready, InReady, 0, priority, counter);
      OrdersOk(threads[t := x], counter + 1) && LivesOk(threads[t := x], created + {t}, exited)
  {
  }

  lemma SpawnKeeps(k: Kernel, t: Tid, priority: int, result: CreateResult)
    requires Inv(k) && k.phase == User && t !in k.h.created
    ensures Inv(Spawn(k, t, priority, result)) && Spawn(k, t, priority, result).phase == User
  {
    var x := Thread(Ready, InReady, 0, priority, k.counter);
    assert t !in k.threads && t !in k.h.exited by { hide ListsOk, ThreadsOk, OrdersOk; }
    hide ListsOk, LivesOk;
    ListsToReady(k.threads, k.ready, k.sleepers, k.epoll, k.waits, t, x);
    SpawnLives(k.threads, t, priority, k.counter, k.h.created, k.h.exited);
    if result == NoStack {
      assert OrdersOk(k.threads, k.counter + 1);
    }
  }

  lemma PollKeeps(k: Kernel, e: World)
    requires Inv(k) && Enabled(k, OpPoll(e))
    ensures Inv(Apply(k, OpPoll(e)))
  {
    EnteredKeeps(k, OpPoll(e));
    var k0 := Entered(k, OpPoll(e)).value;
    PassKeeps(k0, e);
    PassCurrent(k0, e);
    var k1 := Pass(k0, e);
    hide ListsOk, OrdersOk, LivesOk, Pass;
    if k1.ready != [] { ScheduleKeeps(k1); }
  }

  /** A scheduling pass only makes waiting threads ready. */
  lemma PassCurrent(k: Kernel, e: World)
    requires Inv(k) && k.phase != Idle && Fits(k, e)
    ensures Pass(k, e).current == k.current
    ensures Pass(k, e).threads[k.current].state in {k.threads[k.current].state, Ready}
  {
    var k1 := AdmitAll(k, e.events, Trace.IoUnblock);
    AdmitAllThreads(k, e.events, Trace.IoUnblock, k.current);
    AdmitAllFields(k, e.events, Trace.IoUnblock);
    AdmitAllThreads(k1.(clock := e.now), Due(k1, k1.sleepers, e.now, true), Trace.Wakeup, k.current);
    AdmitAllFields(k1.(clock := e.now), Due(k1, k1.sleepers, e.now, true), Trace.Wakeup);
  }

  lemma CallKeeps(k: Kernel, op: Op, w: Wid, e: World)
    requires Inv(k) && Enabled(k, op) && (op == OpLock(w, e) || op == OpWait(w, e))
    ensures Inv(Apply(k, op)) && Apply(k, op).phase != Switching
  {
    EnteredKeeps(k, op);
    WaitingOk(k, w);
    hide ListsOk, OrdersOk, LivesOk, ThreadsOk, WaitObjectOk;
    if Blocks(k.waits[w]) {
      RescheduleKeeps(Entered(k, op).value, e);
    } else {
      QuietChange(k, w, if op.OpLock? then Locked(k, w) else Waited(k, w));
    }
  }

  lemma UnlockOk(k: Kernel, w: Wid)
    requires Runs(k) && w in k.waits && k.waits[w].Lock? && k.waits[w].m.Owner() == Some(k.current)
    ensures WaitObjectOk(Lock(UnlockMutex(k.waits[w].m)))
  {
    RunsFacts(k);
    hide ThreadsOk, OrdersOk, LivesOk;
    assert k.current !in Waiters(k.waits[w]);
  }

  lemma PostOk(k: Kernel, w: Wid)
    requires Inv(k) && w in k.waits && k.waits[w].Semaphore?
    ensures WaitObjectOk(Semaphore(PostSem(k.waits[w].s)))
  {
    hide ThreadsOk, OrdersOk, LivesOk, ListedAs;
  }

  lemma ReleaseOpKeeps(k: Kernel, op: Op)
    requires Inv(k) && Enabled(k, op) && (op.OpUnlock? || op.OpPost?)
    ensures Inv(Apply(k, op)) && Apply(k, op).phase == User
  {
    hide ListsOk, OrdersOk, LivesOk, WaitObjectOk;
    match op
    case OpUnlock(w) => UnlockOk(k, w); ReleaseKeeps(k, w, Lock(UnlockMutex(k.waits[w].m)));
    case OpPost(w) => PostOk(k, w); ReleaseKeeps(k, w, Semaphore(PostSem(k.waits[w].s)));
  }

  lemma YieldOpKeeps(k: Kernel, op: Op)
    requires Inv(k) && Enabled(k, op) && (op.OpYield? || op.OpSleep? || op.OpIo?)
    ensures Inv(Apply(k, op)) && Apply(k, op).phase != Switching
  {
    hide Inv;
    EnteredKeeps(k, op);
    RescheduleKeeps(Entered(k, op).value, op.e);
  }

  lemma ExitKeeps(k: Kernel, e: World)
    requires Inv(k) && Enabled(k, OpExit(e))
    ensures Inv(Apply(k, OpExit(e))) && Apply(k, OpExit(e)).phase != Switching
  {
    EnteredKeeps(k, OpExit(e));
    hide ListsOk, OrdersOk, LivesOk, ThreadsOk, Domain;
    var k0 := Entered(k, OpExit(e)).value;
    PassKeeps(k0, e);
    PassCurrent(k0, e);
    ScheduleKeeps(Pass(k0, e));
  }

  /** Every operation keeps the system invariant, and hands control back to user code or to the idle
      loop with no scheduler section half done. */
  lemma ApplyKeeps(k: Kernel, op: Op)
    requires Inv(k) && Enabled(k, op)
    ensures Inv(Apply(k, op)) && Apply(k, op).phase != Switching
  {
    hide ListsOk, OrdersOk, LivesOk, ThreadsOk, Domain;
    match op
    case OpPoll(e) => PollKeeps(k, e);
    case OpExit(e) => ExitKeeps(k, e);
    case OpUnlock(w) => ReleaseOpKeeps(k, op);
    case OpPost(w) => ReleaseOpKeeps(k, op);
    case OpCreate(t, priority, result) => GcKeeps(k); SpawnKeeps(Gc(k), t, priority, result);
    case OpPolicy(p) => PolicyKeeps(k, p);
    case OpNewMutex(w) => QuietChange(k, w, Lock(NewMutex()));
    case OpNewSem(w, count) => QuietChange(k, w, Semaphore(NewSem(count)));
    case OpYield(e) => YieldOpKeeps(k, op);
    case OpSleep(ms, at, e) => YieldOpKeeps(k, op);
    case OpIo(e) => YieldOpKeeps(k, op);
    case OpLock(w, e) => CallKeeps(k, op, w, e);
    case OpWait(w, e) => CallKeeps(k, op, w, e);
  }

  lemma PolicyKeeps(k: Kernel, p: Policy)
    requires Inv(k)
    ensures Inv(k.(policy := p))
  {
    hide ListsOk, OrdersOk, LivesOk;
  }
}
