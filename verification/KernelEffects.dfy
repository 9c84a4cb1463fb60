/** What each operation of the 1:N scheduler does to the queues, to the sleep list and to the trace, in full; and
    what follows for sleeping, for garbage collection and for the ranks of threads over whole runs. */
module KernelEffects {
  import opened Basics
  import opened WaitObjects
  import opened Kernel
  import opened KernelSteps
  import opened KernelRuns
  import opened KernelTime
  import Trace

  // ----- one scheduling pass -----

  function Events(ts: seq<Tid>, e: Trace.EventType): seq<Event> {
    seq(|ts|, i requires 0 <= i < |ts| => Event(ts[i], e))
  }

  lemma {:induction false} AdmitAllTrace(k: Kernel, ts: seq<Tid>, e: Trace.EventType)
    requires Domain(k) && Within(k.threads, ts)
    ensures AdmitAll(k, ts, e).h.trace == k.h.trace + Events(ts, e)
  {
    hide Domain;
    if ts != [] {
      var n := |ts| - 1;
      AdmitAllTrace(k, ts[..n], e);
      assert Events(ts, e) == Events(ts[..n], e) + [Event(ts[n], e)];
    }
  }

  predicate Up(t: Tid, due: map<Tid, nat>, now: nat) { t in due && due[t] <= now }

  /** The members of q whose wake-up time, by due, has come, in order. */
  function Expired(q: seq<Tid>, due: map<Tid, nat>, now: nat): seq<Tid> {
    if q == [] then [] else (if Up(q[0], due, now) then [q[0]] else []) + Expired(q[1..], due, now)
  }

  /** ... and those whose has not. */
  function Unexpired(q: seq<Tid>, due: map<Tid, nat>, now: nat): seq<Tid> {
    if q == [] then [] else (if Up(q[0], due, now) then [] else [q[0]]) + Unexpired(q[1..], due, now)
  }

  lemma {:induction false} ExpiredSnoc(q: seq<Tid>, x: Tid, due: map<Tid, nat>, now: nat)
    ensures Expired(q + [x], due, now) == Expired(q, due, now) + if Up(x, due, now) then [x] else []
  {
    hide Up;
    if q == [] {
      assert q + [x] == [x];
    } else {
      ExpiredSnoc(q[1..], x, due, now);
      assert (q + [x])[1..] == q[1..] + [x];
    }
  }

  lemma {:induction false} UnexpiredSnoc(q: seq<Tid>, x: Tid, due: map<Tid, nat>, now: nat)
    ensures Unexpired(q + [x], due, now) == Unexpired(q, due, now) + if Up(x, due, now) then [] else [x]
  {
    hide Up;
    if q == [] {
      assert q + [x] == [x];
    } else {
      UnexpiredSnoc(q[1..], x, due, now);
      assert (q + [x])[1..] == q[1..] + [x];
    }
  }

  function Dues(threads: map<Tid, Thread>): map<Tid, nat> { map t | t in threads :: threads[t].due }

  lemma {:induction false} DueIs(k: Kernel, q: seq<Tid>, due: map<Tid, nat>, now: nat)
    requires forall i | 0 <= i < |q| :: q[i] in k.threads && q[i] in due && due[q[i]] == k.threads[q[i]].due
    ensures Due(k, q, now, true) == Expired(q, due, now) && Due(k, q, now, false) == Unexpired(q, due, now)
  {
    if q != [] {
      var n := |q| - 1;
      DueIs(k, q[..n], due, now);
      ExpiredSnoc(q[..n], q[n], due, now);
      UnexpiredSnoc(q[..n], q[n], due, now);
      assert q == q[..n] + [q[n]];
    }
  }

  lemma EventsKeepSleepers(k: Kernel, e: World)
    requires Inv(k) && k.phase != Idle && Fits(k, e)
    ensures var k1 := AdmitAll(k, e.events, Trace.IoUnblock);
      && k1.sleepers == k.sleepers
      && forall i | 0 <= i < |k.sleepers| :: k.sleepers[i] in k1.threads && k.sleepers[i] in k.threads
           && k1.threads[k.sleepers[i]].due == k.threads[k.sleepers[i]].due
  {
    var k1 := AdmitAll(k, e.events, Trace.IoUnblock);
    AdmitAllSleepers(k, e.events, Trace.IoUnblock);
    assert forall t | t in e.events :: t !in k.sleepers by { hide OrdersOk, LivesOk, WaitsOk; }
    assert Within(k.threads, k.sleepers) && k1.threads.Keys == k.threads.Keys;
    RemovingNone(k.sleepers, e.events);
    hide Inv, Domain, AdmitAll;
    forall i | 0 <= i < |k.sleepers| ensures k1.threads[k.sleepers[i]].due == k.threads[k.sleepers[i]].due {
      AdmitAllThreads(k, e.events, Trace.IoUnblock, k.sleepers[i]);
    }
  }

  lemma {:induction false} RemovingNone(q: seq<Tid>, ts: seq<Tid>)
    requires forall t | t in ts :: t !in q
    ensures Removing(q, ts) == q
  {
    if ts != [] {
      RemovingNone(q, ts[..|ts| - 1]);
      WithoutAbsent(q, ts[|ts| - 1]);
    }
  }

  /** A pass makes first the reported threads ready, in the order of the reports, and then the expired sleepers, in
      the order of the sleep list; the other sleepers stay in theirs. Every one of these is recorded. */
  lemma PassEffects(k: Kernel, e: World)
    requires Inv(k) && k.phase != Idle && Fits(k, e)
    ensures var (r, due) := (Pass(k, e), Expired(k.sleepers, Dues(k.threads), e.now));
      && r.ready == k.ready + e.events + due && r.sleepers == Unexpired(k.sleepers, Dues(k.threads), e.now)
      && r.h.trace == k.h.trace + Events(e.events, Trace.IoUnblock) + Events(due, Trace.Wakeup)
      && r.clock == e.now && r.current == k.current && r.threads.Keys == k.threads.Keys
      && r.policy == k.policy && r.h.dispatches == k.h.dispatches
  {
    PassFirst(k, e);
    EventsKeepSleepers(k, e);
    var k1 := AdmitAll(k, e.events, Trace.IoUnblock);
    AdmitAllFields(k, e.events, Trace.IoUnblock);
    AdmitAllTrace(k, e.events, Trace.IoUnblock);
    SleepPartition(k1, e.now);
    DueIs(k1, k1.sleepers, Dues(k.threads), e.now);
    var due := Due(k1, k1.sleepers, e.now, true);
    AdmitAllTrace(k1.(clock := e.now), due, Trace.Wakeup);
    AdmitAllFields(k1.(clock := e.now), due, Trace.Wakeup);
    hide Inv, AdmitAll, Domain;
  }

  // ----- the tail of an operation -----

  /** Whether the operation from k to r has dispatched a thread. */
  predicate Dispatches(k: Kernel, r: Kernel) { r.h.dispatches != k.h.dispatches }

  /** r is k after at most one dispatch: q is the ready queue before it and trace what was recorded before it. */
  ghost predicate Follow(k: Kernel, r: Kernel, q: seq<Tid>, trace: seq<Event>) {
    if Dispatches(k, r) then
      && q != [] && r.current in q && r.ready == Without(q, r.current)
      && (k.policy == RoundRobin ==> r.current == q[0])
      && r.h.dispatches == k.h.dispatches + [r.current] && r.h.trace == trace + [Event(r.current, Trace.Run)]
    else
      q == [] == r.ready && r.h.trace == trace
  }

  lemma ScheduleEffects(k: Kernel)
    requires Domain(k)
    ensures var r := Schedule(k); Follow(k, r, k.ready, k.h.trace) && r.sleepers == k.sleepers && r.clock == k.clock
  {
    hide Domain, Alive;
  }

  lemma GcEffects(k: Kernel, e: World)
    requires Inv(k) && Fits(k, e)
    ensures var r := Gc(k);
      && Inv(r) && Fits(r, e) && r.ready == k.ready && r.sleepers == k.sleepers && r.h == k.h && r.current == k.current
      && r.policy == k.policy && r.phase == k.phase && r.threads[r.current] == k.threads[k.current]
      && Expired(r.sleepers, Dues(r.threads), e.now) == Expired(k.sleepers, Dues(k.threads), e.now)
      && Unexpired(r.sleepers, Dues(r.threads), e.now) == Unexpired(k.sleepers, Dues(k.threads), e.now)
  {
    GcFits(k, e);
    assert forall i | 0 <= i < |k.sleepers| :: k.sleepers[i] in k.threads && k.sleepers[i] in Gc(k).threads;
    DueIs(Gc(k), k.sleepers, Dues(Gc(k).threads), e.now);
    DueIs(Gc(k), k.sleepers, Dues(k.threads), e.now);
    hide ListsOk, ThreadsOk, OrdersOk, LivesOk, Fits, Due;
  }

  /** What a yield, or a call that has put its caller on a list, adds to the ready queue and records before the dispatch. */
  lemma ResumeEffects(k: Kernel, e: World)
    requires Inv(k) && k.phase == Switching && Fits(k, e)
    ensures var (r, due) := (Resume(k, e), Expired(k.sleepers, Dues(k.threads), e.now));
      var self := if k.threads[k.current].state == Running then [k.current] else [];
      && Follow(k, r, k.ready + e.events + due + self,
                k.h.trace + Events(e.events, Trace.IoUnblock) + Events(due, Trace.Wakeup) + Events(self, Trace.Yield))
      && r.sleepers == Unexpired(k.sleepers, Dues(k.threads), e.now) && r.clock == e.now
  {
    hide Inv, Fits, Pass, Schedule, Gc, Domain, Expired, Unexpired, Dues;
    GcEffects(k, e);
    GcFits(k, e);
    PassEffects(Gc(k), e);
    var k1 := Pass(Gc(k), e);
    PassRuns(Gc(k), e);
    RequeueEffects(k1);
    ScheduleEffects(Requeue(k1));
    Followed(k, Requeue(k1), Schedule(Requeue(k1)));
  }

  lemma Followed(k: Kernel, k1: Kernel, r: Kernel)
    ensures k1.h.dispatches == k.h.dispatches && k1.policy == k.policy && Follow(k1, r, k1.ready, k1.h.trace) ==>
      Follow(k, r, k1.ready, k1.h.trace)
  {
  }

  lemma PassRuns(k: Kernel, e: World)
    requires Inv(k) && k.phase != Idle && Fits(k, e)
    ensures Pass(k, e).current in Pass(k, e).threads && k.current in k.threads
    ensures Pass(k, e).threads[Pass(k, e).current].state == Running <==> k.threads[k.current].state == Running
  {
    PassCurrent(k, e);
    RunnerStays(k, e);
  }

  lemma RunnerStays(k: Kernel, e: World)
    requires Inv(k) && k.phase != Idle && Fits(k, e) && k.current in k.threads
    ensures k.current in Pass(k, e).threads
    ensures k.threads[k.current].state == Running ==> Pass(k, e).threads[k.current].state == Running
  {
    if k.threads[k.current].state == Running {
      var k1 := AdmitAll(k, e.events, Trace.IoUnblock);
      PassFirst(k, e);
      assert k.current !in e.events && k.current !in k.sleepers by { hide OrdersOk, LivesOk, WaitsOk; }
      EventsKeepSleepers(k, e);
      AdmitAllThreads(k, e.events, Trace.IoUnblock, k.current);
      DueMembers(k1, k1.sleepers, e.now, true);
      AdmitAllThreads(k1.(clock := e.now), Due(k1, k1.sleepers, e.now, true), Trace.Wakeup, k.current);
      hide Inv, Domain, AdmitAll;
    }
  }

  lemma RequeueEffects(k: Kernel)
    requires Domain(k)
    ensures var (r, self) := (Requeue(k), if k.threads[k.current].state == Running then [k.current] else []);
      && r.ready == k.ready + self && r.h.trace == k.h.trace + Events(self, Trace.Yield) && r.sleepers == k.sleepers
      && r.clock == k.clock && r.policy == k.policy && r.h.dispatches == k.h.dispatches && Domain(r)
  {
  }

  // ----- every operation -----

  /** What the caller's own part of an operation records. */
  function Own(k: Kernel, op: Op): seq<Event> {
    match op
    case OpLock(w, e) => [Event(k.current, Trace.Block)]
    case OpWait(w, e) => [Event(k.current, Trace.Block)]
    case OpSleep(ms, at, e) => [Event(k.current, Trace.Sleep)]
    case OpIo(e) => [Event(k.current, Trace.IoBlock)]
    case OpExit(e) => [Event(k.current, Trace.Exit)]
    case _ => []
  }

  /** The sleep list and the wake-up times that the pass of an operation finds: a caller that sleeps comes first. */
  function Sleepers(k: Kernel, op: Op): seq<Tid> {
    if op.OpSleep? then [k.current] + k.sleepers else k.sleepers
  }

  function WakeTimes(k: Kernel, op: Op): map<Tid, nat> {
    if op.OpSleep? then Dues(k.threads)[k.current := op.at + op.ms * 1000000] else Dues(k.threads)
  }

  lemma EnteredEffects(k: Kernel, op: Op)
    requires Inv(k) && Enabled(k, op) && Entered(k, op).Some?
    ensures var k0 := Entered(k, op).value;
      && k0.ready == k.ready && k0.h.trace == k.h.trace + Own(k, op) && k0.h.dispatches == k.h.dispatches
      && k0.policy == k.policy && k0.current == k.current && k0.sleepers == Sleepers(k, op)
      && k0.current in k0.threads && (k0.threads[k0.current].state == Running <==> op.OpYield?)
      && Expired(k0.sleepers, Dues(k0.threads), op.e.now) == Expired(Sleepers(k, op), WakeTimes(k, op), op.e.now)
      && Unexpired(k0.sleepers, Dues(k0.threads), op.e.now) == Unexpired(Sleepers(k, op), WakeTimes(k, op), op.e.now)
  {
    hide Inv, Fits, Expired, Unexpired, Dues, WakeTimes;
    EnteredTimes(k, op);
    EnteredRuns(k, op);
  }

  lemma EnteredTimes(k: Kernel, op: Op)
    requires Enabled(k, op) && Entered(k, op).Some?
    ensures Dues(Entered(k, op).value.threads) == WakeTimes(k, op)
  {
    hide Fits;
  }

  lemma EnteredRuns(k: Kernel, op: Op)
    requires Inv(k) && Enabled(k, op) && Entered(k, op).Some?
    ensures var k0 := Entered(k, op).value;
      k0.current in k0.threads && (k0.threads[k0.current].state == Running <==> op.OpYield?)
  {
    hide ListsOk, OrdersOk, LivesOk, Fits;
    if op.OpPoll? { IdleRests(k); }
  }

  lemma IdleRests(k: Kernel)
    requires Inv(k) && k.phase == Idle
    ensures k.threads[k.current].state != Running
  {
    hide ListsOk, OrdersOk, LivesOk;
  }

  /** An operation that enters the scheduler: the caller records what it does; the reported threads, the expired
      sleepers and then a yielding caller join the ready queue, in this order, each recorded; and if anybody is ready then,
      one thread is dispatched, under round robin the first. */
  lemma EntersScheduler(k: Kernel, op: Op)
    requires Inv(k) && Enabled(k, op) && Entered(k, op).Some?
    ensures var (r, due) := (Apply(k, op), Expired(Sleepers(k, op), WakeTimes(k, op), op.e.now));
      var self := if op.OpYield? then [k.current] else [];
      && Follow(k, r, k.ready + op.e.events + due + self,
                k.h.trace + Own(k, op) + Events(op.e.events, Trace.IoUnblock) + Events(due, Trace.Wakeup) + Events(self, Trace.Yield))
      && r.sleepers == Unexpired(Sleepers(k, op), WakeTimes(k, op), op.e.now) && r.clock == op.e.now
  {
    hide Inv, Fits, Expired, Unexpired, Dues, Sleepers, WakeTimes, Own, Domain, Follow, Resume, Schedule, Pass, Apply;
    EnteredEffects(k, op);
    var k0 := Entered(k, op).value;
    var due := Expired(k0.sleepers, Dues(k0.threads), op.e.now);
    if op.OpPoll? || op.OpExit? {
      LastEffects(k, op, k0);
      FollowedFrom(k, k0, Apply(k, op), k0.ready + op.e.events + due);
      NoEvents(k0.ready + op.e.events + due, k0.h.trace + Events(op.e.events, Trace.IoUnblock) + Events(due, Trace.Wakeup));
    } else {
      MiddleEffects(k, op, k0);
      FollowedFrom(k, k0, Apply(k, op), k0.ready + op.e.events + due + if op.OpYield? then [k.current] else []);
    }
  }

  lemma NoEvents(q: seq<Tid>, trace: seq<Event>)
    ensures q + [] == q && trace + Events([], Trace.Yield) == trace
  {
  }

  /** Every other operation that enters the scheduler. */
  lemma MiddleEffects(k: Kernel, op: Op, k0: Kernel)
    requires Inv(k) && Enabled(k, op) && !op.OpPoll? && !op.OpExit? && Entered(k, op) == Some(k0)
    requires k0.current == k.current && k0.current in k0.threads && (k0.threads[k0.current].state == Running <==> op.OpYield?)
    ensures var (r, due) := (Apply(k, op), Expired(k0.sleepers, Dues(k0.threads), op.e.now));
      var self := if op.OpYield? then [k.current] else [];
      && Follow(k0, r, k0.ready + op.e.events + due + self,
                k0.h.trace + Events(op.e.events, Trace.IoUnblock) + Events(due, Trace.Wakeup) + Events(self, Trace.Yield))
      && r.sleepers == Unexpired(k0.sleepers, Dues(k0.threads), op.e.now) && r.clock == op.e.now
  {
    hide ListsOk, ThreadsOk, OrdersOk, LivesOk, Domain, Fits, Expired, Unexpired, Dues, Follow, Resume;
    EnteredKeeps(k, op);
    ResumeEffects(k0, op.e);
  }

  lemma FollowedFrom(k: Kernel, k0: Kernel, r: Kernel, q: seq<Tid>)
    requires k0.h.dispatches == k.h.dispatches && k0.policy == k.policy
    ensures forall tr :: Follow(k0, r, q, tr) ==> Follow(k, r, q, tr)
  {
  }

  /** uthread_exit and a round of the idle loop. */
  lemma LastEffects(k: Kernel, op: Op, k0: Kernel)
    requires Inv(k) && Enabled(k, op) && (op.OpPoll? || op.OpExit?) && Entered(k, op) == Some(k0)
    ensures var (r, due) := (Apply(k, op), Expired(k0.sleepers, Dues(k0.threads), op.e.now));
      && Follow(k0, r, k0.ready + op.e.events + due,
                k0.h.trace + Events(op.e.events, Trace.IoUnblock) + Events(due, Trace.Wakeup))
      && r.sleepers == Unexpired(k0.sleepers, Dues(k0.threads), op.e.now) && r.clock == op.e.now
  {
    hide ListsOk, ThreadsOk, OrdersOk, LivesOk, Fits, Expired, Unexpired, Dues, Pass, Alive, Follow;
    EnteredKeeps(k, op);
    PassEffects(k0, op.e);
    ScheduleEffects(Pass(k0, op.e));
    Followed(k0, Pass(k0, op.e), Schedule(Pass(k0, op.e)));
    IdleFollows(Pass(k0, op.e));
    Followed(k0, Pass(k0, op.e), Pass(k0, op.e).(phase := Idle));
  }

  lemma IdleFollows(k: Kernel)
    ensures k.ready == [] ==> Follow(k, k.(phase := Idle), k.ready, k.h.trace)
  {
  }

  /** An operation that does not enter the scheduler: a woken or a new thread joins the ready queue, and is recorded;
      otherwise queue and trace are as they were. */
  lemma StaysOutside(k: Kernel, op: Op)
    requires Inv(k) && Enabled(k, op) && Entered(k, op).None?
    ensures var r := Apply(k, op);
      && r.sleepers == k.sleepers && r.clock == k.clock && r.h.dispatches == k.h.dispatches && r.current == k.current
      && match op
         case OpUnlock(w) =>
           var q := k.waits[w].m.waiters;
           r.ready == k.ready + q[..if q == [] then 0 else 1]
           && r.h.trace == k.h.trace + if q == [] then [] else [Event(q[0], Trace.Unblock)]
         case OpPost(w) =>
           var q := k.waits[w].s.waiters;
           r.ready == k.ready + q[..if q == [] then 0 else 1]
           && r.h.trace == k.h.trace + if q == [] then [] else [Event(q[0], Trace.Unblock)]
         case OpCreate(t, priority, result) =>
           if result.Made? then r.ready == k.ready + [t] && r.h.trace == k.h.trace + [Event(t, Trace.Create)]
           else r.ready == k.ready && r.h.trace == k.h.trace
         case _ => r.ready == k.ready && r.h.trace == k.h.trace
  {
    hide ListsOk, ThreadsOk, OrdersOk, LivesOk, Fits, Release;
    if op.OpUnlock? {
      ReleaseEffects(k, op.w, Lock(UnlockMutex(k.waits[op.w].m)));
    } else if op.OpPost? {
      ReleaseEffects(k, op.w, Semaphore(PostSem(k.waits[op.w].s)));
    }
  }

  lemma ReleaseEffects(k: Kernel, w: Wid, o: WaitObject)
    requires Inv(k) && w in k.waits && Within(k.threads, Waiters(o))
    ensures var (r, q) := (Release(k, w, o), Waiters(k.waits[w]));
      && r.sleepers == k.sleepers && r.clock == k.clock && r.h.dispatches == k.h.dispatches && r.current == k.current
      && r.ready == k.ready + q[..if q == [] then 0 else 1]
      && r.h.trace == k.h.trace + if q == [] then [] else [Event(q[0], Trace.Unblock)]
  {
    var q := Waiters(k.waits[w]);
    if q != [] {
      WokenFacts(k, w);
      WithoutAbsent(k.sleepers, q[0]);
      assert q[..1] == [q[0]];
    }
    hide ListsOk, ThreadsOk, OrdersOk, LivesOk;
  }

  // ----- priority, age and wake-up time -----

  ghost predicate SameTags(k: Kernel, r: Kernel, t: Tid) {
    t in k.threads && t in r.threads ==>
      && r.threads[t].priority == k.threads[t].priority && r.threads[t].order == k.threads[t].order
      && r.threads[t].due == k.threads[t].due
  }

  lemma PassTags(k: Kernel, e: World, t: Tid)
    requires Domain(k) && Fits(k, e)
    ensures SameTags(k, Pass(k, e), t) && Pass(k, e).threads.Keys == k.threads.Keys
  {
    hide AdmitAll, Due;
    var k1 := AdmitAll(k, e.events, Trace.IoUnblock);
    if t in k.threads {
      AdmitAllThreads(k, e.events, Trace.IoUnblock, t);
      SleepKeepsTags(k1, e.now, t);
    }
  }

  lemma SleepKeepsTags(k: Kernel, now: nat, t: Tid)
    requires Domain(k) && t in k.threads
    ensures SameTags(k, CheckSleep(k, now), t)
  {
    hide AdmitAll;
    AdmitAllThreads(k.(clock := now), Due(k, k.sleepers, now, true), Trace.Wakeup, t);
  }

  lemma BlockTags(k: Kernel, t: Tid)
    ensures SameTags(k, Gc(k), t) && Gc(k).threads.Keys <= k.threads.Keys
    ensures Domain(k) ==> SameTags(k, Requeue(k), t) && Requeue(k).threads.Keys == k.threads.Keys
    ensures Domain(k) ==> SameTags(k, Schedule(k), t) && Schedule(k).threads.Keys == k.threads.Keys
  {
  }

  lemma ResumeTags(k: Kernel, e: World, t: Tid)
    requires Inv(k) && k.phase == Switching && Fits(k, e)
    ensures SameTags(k, Resume(k, e), t) && Resume(k, e).threads.Keys <= k.threads.Keys
  {
    hide Inv, Domain, Fits, Pass, Schedule, Requeue, Gc;
    GcFits(k, e);
    QuietCore(k);
    BlockTags(k, t);
    PassTags(Gc(k), e, t);
    var k1 := Pass(Gc(k), e);
    BlockTags(k1, t);
    BlockTags(Requeue(k1), t);
  }

  lemma LastTags(k: Kernel, op: Op, t: Tid)
    requires Inv(k) && Enabled(k, op) && (op.OpPoll? || op.OpExit?)
    ensures SameTags(k, Apply(k, op), t) && Apply(k, op).threads.Keys == k.threads.Keys
  {
    hide ListsOk, ThreadsOk, OrdersOk, LivesOk, Fits, Pass, Schedule;
    EnteredKeeps(k, op);
    EnteredTags(k, op, t);
    var k0 := Entered(k, op).value;
    PassTags(k0, op.e, t);
    BlockTags(Pass(k0, op.e), t);
  }

  lemma EnteredTags(k: Kernel, op: Op, t: Tid)
    requires Enabled(k, op) && Entered(k, op).Some? && !op.OpSleep?
    ensures SameTags(k, Entered(k, op).value, t) && Entered(k, op).value.threads.Keys == k.threads.Keys
  {
    hide Fits;
  }

  lemma SleepTags(k: Kernel, op: Op, t: Tid)
    requires Enabled(k, op) && op.OpSleep? && t in k.threads
    ensures var k0 := Entered(k, op).value;
      && k0.threads.Keys == k.threads.Keys && k0.threads[t].priority == k.threads[t].priority
      && k0.threads[t].order == k.threads[t].order && k0.threads[t].due == WakeTimes(k, op)[t]
  {
    hide Fits;
  }

  lemma OutsideTags(k: Kernel, op: Op, t: Tid)
    requires Inv(k) && Enabled(k, op) && Entered(k, op).None? && t in k.h.created
    ensures SameTags(k, Apply(k, op), t) && (t in Apply(k, op).threads ==> t in k.threads)
  {
    hide ListsOk, ThreadsOk, OrdersOk, LivesOk, Fits;
  }

  /** No operation changes a thread's priority or creation number; only its own call to uthread_sleep changes its wake-up
      time, to ms milliseconds after the time that call reads. */
  lemma TagsOfApply(k: Kernel, op: Op, t: Tid)
    requires Inv(k) && Enabled(k, op) && t in k.threads && t in Apply(k, op).threads
    ensures var (x, y) := (k.threads[t], Apply(k, op).threads[t]);
      y.priority == x.priority && y.order == x.order && y.due == WakeTimes(k, op)[t]
  {
    hide ListsOk, ThreadsOk, OrdersOk, Fits, Resume, Pass;
    if op.OpPoll? || op.OpExit? {
      LastTags(k, op, t);
    } else if Entered(k, op).Some? {
      EnteredKeeps(k, op);
      if op.OpSleep? { SleepTags(k, op, t); } else { EnteredTags(k, op, t); }
      ResumeTags(Entered(k, op).value, op.e, t);
    } else {
      OutsideTags(k, op, t);
    }
  }

  /** A new thread has the priority asked for and a creation number above all others. */
  lemma CreateTags(k: Kernel, t: Tid, priority: int)
    requires Inv(k) && Enabled(k, OpCreate(t, priority, Made))
    ensures var r := Apply(k, OpCreate(t, priority, Made));
      && t in r.threads && r.threads[t].priority == priority && r.threads[t].state == Ready
      && forall u | u in r.threads && u != t :: u in k.threads && r.threads[u].order < r.threads[t].order
  {
    hide ListsOk, ThreadsOk, LivesOk, Fits;
  }

  /** A creation for which there is no memory makes no thread, but uses up a creation number if it is the stack that
      cannot be had. */
  lemma CreateCounts(k: Kernel, t: Tid, priority: int, result: CreateResult)
    requires Inv(k) && Enabled(k, OpCreate(t, priority, result))
    ensures var r := Apply(k, OpCreate(t, priority, result));
      && r.counter == (if result == NoTcb then k.counter else k.counter + 1)
      && (t in r.threads <==> result == Made)
  {
    hide ListsOk, ThreadsOk, OrdersOk, Fits;
  }

  /** Over a whole run a thread's priority and creation number stay what they are. */
  lemma {:induction false} RankStays(ks: seq<Kernel>, ops: seq<Op>, i: nat, j: nat, t: Tid)
    requires Run(ks, ops) && i <= j < |ks| && t in ks[i].threads && t in ks[j].threads
    ensures ks[j].threads[t].priority == ks[i].threads[t].priority && ks[j].threads[t].order == ks[i].threads[t].order
    decreases j
  {
    hide Inv, Apply, Enabled;
    if i < j {
      RunKeeps(ks, ops, i);
      RunKeeps(ks, ops, j - 1);
      assert Follows(ks[j - 1], ops[j - 1], ks[j]);
      RunDue(ks, ops, i, j - 1);
      CreatedOf(ks[i], t);
      NoReturn(ks[j - 1], ops[j - 1], t);
      RankStays(ks, ops, i, j - 1, t);
      TagsOfApply(ks[j - 1], ops[j - 1], t);
    }
  }

  lemma CreatedOf(k: Kernel, t: Tid)
    requires Inv(k) && t in k.threads
    ensures t in k.h.created
  {
    hide ListsOk, ThreadsOk, OrdersOk;
  }

  /** Who has left the global list does not come back. */
  lemma NoReturn(k: Kernel, op: Op, t: Tid)
    requires Inv(k) && Enabled(k, op) && t in k.h.created && t in Apply(k, op).threads
    ensures t in k.threads
  {
    StepDue(k, op);
    hide Inv, Apply, Enabled;
  }

  // ----- garbage collection -----

  lemma GcLeaves(k: Kernel)
    requires k.current in k.threads && k.threads[k.current].state != Finished
    ensures forall t | t in Gc(k).threads :: Gc(k).threads[t].state != Finished
  {
  }

  lemma PassFinishes(k: Kernel, e: World, t: Tid)
    requires Inv(k) && k.phase != Idle && Fits(k, e) && t in k.threads && k.threads[t].state != Finished
    ensures t in Pass(k, e).threads && Pass(k, e).threads[t].state != Finished
  {
    var k1 := AdmitAll(k, e.events, Trace.IoUnblock);
    AdmitAllThreads(k, e.events, Trace.IoUnblock, t);
    AdmitAllThreads(k1.(clock := e.now), Due(k1, k1.sleepers, e.now, true), Trace.Wakeup, t);
    hide Inv, Domain, AdmitAll;
  }

  lemma ResumeCollects(k: Kernel, e: World)
    requires Inv(k) && k.phase == Switching && Fits(k, e) && k.threads[k.current].state != Finished
    ensures forall t | t in Resume(k, e).threads :: Resume(k, e).threads[t].state != Finished
  {
    hide ListsOk, ThreadsOk, OrdersOk, LivesOk, Fits, Pass, Gc, Requeue, Schedule;
    GcFits(k, e);
    QuietCore(k);
    GcLeaves(k);
    var k1 := Pass(Gc(k), e);
    PassKeys(Gc(k), e);
    forall t | t in k1.threads ensures k1.threads[t].state != Finished { PassFinishes(Gc(k), e, t); }
    BlockFinishes(k1);
    BlockFinishes(Requeue(k1));
  }

  lemma PassKeys(k: Kernel, e: World)
    requires Domain(k) && Fits(k, e)
    ensures Pass(k, e).threads.Keys == k.threads.Keys && Domain(Pass(k, e))
  {
  }

  lemma BlockFinishes(k: Kernel)
    requires Domain(k) && forall t | t in k.threads :: k.threads[t].state != Finished
    ensures Domain(Requeue(k)) && forall t | t in Requeue(k).threads :: Requeue(k).threads[t].state != Finished
    ensures forall t | t in Schedule(k).threads :: Schedule(k).threads[t].state != Finished
  {
  }

  /** Every uthread_create, every yield and every call that blocks collects: no finished thread is left on the global
      list then. */
  lemma Collects(k: Kernel, op: Op)
    requires Inv(k) && Enabled(k, op) && !op.OpPoll? && !op.OpExit? && (op.OpCreate? || Entered(k, op).Some?)
    ensures forall t | t in Apply(k, op).threads :: Apply(k, op).threads[t].state != Finished
  {
    UserRuns(k);
    if op.OpCreate? {
      GcLeaves(k);
      hide ListsOk, ThreadsOk, OrdersOk, LivesOk, Fits, Gc;
    } else {
      hide ListsOk, ThreadsOk, OrdersOk, LivesOk, Fits, Resume;
      EnteredKeeps(k, op);
      ResumeCollects(Entered(k, op).value, op.e);
    }
  }

  // ----- sleeping: not too late either -----

  lemma {:induction false} UnexpiredLate(q: seq<Tid>, due: map<Tid, nat>, now: nat, t: Tid)
    requires t in Unexpired(q, due, now)
    ensures t in q && (t in due ==> due[t] > now)
  {
    if t in Unexpired(q[1..], due, now) { UnexpiredLate(q[1..], due, now, t); }
  }

  /** After every operation each sleeper's wake-up time is still to come; what time that is only its own call decides. */
  lemma StepOnTime(k: Kernel, op: Op, t: Tid)
    requires Inv(k) && Enabled(k, op) && t in k.threads && t in Apply(k, op).sleepers
    ensures Entered(k, op).Some? ==> t in Sleepers(k, op) && Apply(k, op).clock < WakeTimes(k, op)[t]
    ensures Entered(k, op).None? ==> t in k.sleepers && Apply(k, op).clock == k.clock
  {
    hide Inv, Fits, Apply, Follow;
    if Entered(k, op).Some? {
      EntersScheduler(k, op);
      UnexpiredLate(Sleepers(k, op), WakeTimes(k, op), op.e.now, t);
    } else {
      StaysOutside(k, op);
    }
  }

  /** A sleeper's wake-up time does not change while it sleeps. */
  lemma {:induction false} NoLateWakeup(ks: seq<Kernel>, ops: seq<Op>, i: nat, j: nat, t: Tid, due: nat)
    requires Run(ks, ops) && i < j < |ks| && ops[i].OpSleep? && t == ks[i].current
    requires due == ops[i].at + ops[i].ms * 1000000
    requires forall h | i < h <= j :: t in ks[h].sleepers
    ensures t in ks[j].threads && ks[j].threads[t].due == due && ks[j].clock < due
    decreases j
  {
    hide Inv, Apply, Enabled;
    RunKeeps(ks, ops, j - 1);
    RunKeeps(ks, ops, j);
    assert Follows(ks[j - 1], ops[j - 1], ks[j]);
    CurrentLives(ks[j - 1]);
    SleeperLives(ks[j], t);
    if i < j - 1 {
      NoLateWakeup(ks, ops, i, j - 1, t, due);
      SleeperWaits(ks[j - 1], ops[j - 1], t);
    }
    StepOnTime(ks[j - 1], ops[j - 1], t);
    TagsOfApply(ks[j - 1], ops[j - 1], t);
    hide Entered;
  }

  lemma CurrentLives(k: Kernel)
    requires Inv(k)
    ensures k.current in k.threads
  {
    hide ListsOk, OrdersOk, LivesOk;
  }

  lemma SleeperLives(k: Kernel, t: Tid)
    requires Inv(k) && t in k.sleepers
    ensures t in k.threads
  {
    hide ListsOk, ThreadsOk, OrdersOk, LivesOk;
  }

  /** A sleeper makes no call. */
  lemma SleeperWaits(k: Kernel, op: Op, t: Tid)
    requires Inv(k) && Enabled(k, op) && t in k.sleepers
    ensures op.OpPoll? || t != k.current
  {
    hide OrdersOk, LivesOk, WaitsOk, EpollOk, Fits;
  }
}
