/** What holds over whole runs of the 1:N scheduler. */
module KernelRuns {
  import opened Basics
  import opened WaitObjects
  import opened Kernel
  import opened KernelSteps
  import Trace

  /** The state uthread_init leaves behind: one running thread, number 0, and empty queues. */
  function Boot(epollOpen: bool): Kernel {
    Kernel(User, 0, map[0 := Thread(Running, Nowhere, 0, 0, 0)], [], [], {}, map[], 0, RoundRobin, 1, epollOpen,
           History({0}, {}, [], [], None, []))
  }

  lemma BootOk(epollOpen: bool)
    ensures Inv(Boot(epollOpen))
  {
  }

  /** Apply is defined on states that satisfy the invariant, which RunKeeps shows all of them do. */
  ghost predicate Follows(k: Kernel, op: Op, k': Kernel) {
    Inv(k) ==> Enabled(k, op) && k' == Apply(k, op)
  }

  /** ks is a run: ops[i] leads from ks[i] to ks[i + 1]. */
  ghost predicate Run(ks: seq<Kernel>, ops: seq<Op>) {
    && |ks| == |ops| + 1 && Inv(ks[0]) && ks[0].phase != Switching
    && forall i, j | 0 <= i && j == i + 1 < |ks| :: Follows(ks[i], ops[i], ks[j])
  }

  lemma {:induction false} RunKeeps(ks: seq<Kernel>, ops: seq<Op>, i: nat)
    requires Run(ks, ops) && i < |ks|
    ensures Inv(ks[i]) && ks[i].phase != Switching
    decreases i
  {
    hide Inv, Apply, Enabled;
    if i > 0 {
      RunKeeps(ks, ops, i - 1);
      assert Follows(ks[i - 1], ops[i - 1], ks[i]);
      ApplyKeeps(ks[i - 1], ops[i - 1]);
    }
  }

  /** In every state of a run each thread's state tells exactly which list it is in, and no list
      holds a thread twice. */
  lemma Located(ks: seq<Kernel>, ops: seq<Op>, i: nat, t: Tid)
    requires Run(ks, ops) && i < |ks| && t in ks[i].threads
    ensures var k := ks[i]; var s := k.threads[t].state;
      && NoDup(k.ready) && NoDup(k.sleepers) && (forall w | w in k.waits :: NoDup(Waiters(k.waits[w])))
      && (s == Ready <==> t in k.ready)
      && (s == Running <==> t == k.current && k.phase == User)
      && (s == IoBlocked <==> t in k.sleepers || t in k.epoll)
      && !(t in k.sleepers && t in k.epoll)
      && (s == Blocked <==> exists w :: w in k.waits && t in Waiters(k.waits[w]))
      && (forall v, w | v in k.waits && w in k.waits && t in Waiters(k.waits[v]) && t in Waiters(k.waits[w]) :: v == w)
  {
    RunKeeps(ks, ops, i);
    var k := ks[i];
    hide OrdersOk, LivesOk, WaitObjectOk, Run;
    if k.threads[t].state == Blocked {
      assert t in Waiters(k.waits[k.threads[t].place.w]);
    }
  }

  /** No run ever frees a thread too early: a created thread that is no longer on the global list has
      exited, and neither the scheduler nor any queue can still reach it. */
  lemma FreedUnreachable(ks: seq<Kernel>, ops: seq<Op>, i: nat, t: Tid)
    requires Run(ks, ops) && i < |ks| && t in ks[i].h.created && t !in ks[i].threads
    ensures var k := ks[i];
      && t in k.h.exited && t != k.current && t !in k.ready && t !in k.sleepers && t !in k.epoll
      && forall w | w in k.waits :: t !in Waiters(k.waits[w])
  {
    RunKeeps(ks, ops, i);
    hide ListsOk, ThreadsOk, OrdersOk, Run;
  }

  // ----- round robin: admission order -----

  /** Every thread ever dispatched, then every thread now waiting for the CPU, in queue order. */
  function Admissions(k: Kernel): seq<Tid> { k.h.dispatches + k.ready }

  ghost predicate Orderly(k: Kernel, k': Kernel) {
    Admissions(k) <= Admissions(k') && k.h.dispatches <= k'.h.dispatches
  }

  lemma AdmitOrder(k: Kernel, ts: seq<Tid>, e: Trace.EventType)
    requires Domain(k) && Within(k.threads, ts)
    ensures Orderly(k, AdmitAll(k, ts, e))
  {
    AdmitAllFields(k, ts, e);
    hide Domain, AdmitAll;
  }

  lemma PassOrder(k: Kernel, e: World)
    requires Domain(k) && Fits(k, e)
    ensures Orderly(k, Pass(k, e)) && Pass(k, e).policy == k.policy
  {
    var k1 := AdmitAll(k, e.events, Trace.IoUnblock);
    AdmitOrder(k, e.events, Trace.IoUnblock);
    AdmitAllFields(k, e.events, Trace.IoUnblock);
    var k2 := k1.(clock := e.now);
    AdmitOrder(k2, Due(k1, k1.sleepers, e.now, true), Trace.Wakeup);
    AdmitAllFields(k2, Due(k1, k1.sleepers, e.now, true), Trace.Wakeup);
    hide Domain, AdmitAll, Due;
  }

  lemma ScheduleOrder(k: Kernel)
    requires Domain(k) && k.policy == RoundRobin
    ensures Orderly(k, Schedule(k))
  {
    hide Domain, Alive;
    if k.ready != [] {
      var t := k.ready[0];
      assert Without(k.ready, t) == k.ready[1..];
      assert k.h.dispatches + [t] + k.ready[1..] == k.h.dispatches + k.ready;
    }
  }

  lemma EnteredOrder(k: Kernel, op: Op)
    requires Enabled(k, op)
    ensures var k1 := Entered(k, op); k1.Some? ==> Orderly(k, k1.value) && k1.value.policy == k.policy
  {
  }

  lemma QuietOrder(k: Kernel)
    ensures Orderly(k, Gc(k)) && Gc(k).policy == k.policy
    ensures Domain(k) ==> Orderly(k, Requeue(k)) && Requeue(k).policy == k.policy
  {
  }

  lemma ResumeOrder(k: Kernel, e: World)
    requires Inv(k) && Fits(k, e) && k.policy == RoundRobin
    ensures Orderly(k, Resume(k, e))
  {
    hide Inv, Domain, Fits, Pass, Orderly, Schedule, Requeue, Gc;
    GcFits(k, e);
    QuietOrder(k);
    PassOrder(Gc(k), e);
    var k1 := Pass(Gc(k), e);
    QuietOrder(k1);
    ScheduleOrder(Requeue(k1));
    OrderlyTrans(k, Gc(k), k1);
    OrderlyTrans(k, k1, Requeue(k1));
    OrderlyTrans(k, Requeue(k1), Schedule(Requeue(k1)));
  }

  lemma OrderlyTrans(k1: Kernel, k2: Kernel, k3: Kernel)
    requires Orderly(k1, k2) && Orderly(k2, k3)
    ensures Orderly(k1, k3)
  {
  }

  lemma EnterOrder(k: Kernel, op: Op, e: World)
    requires Inv(k) && Enabled(k, op) && k.policy == RoundRobin && Entered(k, op).Some? && op.e == e && !op.OpPoll?
    ensures Orderly(k, Apply(k, op))
  {
    hide Inv, Domain, Fits, Orderly, Resume, Pass, Schedule;
    EnteredKeeps(k, op);
    EnteredOrder(k, op);
    var k0 := Entered(k, op).value;
    if op.OpExit? {
      PassOrder(k0, e);
      ScheduleOrder(Pass(k0, e));
      OrderlyTrans(k, k0, Pass(k0, e));
      OrderlyTrans(k, Pass(k0, e), Schedule(Pass(k0, e)));
    } else {
      ResumeOrder(k0, e);
      OrderlyTrans(k, k0, Resume(k0, e));
    }
  }

  lemma PollOrder(k: Kernel, e: World)
    requires Inv(k) && Enabled(k, OpPoll(e)) && k.policy == RoundRobin
    ensures Orderly(k, Apply(k, OpPoll(e)))
  {
    hide Inv, Domain, Fits, Pass;
    EnteredKeeps(k, OpPoll(e));
    EnteredOrder(k, OpPoll(e));
    var k0 := Entered(k, OpPoll(e)).value;
    PassOrder(k0, e);
    ScheduleOrder(Pass(k0, e));
  }

  /** One operation under round robin only ever appends to the admission order: creations, wake-ups,
      expired timers and yields queue at the back, and dispatching takes from the front. */
  lemma StepOrder(k: Kernel, op: Op)
    requires Inv(k) && Enabled(k, op) && k.policy == RoundRobin
    ensures Orderly(k, Apply(k, op))
  {
    hide Inv, Fits, Resume, Domain;
    if op.OpPoll? {
      PollOrder(k, op.e);
    } else if Entered(k, op).Some? {
      EnterOrder(k, op, op.e);
    }
  }

  ghost predicate AlwaysRoundRobin(ks: seq<Kernel>) {
    forall i | 0 <= i < |ks| :: ks[i].policy == RoundRobin
  }

  lemma {:induction false} RunOrder(ks: seq<Kernel>, ops: seq<Op>, i: nat, j: nat)
    requires Run(ks, ops) && AlwaysRoundRobin(ks) && i <= j < |ks|
    ensures Orderly(ks[i], ks[j])
    decreases j
  {
    hide Inv, Apply, Enabled;
    if i < j {
      RunOrder(ks, ops, i, j - 1);
      RunKeeps(ks, ops, j - 1);
      assert Follows(ks[j - 1], ops[j - 1], ks[j]);
      StepOrder(ks[j - 1], ops[j - 1]);
      OrderlyTrans(ks[i], ks[j - 1], ks[j]);
    }
  }

  /** Bounded waiting: the thread at position p of the ready queue is exactly the (p + 1)-st thread to
      be dispatched from then on, and until then it moves up one place per dispatch. */
  lemma BoundedWaiting(ks: seq<Kernel>, ops: seq<Op>, i: nat, j: nat, p: nat)
    requires Run(ks, ops) && AlwaysRoundRobin(ks) && i <= j < |ks| && p < |ks[i].ready|
    ensures |ks[i].h.dispatches| <= |ks[j].h.dispatches|
    ensures var n := |ks[i].h.dispatches| + p; var t := ks[i].ready[p];
      if n < |ks[j].h.dispatches| then ks[j].h.dispatches[n] == t
      else n - |ks[j].h.dispatches| < |ks[j].ready| && ks[j].ready[n - |ks[j].h.dispatches|] == t
  {
    RunOrder(ks, ops, i, j);
    var n := |ks[i].h.dispatches| + p;
    assert Admissions(ks[j])[n] == Admissions(ks[i])[n] == ks[i].ready[p];
  }

  // ----- priority: every dispatch picks the least ready thread -----

  /** The smaller number is the higher priority; of equal ones the scan's choice has the smaller creation number. */
  lemma {:induction false} BestIsLeast(threads: map<Tid, Thread>, q: seq<Tid>, u: Tid)
    requires q != [] && Within(threads, q) && NoDup(q) && u in q && u != Best(threads, q)
    requires forall s, t | s in q && t in q && s != t && s in threads && t in threads ::
      threads[s].order != threads[t].order
    ensures var (b, x) := (threads[Best(threads, q)], threads[u]);
      b.priority < x.priority || (b.priority == x.priority && b.order < x.order)
  {
    var n := |q| - 1;
    if n > 0 {
      var b := Best(threads, q[..n]);
      assert q == q[..n] + [q[n]];
      if u in q[..n] && u != b { BestIsLeast(threads, q[..n], u); }
    }
  }

  lemma DispatchIsLeast(k: Kernel, u: Tid)
    requires Inv(k) && k.ready != [] && k.policy == Priority
    requires var k' := Dispatch(k, Next(k)); u in k'.threads && k'.threads[u].state == Ready
    ensures var k' := Dispatch(k, Next(k)); var (b, x) := (k'.threads[k'.current], k'.threads[u]);
      b.priority < x.priority || (b.priority == x.priority && b.order < x.order)
  {
    hide LivesOk, WaitsOk, EpollOk;
    assert u in k.ready && u != Next(k);
    BestIsLeast(k.threads, k.ready, u);
  }

  // ----- what the scheduler leaves alone -----

  /** The parts of the state that a scheduling pass does not touch. */
  ghost predicate SameCore(k: Kernel, k': Kernel) {
    && k'.waits == k.waits && k'.policy == k.policy && k'.counter == k.counter && k'.epollOpen == k.epollOpen
    && k'.h.created == k.h.created && k'.h.exited == k.h.exited
  }

  lemma QuietCore(k: Kernel)
    ensures SameCore(k, Gc(k)) && Gc(k).phase == k.phase && Gc(k).h == k.h
    ensures k.current in k.threads ==> Gc(k).current == k.current && Gc(k).threads[k.current] == k.threads[k.current]
    ensures Domain(k) ==> Requeue(k).threads[Requeue(k).current].state in {k.threads[k.current].state, Ready}
    ensures Domain(k) ==> SameCore(k, Requeue(k)) && Requeue(k).h.dispatches == k.h.dispatches
  {
  }

  /** uthread_yield ends by dispatching, by idling or by ending the process. */
  lemma ResumeShape(k: Kernel, e: World) returns (k2: Kernel)
    requires Inv(k) && k.phase == Switching && Fits(k, e)
    ensures Parked(k2) && SameCore(k, k2) && Domain(k2) && Resume(k, e) == Schedule(k2)
    ensures k2.h.dispatches == k.h.dispatches
    ensures k.threads[k.current].state != Finished ==> k2.threads[k2.current].state != Finished
    ensures k.threads[k.current].state == Running ==> k2.threads[k2.current].state == Ready
  {
    hide ListsOk, OrdersOk, LivesOk, ThreadsOk, Fits, Pass, Schedule, Gc;
    GcFits(k, e);
    QuietCore(k);
    PassCurrent(Gc(k), e);
    PassKeeps(Gc(k), e);
    var k1 := Pass(Gc(k), e);
    QuietCore(k1);
    if k1.threads[k1.current].state == Running { ParkReadyKeeps(k1); }
    k2 := Requeue(k1);
  }

  lemma UserRuns(k: Kernel)
    requires Inv(k) && k.phase == User
    ensures Runs(k)
  {
    hide ListsOk, OrdersOk, LivesOk;
  }

  /** The same for every operation that enters the scheduler. */
  lemma EnterShape(k: Kernel, op: Op) returns (k2: Kernel)
    requires Inv(k) && Enabled(k, op) && Entered(k, op).Some? && !op.OpPoll?
    ensures Parked(k2) && Domain(k2) && Apply(k, op) == Schedule(k2) && SameCore(Entered(k, op).value, k2)
    ensures k2.h.dispatches == k.h.dispatches
    ensures !op.OpExit? ==> k2.threads[k2.current].state != Finished
    ensures op.OpYield? ==> k2.threads[k2.current].state == Ready
  {
    hide ListsOk, OrdersOk, LivesOk, ThreadsOk, Domain, Fits, Pass, Resume, Schedule;
    UserRuns(k);
    EnteredKeeps(k, op);
    var k0 := Entered(k, op).value;
    assert k0.h.dispatches == k.h.dispatches;
    if op.OpExit? {
      PassKeeps(k0, op.e);
      PassCurrent(k0, op.e);
      k2 := Pass(k0, op.e);
    } else {
      k2 := ResumeShape(k0, op.e);
    }
  }

  /** Under the priority policy every dispatch, whatever the operation that leads to it, picks the
      thread that precedes all other ready threads by priority and then by age. */
  lemma PriorityDispatch(ks: seq<Kernel>, ops: seq<Op>, i: nat, u: Tid)
    requires Run(ks, ops) && i < |ops| && ks[i].policy == Priority
    requires ks[i + 1].h.dispatches != ks[i].h.dispatches
    requires u in ks[i + 1].threads && ks[i + 1].threads[u].state == Ready
    ensures ks[i + 1].phase == User
    ensures ks[i + 1].current in ks[i + 1].threads
    ensures var (b, x) := (ks[i + 1].threads[ks[i + 1].current], ks[i + 1].threads[u]);
      b.priority < x.priority || (b.priority == x.priority && b.order < x.order)
  {
    hide ListsOk, OrdersOk, LivesOk, ThreadsOk, Apply, Fits;
    RunKeeps(ks, ops, i);
    assert Follows(ks[i], ops[i], ks[i + 1]);
    DispatchShape(ks[i], ops[i]);
    var k2: Kernel :| Inv(k2) && k2.ready != [] && k2.policy == ks[i].policy && Apply(ks[i], ops[i]) == Dispatch(k2, Next(k2));
    hide Run;
    DispatchIsLeast(k2, u);
  }

  /** An operation that dispatches ends with Dispatch of Next on a state that satisfies the invariant. */
  lemma DispatchShape(k: Kernel, op: Op)
    requires Inv(k) && Enabled(k, op) && Apply(k, op).h.dispatches != k.h.dispatches
    ensures exists k2: Kernel :: Inv(k2) && k2.ready != [] && k2.policy == k.policy && Apply(k, op) == Dispatch(k2, Next(k2))
  {
    hide ListsOk, OrdersOk, LivesOk, ThreadsOk, Domain, Fits, Pass, Resume, Alive, Dispatch, Release, Spawn;
    if op.OpPoll? {
      PollShape(k, op.e);
    } else if Entered(k, op).Some? {
      var k2 := EnterShape(k, op);
      assert Inv(k2);
    } else {
      PlainShape(k, op);
    }
  }

  lemma PollShape(k: Kernel, e: World)
    requires Inv(k) && Enabled(k, OpPoll(e))
    ensures var k1 := Pass(k.(phase := Switching), e);
      && Inv(k1) && k1.policy == k.policy && k1.h.dispatches == k.h.dispatches
      && Apply(k, OpPoll(e)) == if k1.ready != [] then Schedule(k1) else k1.(phase := Idle)
  {
    hide ListsOk, OrdersOk, LivesOk, ThreadsOk, Fits, Pass, Schedule;
    EnteredKeeps(k, OpPoll(e));
    PassKeeps(k.(phase := Switching), e);
  }

  lemma PlainShape(k: Kernel, op: Op)
    requires Inv(k) && Enabled(k, op) && Entered(k, op).None?
    ensures Apply(k, op).h.dispatches == k.h.dispatches
  {
    hide ListsOk, OrdersOk, LivesOk, ThreadsOk, Fits;
  }

  // ----- the policy in force -----

  lemma PolicyOfApply(k: Kernel, op: Op)
    requires Inv(k) && Enabled(k, op)
    ensures Apply(k, op).policy == if op.OpPolicy? then op.p else k.policy
  {
    hide ListsOk, OrdersOk, LivesOk, ThreadsOk, Domain, Fits, Pass, Resume, Alive;
    if op.OpPoll? {
      PollShape(k, op.e);
    } else if Entered(k, op).Some? {
      var k2 := EnterShape(k, op);
    }
  }

  /** The policy in force is the one last set. */
  lemma {:induction false} PolicyLastSet(ks: seq<Kernel>, ops: seq<Op>, i: nat, j: nat, p: Policy)
    requires Run(ks, ops) && i < j < |ks| && ops[i] == OpPolicy(p)
    requires forall h | i < h < j :: !ops[h].OpPolicy?
    ensures ks[j].policy == p
    decreases j
  {
    hide Inv, Apply, Enabled;
    RunKeeps(ks, ops, j - 1);
    assert Follows(ks[j - 1], ops[j - 1], ks[j]);
    PolicyOfApply(ks[j - 1], ops[j - 1]);
    if i < j - 1 { PolicyLastSet(ks, ops, i, j - 1, p); }
  }

  // ----- shutdown -----

  /** With an epoll descriptor the process ends only when every thread ever created has exited; a
      thread that yields or blocks never ends it. */
  lemma HaltSound(ks: seq<Kernel>, ops: seq<Op>, i: nat, t: Tid)
    requires Run(ks, ops) && i < |ops| && ks[i].epollOpen && ks[i + 1].phase == Halted
    requires t in ks[i + 1].h.created
    ensures t in ks[i + 1].h.exited && ops[i].OpExit?
  {
    hide ListsOk, OrdersOk, Fits, Apply;
    RunKeeps(ks, ops, i);
    RunKeeps(ks, ops, i + 1);
    assert Follows(ks[i], ops[i], ks[i + 1]);
    hide Run;
    HaltStep(ks[i], ops[i]);
  }

  lemma HaltStep(k: Kernel, op: Op)
    requires Inv(k) && Enabled(k, op) && k.epollOpen && Apply(k, op).phase == Halted
    ensures op.OpExit? && !Alive(Apply(k, op))
  {
    hide ListsOk, OrdersOk, LivesOk, Fits, Pass, Resume;
    if op.OpPoll? {
    } else if Entered(k, op).Some? {
      var k2 := EnterShape(k, op);
      EnteredKeeps(k, op);
    }
  }

  /** A preempted or yielding thread always finds a next thread to run, possibly itself: schedule_next
      returns NULL in uthread_yield only to a thread that is waiting. */
  lemma YieldDispatches(ks: seq<Kernel>, ops: seq<Op>, i: nat)
    requires Run(ks, ops) && i < |ops| && ops[i].OpYield?
    ensures ks[i + 1].phase == User && |ks[i + 1].h.dispatches| == |ks[i].h.dispatches| + 1
  {
    hide OrdersOk, LivesOk, WaitsOk, EpollOk, Fits, Resume;
    RunKeeps(ks, ops, i);
    assert Follows(ks[i], ops[i], ks[i + 1]);
    hide Run;
    var k2 := EnterShape(ks[i], ops[i]);
    assert k2.current in k2.ready;
  }

  // ----- mutexes and semaphores inside whole-system runs -----

  /** Scheduling does not touch the wait objects. */
  lemma WaitsOfApply(k: Kernel, op: Op)
    requires Inv(k) && Enabled(k, op)
    ensures Apply(k, op).waits == match op
      case OpLock(w, e) => k.waits[w := Locked(k, w)]
      case OpWait(w, e) => k.waits[w := Waited(k, w)]
      case OpUnlock(w) => k.waits[w := Lock(UnlockMutex(k.waits[w].m))]
      case OpPost(w) => k.waits[w := Semaphore(PostSem(k.waits[w].s))]
      case OpNewMutex(w) => k.waits[w := Lock(NewMutex())]
      case OpNewSem(w, count) => k.waits[w := Semaphore(NewSem(count))]
      case _ => k.waits
  {
    hide ListsOk, ThreadsOk, OrdersOk, LivesOk, Fits, Pass, Resume, Schedule;
    if op.OpPoll? {
      EnteredKeeps(k, op);
      PassKeeps(Entered(k, op).value, op.e);
      ScheduleWaits(Pass(Entered(k, op).value, op.e));
    } else if Entered(k, op).Some? {
      var k2 := EnterShape(k, op);
      assert Schedule(k2).waits == k2.waits by { ScheduleWaits(k2); }
    }
  }

  lemma ScheduleWaits(k: Kernel)
    requires Domain(k)
    ensures Schedule(k).waits == k.waits
  {
  }

  lemma IdleInQueues(k: Kernel, w: Wid)
    requires Inv(k) && k.phase == User && w in k.waits
    ensures k.current !in Waiters(k.waits[w])
  {
    hide OrdersOk, LivesOk, WaitObjectOk, EpollOk;
  }

  /** What one operation does to one wait object: nothing, or one call on it by a thread that is not
      waiting, which for unlock is the owner. */
  lemma WaitObjectStep(k: Kernel, op: Op, w: Wid)
    requires Inv(k) && Enabled(k, op) && w in k.waits
    ensures w in Apply(k, op).waits
    ensures match k.waits[w]
      case Lock(m) => Apply(k, op).waits[w].Lock? && MutexStep(m, Apply(k, op).waits[w].m)
      case Semaphore(s) => Apply(k, op).waits[w].Semaphore? && SemStep(s, Apply(k, op).waits[w].s)
  {
    WaitsOfApply(k, op);
    hide Inv, Apply, Fits;
    if !op.OpPoll? { IdleInQueues(k, w); }
  }

  /** The life of mutex w during the run from ks[i] on is a run of its own. */
  lemma {:induction false} MutexLife(ks: seq<Kernel>, ops: seq<Op>, i: nat, j: nat, w: Wid) returns (ms: seq<Mutex<Tid>>)
    requires Run(ks, ops) && i <= j < |ks| && w in ks[i].waits && ks[i].waits[w].Lock?
    ensures MutexRun(ms) && |ms| == j - i + 1
    ensures forall h | i <= h <= j :: w in ks[h].waits && ks[h].waits[w] == Lock(ms[h - i])
    decreases j
  {
    hide Apply, Enabled, ListsOk, ThreadsOk, OrdersOk, LivesOk;
    RunKeeps(ks, ops, j);
    if i == j {
      ms := [ks[i].waits[w].m];
      assert WaitObjectOk(ks[i].waits[w]) by { WaitsAreOk(ks[i], w); }
    } else {
      ms := MutexLife(ks, ops, i, j - 1, w);
      assert Follows(ks[j - 1], ops[j - 1], ks[j]);
      RunKeeps(ks, ops, j - 1);
      WaitObjectStep(ks[j - 1], ops[j - 1], w);
      ms := ms + [ks[j].waits[w].m];
    }
  }

  /** FIFO hand-off in the whole system: the thread waiting at position p owns the mutex in every state
      up to which exactly p + 1 further unlocks of it have happened, whatever else has run meanwhile. */
  lemma HandOff(ks: seq<Kernel>, ops: seq<Op>, i: nat, j: nat, w: Wid, p: nat)
    requires Run(ks, ops) && i <= j < |ks| && w in ks[i].waits && ks[i].waits[w].Lock?
    requires p < |ks[i].waits[w].m.waiters|
    ensures w in ks[j].waits && ks[j].waits[w].Lock?
    ensures var m, m' := ks[i].waits[w].m, ks[j].waits[w].m;
      m'.unlocks == m.unlocks + p + 1 ==> m'.locked && m'.Owner() == Some(m.waiters[p])
  {
    hide Run;
    var ms := MutexLife(ks, ops, i, j, w);
    if ms[j - i].unlocks == ms[0].unlocks + p + 1 { MutexHandOff(ms, 0, j - i, p); }
  }

  /** Mutual exclusion in the whole system: two threads that have called lock on the same mutex, have
      not unlocked it and are not BLOCKED are the same thread, and that thread is the owner. */
  lemma Exclusion(ks: seq<Kernel>, ops: seq<Op>, i: nat, w: Wid, t: Tid, u: Tid)
    requires Run(ks, ops) && i < |ks| && w in ks[i].waits && ks[i].waits[w].Lock?
    requires t in ks[i].waits[w].m.asked && t in ks[i].threads && ks[i].threads[t].state != Blocked
    requires u in ks[i].waits[w].m.asked && u in ks[i].threads && ks[i].threads[u].state != Blocked
    ensures t == u && ks[i].waits[w].m.locked && ks[i].waits[w].m.Owner() == Some(t)
  {
    RunKeeps(ks, ops, i);
    hide Run;
    var ms := [ks[i].waits[w].m];
    WaitsAreOk(ks[i], w);
    assert t !in Waiters(ks[i].waits[w]) && u !in Waiters(ks[i].waits[w]) by {
      WaitersBlocked(ks[i], w, t);
      WaitersBlocked(ks[i], w, u);
    }
    hide Inv;
    MutualExclusion(ms, 0, t, u);
  }

  lemma WaitersBlocked(k: Kernel, w: Wid, t: Tid)
    requires Inv(k) && w in k.waits && t in k.threads && k.threads[t].state != Blocked
    ensures t !in Waiters(k.waits[w])
  {
    hide OrdersOk, LivesOk, EpollOk, WaitObjectOk;
  }

  /** The life of semaphore w during the run from ks[i] on is a run of its own. */
  lemma {:induction false} SemLife(ks: seq<Kernel>, ops: seq<Op>, i: nat, j: nat, w: Wid) returns (ss: seq<Sem<Tid>>)
    requires Run(ks, ops) && i <= j < |ks| && w in ks[i].waits && ks[i].waits[w].Semaphore?
    ensures SemRun(ss) && |ss| == j - i + 1
    ensures forall h | i <= h <= j :: w in ks[h].waits && ks[h].waits[w] == Semaphore(ss[h - i])
    decreases j
  {
    hide Apply, Enabled, ListsOk, ThreadsOk, OrdersOk, LivesOk;
    RunKeeps(ks, ops, j);
    if i == j {
      ss := [ks[i].waits[w].s];
      assert WaitObjectOk(ks[i].waits[w]) by { WaitsAreOk(ks[i], w); }
    } else {
      ss := SemLife(ks, ops, i, j - 1, w);
      assert Follows(ks[j - 1], ops[j - 1], ks[j]);
      RunKeeps(ks, ops, j - 1);
      WaitObjectStep(ks[j - 1], ops[j - 1], w);
      ss := ss + [ks[j].waits[w].s];
    }
  }

  /** Semaphore accounting in the whole system: granted waits + count = initial count + posts, no
      waiter while the count is positive, and the thread waiting at position p has been granted its
      token if and only if p + 1 posts have happened since. */
  lemma Accounting(ks: seq<Kernel>, ops: seq<Op>, i: nat, j: nat, w: Wid)
    requires Run(ks, ops) && i <= j < |ks| && w in ks[i].waits && ks[i].waits[w].Semaphore?
    ensures w in ks[j].waits && ks[j].waits[w].Semaphore?
    ensures var s, s' := ks[i].waits[w].s, ks[j].waits[w].s;
      && s'.count >= 0 && |s'.grants| + s'.count == s'.initial + s'.posts && s'.initial == s.initial
      && (s'.waiters != [] ==> s'.count == 0)
      && forall p | 0 <= p < |s.waiters| ::
           (|s.grants| + p < |s'.grants| <==> s'.posts >= s.posts + p + 1)
           && (|s.grants| + p < |s'.grants| ==> s'.grants[|s.grants| + p] == s.waiters[p])
  {
    hide Run;
    var ss := SemLife(ks, ops, i, j, w);
    SemRunKeeps(ss, 0, j - i);
    forall p | 0 <= p < |ss[0].waiters|
      ensures |ss[0].grants| + p < |ss[j - i].grants| <==> ss[j - i].posts >= ss[0].posts + p + 1
      ensures |ss[0].grants| + p < |ss[j - i].grants| ==> ss[j - i].grants[|ss[0].grants| + p] == ss[0].waiters[p]
    {
      SemHandOff(ss, 0, j - i, p);
    }
  }

  lemma WaitsAreOk(k: Kernel, w: Wid)
    requires Inv(k) && w in k.waits
    ensures WaitObjectOk(k.waits[w])
  {
    hide ThreadsOk, OrdersOk, LivesOk, ListedAs, EpollOk;
  }
}
