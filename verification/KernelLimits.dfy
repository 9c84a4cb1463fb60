/** Where the promises of the 1:N scheduler end: when exactly the process ends with threads still alive,
    and when exactly the priority policy starves a ready thread. */
module KernelLimits {
  import opened Basics
  import opened Kernel
  import opened KernelSteps
  import opened KernelRuns
  import Trace

  // ----- when the process ends -----

  /** Nobody is ready, epoll reports nothing, and no sleeper is due. */
  ghost predicate Still(k: Kernel, e: World) {
    && k.ready == [] && e.events == []
    && (forall t | t in k.sleepers :: t in k.threads && k.threads[t].due > e.now)
  }

  lemma PassStill(k: Kernel, e: World)
    requires Inv(k) && k.phase != Idle && Fits(k, e)
    ensures Pass(k, e).ready == [] <==> Still(k, e)
    ensures Still(k, e) ==> Pass(k, e) == k.(clock := e.now)
  {
    PassFirst(k, e);
    var k1 := AdmitAll(k, e.events, Trace.IoUnblock);
    AdmitAllFields(k, e.events, Trace.IoUnblock);
    AdmitAllFields(k1.(clock := e.now), Due(k1, k1.sleepers, e.now, true), Trace.Wakeup);
    DueMembers(k1, k1.sleepers, e.now, true);
    hide ListsOk, ThreadsOk, OrdersOk, LivesOk;
    var due := Due(k1, k1.sleepers, e.now, true);
    if e.events == [] {
      assert k1 == k;
      assert (due == []) == (forall t | t in k.sleepers :: k.threads[t].due > e.now) by {
        if due != [] { assert due[0] in due; }
      }
    }
  }

  /** The current thread stops running for good or until it is woken, while nothing else can run; and
      either there is no epoll descriptor, or every other thread has exited and this one does. */
  ghost predicate Ends(k: Kernel, op: Op)
    requires Enabled(k, op)
  {
    && !op.OpPoll? && !op.OpYield? && Entered(k, op).Some?
    && Still(k, op.e) && (op.OpSleep? ==> op.at + op.ms * 1000000 > op.e.now)
    && (k.epollOpen ==> op.OpExit? && forall t | t in k.threads && t != k.current :: k.threads[t].state == Finished)
  }

  lemma EnteredStill(k: Kernel, op: Op)
    requires Inv(k) && Enabled(k, op) && Entered(k, op).Some?
    ensures var k0 := Entered(k, op).value;
      && k0.epollOpen == k.epollOpen
      && (Still(k0, op.e) <==> Still(k, op.e) && (op.OpSleep? ==> op.at + op.ms * 1000000 > op.e.now))
  {
    hide OrdersOk, LivesOk, WaitsOk, EpollOk, Fits;
    var k0 := Entered(k, op).value;
    assert op.OpPoll? || k.current !in k.sleepers;
    if op.OpSleep? {
      assert k0.sleepers == [k.current] + k.sleepers;
      assert k.current in k0.sleepers && k0.threads[k.current].due == op.at + op.ms * 1000000;
      forall t ensures t in k0.sleepers <==> t == k.current || t in k.sleepers { }
      assert forall t | t in k.sleepers :: t in k.threads && k0.threads[t] == k.threads[t];
    } else {
      assert k0.sleepers == k.sleepers;
      assert forall t | t in k.sleepers :: t in k.threads && k0.threads[t].due == k.threads[t].due;
    }
  }

  lemma GcStill(k: Kernel, e: World)
    requires Inv(k)
    ensures Still(Gc(k), e) <==> Still(k, e)
    ensures Alive(Gc(k)) <==> Alive(k)
  {
    hide OrdersOk, LivesOk, WaitsOk, EpollOk;
    if Alive(k) {
      var t :| t in k.threads && k.threads[t].state != Finished;
      assert t in Gc(k).threads;
    }
  }

  lemma ResumeEnds(k: Kernel, e: World)
    requires Inv(k) && k.phase == Switching && Fits(k, e) && k.threads[k.current].state != Finished
    ensures Resume(k, e).phase == Halted
      <==> k.threads[k.current].state != Running && Still(k, e) && !k.epollOpen
  {
    GcFits(k, e);
    QuietCore(k);
    GcStill(k, e);
    PassStill(Gc(k), e);
    PassCurrent(Gc(k), e);
    PassKeeps(Gc(k), e);
    hide Inv, Fits, Pass, Gc;
    var k1 := Pass(Gc(k), e);
    assert k.threads[k.current].state != Finished;
    assert Still(k, e) ==> Alive(k1);
  }

  ghost predicate OthersLive(k: Kernel) {
    exists t :: t in k.threads && t != k.current && k.threads[t].state != Finished
  }

  lemma ExitAlive(k: Kernel, now: nat)
    requires k.current in k.threads
    ensures Alive(ParkExit(k).(clock := now)) <==> OthersLive(k)
  {
    var k0 := ParkExit(k).(clock := now);
    if Alive(k0) {
      var t :| t in k0.threads && k0.threads[t].state != Finished;
      assert t in k.threads && t != k.current && k.threads[t].state != Finished;
    }
    if t :| t in k.threads && t != k.current && k.threads[t].state != Finished {
      assert t in k0.threads && k0.threads[t].state != Finished;
    }
  }

  lemma ExitEnds(k: Kernel, e: World)
    requires Inv(k) && Enabled(k, OpExit(e))
    ensures Apply(k, OpExit(e)).phase == Halted <==> Ends(k, OpExit(e))
  {
    EnteredKeeps(k, OpExit(e));
    EnteredStill(k, OpExit(e));
    PassStill(ParkExit(k), e);
    ExitAlive(k, e.now);
    hide Inv, Fits, Pass, Alive, ParkExit, Still;
  }

  /** The process ends at an operation exactly if Ends holds before it. */
  lemma HaltExactly(k: Kernel, op: Op)
    requires Inv(k) && Enabled(k, op)
    ensures Apply(k, op).phase == Halted <==> Ends(k, op)
  {
    hide ListsOk, OrdersOk, LivesOk, Fits, Pass, Resume;
    if op.OpExit? {
      ExitEnds(k, op.e);
    } else if op.OpPoll? {
      PollShape(k, op.e);
    } else if Entered(k, op).Some? {
      EnteredKeeps(k, op);
      EnteredStill(k, op);
      ResumeEnds(Entered(k, op).value, op.e);
    }
  }

  /** Without an epoll descriptor the process ends under a sleeping thread: the only thread sleeps for a
      millisecond, and its sleep is never finished. */
  lemma EndsAsleep() returns (ks: seq<Kernel>, ops: seq<Op>)
    ensures Run(ks, ops) && !ks[0].epollOpen && ops == [OpSleep(1, 0, World([], 0))]
    ensures ks[1].phase == Halted && 0 in ks[1].h.created && 0 !in ks[1].h.exited
  {
    var k, op := Boot(false), OpSleep(1, 0, World([], 0));
    BootOk(false);
    BootSleeps();
    EndsSleeping(k, op);
    ks, ops := [k, Apply(k, op)], [op];
    hide Inv, Apply, Enabled;
  }

  lemma BootSleeps()
    ensures var k, op := Boot(false), OpSleep(1, 0, World([], 0)); Enabled(k, op) && Still(k, op.e)
  {
  }

  lemma EndsSleeping(k: Kernel, op: Op)
    requires Inv(k) && Enabled(k, op) && op.OpSleep? && Still(k, op.e) && op.at + op.ms * 1000000 > op.e.now && !k.epollOpen
    ensures var k' := Apply(k, op); k'.phase == Halted && k'.h.created == k.h.created && k'.h.exited == k.h.exited
  {
    HaltExactly(k, op);
    var k2 := EnterShape(k, op);
    hide ListsOk, ThreadsOk, OrdersOk, LivesOk, Apply, Fits, Still;
    ScheduleCreated(k2);
  }

  lemma ScheduleCreated(k: Kernel)
    requires Domain(k)
    ensures Schedule(k).h.created == k.h.created && Schedule(k).h.exited == k.h.exited
  {
  }

  // ----- whom the priority policy starves -----

  /** The threads that a pass makes ready, or that are ready already. */
  ghost predicate Contends(k: Kernel, e: World, t: Tid) {
    t in k.threads && (t in k.ready || t in e.events || (t in k.sleepers && k.threads[t].due <= e.now))
  }

  /** How the scheduler sees thread t: its priority and its age. */
  ghost predicate SameRank(k: Kernel, k': Kernel, t: Tid) {
    t in k.threads && t in k'.threads && k'.threads[t].priority == k.threads[t].priority && k'.threads[t].order == k.threads[t].order
  }

  lemma PassContends(k: Kernel, e: World, t: Tid)
    requires Inv(k) && k.phase != Idle && Fits(k, e) && t in k.threads
    ensures t in Pass(k, e).ready <==> Contends(k, e, t)
    ensures SameRank(k, Pass(k, e), t)
  {
    PassFirst(k, e);
    var k1 := AdmitAll(k, e.events, Trace.IoUnblock);
    var k2 := k1.(clock := e.now);
    var due := Due(k1, k1.sleepers, e.now, true);
    AdmitAllFields(k, e.events, Trace.IoUnblock);
    AdmitAllThreads(k, e.events, Trace.IoUnblock, t);
    AdmitAllFields(k2, due, Trace.Wakeup);
    AdmitAllThreads(k2, due, Trace.Wakeup, t);
    DueMembers(k1, k1.sleepers, e.now, true);
    SleepersStay(k, k1, e, t);
    hide Inv, Domain, AdmitAll;
  }

  lemma SleepersStay(k: Kernel, k1: Kernel, e: World, t: Tid)
    requires Inv(k) && Inv(k1) && Fits(k, e) && t in k.threads && t in k1.threads
    requires k1.threads[t] == if t in e.events then k.threads[t].(state := Ready, place := InReady) else k.threads[t]
    ensures t !in e.events ==> (t in k1.sleepers <==> t in k.sleepers)
    ensures t in e.events ==> t !in k1.sleepers
  {
    hide OrdersOk, LivesOk, WaitsOk, EpollOk;
  }

  /** a goes before b: the smaller priority number, and of equal ones the smaller creation number. */
  predicate Ahead(a: Thread, b: Thread) {
    a.priority < b.priority || (a.priority == b.priority && a.order < b.order)
  }

  /** A yielding thread under the priority policy is dispatched again at once exactly if it precedes every
      contender by priority and then by age. Age never changes, so it then keeps all of them waiting. */
  lemma RepicksExactly(k: Kernel, e: World)
    requires Inv(k) && Enabled(k, OpYield(e)) && k.policy == Priority
    ensures Apply(k, OpYield(e)).current == k.current
      <==> forall t | Contends(k, e, t) :: Ahead(k.threads[k.current], k.threads[t])
  {
    hide Inv, Enabled, Contends, Apply, Best;
    var k2, b := YieldShape(k, e);
    if b == k.current {
      forall t | Contends(k, e, t) ensures Ahead(k.threads[k.current], k.threads[t]) {
        assert SameRank(k, k2, t);
        BestFirst(k2, b, t);
      }
    } else {
      BestFirst(k2, b, k.current);
      assert Contends(k, e, b);
    }
  }

  lemma BestFirst(k: Kernel, b: Tid, t: Tid)
    requires Inv(k) && t in k.ready && b == Best(k.threads, k.ready) && t != b
    ensures b in k.threads && t in k.threads && Ahead(k.threads[b], k.threads[t])
  {
    hide LivesOk, WaitsOk, EpollOk, ThreadsOk;
    BestIsLeast(k.threads, k.ready, t);
  }

  lemma GcContends(k: Kernel, e: World, t: Tid)
    requires Inv(k) && Fits(k, e) && t in k.threads
    ensures Contends(Gc(k), e, t) <==> Contends(k, e, t)
    ensures t in Gc(k).threads || t == k.current || Contends(k, e, t) ==> SameRank(k, Gc(k), t)
    ensures t == k.current && k.threads[t].state == Running ==> !Contends(k, e, t)
  {
    hide OrdersOk, LivesOk, WaitsOk;
  }

  /** What check_io_events and check_sleep_list leave a yielding thread to compete with. */
  lemma YieldPass(k: Kernel, e: World) returns (k1: Kernel)
    requires Inv(k) && k.phase == Switching && k.threads[k.current].state == Running && Fits(k, e)
    ensures k1.threads.Keys <= k.threads.Keys
    ensures Inv(k1) && OnlyLists(Gc(k).(clock := e.now), k1)
    ensures k1.threads[k1.current].state in {Running, Ready} && Resume(k, e) == Schedule(Requeue(k1))
    ensures forall t | t in k.threads :: t in k1.ready <==> Contends(k, e, t)
    ensures forall t | t in k1.threads || t == k.current || Contends(k, e, t) :: SameRank(k, k1, t)
    ensures !Contends(k, e, k.current)
  {
    GcFits(k, e);
    QuietCore(k);
    PassKeeps(Gc(k), e);
    PassCurrent(Gc(k), e);
    k1 := Pass(Gc(k), e);
    forall t | t in k.threads
      ensures t in k1.ready <==> Contends(k, e, t)
      ensures t in k1.threads || t == k.current || Contends(k, e, t) ==> SameRank(k, k1, t)
      ensures t == k.current ==> !Contends(k, e, t)
    {
      GcContends(k, e, t);
      ContendsPass(k, e, t);
    }
    hide Inv, Fits, Pass, Gc, Contends, Schedule, Requeue, SameRank;
  }

  lemma ContendsPass(k: Kernel, e: World, t: Tid)
    requires Inv(k) && Inv(Gc(k)) && k.phase == Switching && Fits(k, e) && Fits(Gc(k), e) && t in k.threads
    ensures t in Pass(Gc(k), e).ready <==> Contends(Gc(k), e, t)
    ensures SameRank(k, Gc(k), t) ==> SameRank(k, Pass(Gc(k), e), t)
  {
    if t in Gc(k).threads {
      PassContends(Gc(k), e, t);
    } else {
      QuietCore(k);
      PassKeeps(Gc(k), e);
      hide ListsOk, ThreadsOk, OrdersOk, LivesOk, Fits;
    }
  }

  lemma RequeueContends(k: Kernel)
    requires Inv(k) && k.phase == Switching && k.threads[k.current].state in {Running, Ready}
    ensures var r := Requeue(k);
      && Inv(r) && r.policy == k.policy && r.threads.Keys == k.threads.Keys
      && (forall t :: t in r.ready <==> t == k.current || t in k.ready)
      && (forall t | t in k.threads :: SameRank(k, r, t))
  {
    if k.threads[k.current].state == Running { ParkReadyKeeps(k); }
    hide OrdersOk, LivesOk, WaitsOk, EpollOk;
  }

  lemma PhaseContends(k: Kernel, e: World, t: Tid)
    ensures Contends(k.(phase := Switching), e, t) == Contends(k, e, t)
  {
  }

  /** The state in which a yield under the priority policy chooses. */
  lemma YieldShape(k: Kernel, e: World) returns (k2: Kernel, b: Tid)
    requires Inv(k) && Enabled(k, OpYield(e)) && k.policy == Priority
    ensures Inv(k2) && k.current in k2.ready && b in k2.ready && b == Best(k2.threads, k2.ready)
    ensures Apply(k, OpYield(e)) == Dispatch(k2, b) && k2.policy == Priority
    ensures forall t | Contends(k, e, t) :: t in k.threads && t in k2.ready && SameRank(k, k2, t)
    ensures forall t | t == k.current || t in k2.threads :: SameRank(k, k2, t)
    ensures forall t | t in k2.ready && t != k.current :: Contends(k, e, t)
    ensures !Contends(k, e, k.current)
  {
    EnteredKeeps(k, OpYield(e));
    UserRuns(k);
    var k0 := k.(phase := Switching);
    var k1 := YieldPass(k0, e);
    RequeueContends(k1);
    forall t ensures Contends(k0, e, t) == Contends(k, e, t) { PhaseContends(k, e, t); }
    k2, b := Requeue(k1), Best(Requeue(k1).threads, Requeue(k1).ready);
    forall t | t in k2.threads || t == k.current || Contends(k, e, t) ensures SameRank(k, k2, t) {
      assert SameRank(k0, k1, t);
    }
    hide Inv, Fits, Contends, Resume, Gc, Requeue, Best;
  }

  /** The current thread precedes every other thread. */
  ghost predicate Leads(k: Kernel) {
    && k.policy == Priority && k.phase == User && k.current in k.threads
    && forall t | t in k.threads && t != k.current :: Ahead(k.threads[k.current], k.threads[t])
  }

  lemma LeadsOn(k: Kernel, e: World)
    requires Inv(k) && Enabled(k, OpYield(e)) && Leads(k)
    ensures Leads(Apply(k, OpYield(e))) && Apply(k, OpYield(e)).current == k.current
    ensures forall u | u in k.ready :: u in Apply(k, OpYield(e)).ready
  {
    RepicksExactly(k, e);
    hide Inv, Enabled, Contends, Apply, Best;
    var k2, b := YieldShape(k, e);
    forall u | u in k.ready ensures u in Dispatch(k2, b).ready {
      ReadyContends(k, e, u);
      StaysIn(k2.ready, b, u);
    }
    LeadsDispatch(k, k2, b);
  }

  lemma ReadyContends(k: Kernel, e: World, u: Tid)
    requires Inv(k) && u in k.ready
    ensures Contends(k, e, u)
  {
    hide ThreadsOk, OrdersOk, LivesOk, WaitsOk, EpollOk;
  }

  lemma StaysIn(q: seq<Tid>, x: Tid, u: Tid)
    requires u in q && u != x
    ensures u in Without(q, x)
  {
    if q[0] != x && q[0] != u { StaysIn(q[1..], x, u); }
  }

  lemma LeadsDispatch(k: Kernel, k2: Kernel, b: Tid)
    requires Leads(k) && k2.policy == Priority && b == k.current && b in k2.threads
    requires forall t | t in k2.threads :: SameRank(k, k2, t)
    ensures Leads(Dispatch(k2, b))
  {
  }

  /** Starvation under the priority policy: while the thread that precedes all others only yields or is
      preempted, it is dispatched every time, and every other ready thread stays in the queue, one of
      the same priority like any other. */
  lemma {:induction false} Starvation(ks: seq<Kernel>, ops: seq<Op>, i: nat, j: nat)
    requires Run(ks, ops) && i <= j < |ks| && Leads(ks[i])
    requires forall h | i <= h < j :: ops[h].OpYield?
    ensures Leads(ks[j]) && ks[j].current == ks[i].current
    ensures forall u | u in ks[i].ready :: u in ks[j].ready
    decreases j
  {
    hide Inv, Apply, Enabled, Leads;
    if i < j {
      Starvation(ks, ops, i, j - 1);
      RunKeeps(ks, ops, j - 1);
      assert Follows(ks[j - 1], ops[j - 1], ks[j]);
      LeadsOn(ks[j - 1], ops[j - 1].e);
    }
  }

  /** Such a run exists with equal priorities: the main thread chooses the policy and creates a thread. */
  lemma StarvingStart() returns (ks: seq<Kernel>, ops: seq<Op>)
    ensures Run(ks, ops) && |ks| == 3 && Leads(ks[2]) && 1 in ks[2].ready && 1 in ks[2].threads
    ensures ks[2].threads[1].priority == ks[2].threads[ks[2].current].priority
  {
    hide Inv, Enabled, Apply, Leads, Boot;
    var k, k1, k2 := FirstCreate();
    ks, ops := [k, k1, k2], [OpPolicy(Priority), OpCreate(1, 0, Made)];
    assert forall i, j | 0 <= i && j == i + 1 < |ks| :: Follows(ks[i], ops[i], ks[j]);
  }

  lemma FirstCreate() returns (k: Kernel, k1: Kernel, k2: Kernel)
    ensures Inv(k) && k.phase == User
    ensures Enabled(k, OpPolicy(Priority)) && k1 == Apply(k, OpPolicy(Priority))
    ensures Inv(k1) && Enabled(k1, OpCreate(1, 0, Made)) && k2 == Apply(k1, OpCreate(1, 0, Made))
    ensures Leads(k2) && 1 in k2.ready && 1 in k2.threads && k2.threads[1].priority == k2.threads[k2.current].priority
  {
    hide ListsOk, ThreadsOk, OrdersOk, LivesOk, Domain;
    k := Boot(true);
    BootOk(true);
    k1 := k.(policy := Priority);
    ApplyKeeps(k, OpPolicy(Priority));
    k2 := Spawn(Gc(k1), 1, 0, Made);
  }

  // ----- who is never reported -----

  /** The threads that epoll reports in an operation. */
  function Reports(op: Op): seq<Tid> {
    match op
    case OpYield(e) => e.events
    case OpLock(w, e) => e.events
    case OpWait(w, e) => e.events
    case OpSleep(ms, at, e) => e.events
    case OpIo(e) => e.events
    case OpExit(e) => e.events
    case OpPoll(e) => e.events
    case _ => []
  }

  lemma PassUnreported(k: Kernel, e: World, t: Tid)
    requires Inv(k) && k.phase != Idle && Fits(k, e) && t in k.epoll && t !in e.events
    ensures t in Pass(k, e).epoll
  {
    PassFirst(k, e);
    var k1 := AdmitAll(k, e.events, Trace.IoUnblock);
    var due := Due(k1, k1.sleepers, e.now, true);
    assert t in k.threads;
    AdmitAllThreads(k, e.events, Trace.IoUnblock, t);
    assert t !in k1.sleepers && NoDup(k1.sleepers) by { hide OrdersOk, LivesOk, WaitsOk; }
    DueMembers(k1, k1.sleepers, e.now, true);
    AdmitAllThreads(k1.(clock := e.now), due, Trace.Wakeup, t);
    hide Inv, AdmitAll;
  }

  lemma ResumeUnreported(k: Kernel, e: World, t: Tid)
    requires Inv(k) && k.phase == Switching && Fits(k, e) && t in k.epoll && t !in e.events
    ensures t in Resume(k, e).epoll
  {
    hide Inv, Fits, Pass, Domain;
    GcFits(k, e);
    QuietCore(k);
    PassUnreported(Gc(k), e, t);
  }

  lemma EnteredUnreported(k: Kernel, op: Op)
    requires Enabled(k, op)
    ensures Entered(k, op).Some? ==> k.epoll <= Entered(k, op).value.epoll
  {
    hide Fits;
  }

  lemma StepUnreported(k: Kernel, op: Op, t: Tid)
    requires Inv(k) && Enabled(k, op) && t in k.epoll && t !in Reports(op)
    ensures t in Apply(k, op).epoll
  {
    if op.OpPoll? || op.OpExit? {
      LastUnreported(k, op, t);
    } else if Entered(k, op).Some? {
      hide ListsOk, ThreadsOk, OrdersOk, LivesOk, Fits, Resume, Domain;
      EnteredKeeps(k, op);
      EnteredUnreported(k, op);
      ResumeUnreported(Entered(k, op).value, op.e, t);
    } else {
      hide ListsOk, ThreadsOk, OrdersOk, LivesOk, Fits, Pass, Resume, Domain;
    }
  }

  lemma LastUnreported(k: Kernel, op: Op, t: Tid)
    requires Inv(k) && Enabled(k, op) && (op.OpPoll? || op.OpExit?) && t in k.epoll && t !in Reports(op)
    ensures t in Apply(k, op).epoll
  {
    hide ListsOk, ThreadsOk, OrdersOk, LivesOk, Fits, Pass, Alive, Next;
    EnteredKeeps(k, op);
    EnteredUnreported(k, op);
    PassUnreported(Entered(k, op).value, op.e, t);
  }

  /** A thread that epoll never reports, because its registration failed or its descriptor never becomes ready,
      waits for ever: no other event wakes it. */
  lemma {:induction false} UnreportedWaits(ks: seq<Kernel>, ops: seq<Op>, i: nat, j: nat, t: Tid)
    requires Run(ks, ops) && i <= j < |ks| && t in ks[i].epoll
    requires forall h | i <= h < j :: t !in Reports(ops[h])
    ensures t in ks[j].epoll && t in ks[j].threads && ks[j].threads[t].state == IoBlocked
    decreases j
  {
    hide Inv, Apply, Enabled;
    RunKeeps(ks, ops, j);
    if i < j {
      UnreportedWaits(ks, ops, i, j - 1, t);
      RunKeeps(ks, ops, j - 1);
      assert Follows(ks[j - 1], ops[j - 1], ks[j]);
      StepUnreported(ks[j - 1], ops[j - 1], t);
    }
    EpollBlocked(ks[j], t);
  }

  lemma EpollBlocked(k: Kernel, t: Tid)
    requires Inv(k) && t in k.epoll
    ensures t in k.threads && k.threads[t].state == IoBlocked
  {
    hide OrdersOk, LivesOk, WaitsOk, ListedAs;
  }
}
