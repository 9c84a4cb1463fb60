/** A channel used by the threads of the 1:N scheduler: the channel protocol's own steps are scheduler operations
    and accesses by whichever thread is running, with anything else going on between them. */
module ChannelOnScheduler {
  import opened Basics
  import opened WaitObjects
  import K = Kernel
  import S = KernelSteps
  import R = KernelRuns
  import C = Channel

  /** The scheduler, and the channel with the place of every thread in its calls: pc[t] is thread t's. */
  datatype World = World(k: K.Kernel, c: C.Chan)

  /** The channel's two semaphores and its mutex among the wait objects of the scheduler. */
  datatype Names = Names(space: int, messages: int, mutex: int)

  ghost predicate Shows(w: World, n: Names) {
    && n.space != n.messages && n.messages != n.mutex && n.mutex != n.space
    && n.space in w.k.waits && w.k.waits[n.space] == K.Semaphore(w.c.space)
    && n.messages in w.k.waits && w.k.waits[n.messages] == K.Semaphore(w.c.messages)
    && n.mutex in w.k.waits && w.k.waits[n.mutex] == K.Lock(w.c.mutex)
  }

  ghost predicate Sync(w: World, n: Names) { K.Inv(w.k) && w.k.phase != K.Switching && C.Inv(w.c) && Shows(w, n) }

  // ----- what may happen -----

  /** The API call that a thread at p makes next. */
  predicate Calls(p: C.Pc, op: S.Op, n: Names) {
    match p
    case SendWait(v) => op.OpWait? && op.w == n.space
    case SendLock(v) => op.OpLock? && op.w == n.mutex
    case SendUnlock => op == S.OpUnlock(n.mutex)
    case SendPost => op == S.OpPost(n.messages)
    case RecvWait => op.OpWait? && op.w == n.messages
    case RecvLock => op.OpLock? && op.w == n.mutex
    case RecvUnlock(v) => op == S.OpUnlock(n.mutex)
    case RecvPost(v) => op == S.OpPost(n.space)
    case _ => false
  }

  /** It is at an access to the buffer or an index. */
  predicate Accesses(p: C.Pc) { p.SendStore? || p.SendAdvance? || p.RecvLoad? || p.RecvAdvance? }

  /** An operation that is not a call on one of the channel's wait objects. */
  predicate Elsewhere(op: S.Op, n: Names) {
    op.OpLock? || op.OpUnlock? || op.OpWait? || op.OpPost? ==> op.w !in {n.space, n.messages, n.mutex}
  }

  /** Some thread uses the processor for something else, is preempted, waits, exits, or the idle loop polls. */
  ghost predicate Other(w: World, w': World, n: Names) {
    exists op :: Elsewhere(op, n) && R.Follows(w.k, op, w'.k) && w'.c == w.c
  }

  /** The running thread makes the call it is at. Only what the scheduler finds in the outside world is asked
      for: that a caller owns the mutex it unlocks and that no waiting thread runs is proved below. */
  ghost predicate Call(w: World, w': World, n: Names) {
    && w.k.phase == K.User && 0 <= w.k.current < |w.c.pc|
    && exists op :: Calls(w.c.pc[w.k.current], op, n) && (op.OpLock? || op.OpWait? ==> S.Enabled(w.k, op)) && Made(w, w', op)
  }

  /** Both parts have made the step, if it is one. */
  ghost predicate Made(w: World, w': World, op: S.Op) {
    K.Inv(w.k) && S.Enabled(w.k, op) && C.Sizes(w.c) && C.CanStep(w.c, w.k.current) ==>
      w' == World(S.Apply(w.k, op), C.Step(w.c, w.k.current))
  }

  /** The running thread accesses the channel. */
  ghost predicate Access(w: World, w': World) {
    && w.k.phase == K.User && 0 <= w.k.current < |w.c.pc| && Accesses(w.c.pc[w.k.current]) && w'.k == w.k
    && (C.Sizes(w.c) && C.CanStep(w.c, w.k.current) ==> w'.c == C.Step(w.c, w.k.current))
  }

  /** The running thread begins a call or puts a message away. */
  ghost predicate Begins(w: World, w': World) {
    w.k.phase == K.User && exists p :: C.MayBegin(w.c, w.k.current, p) && w' == World(w.k, C.Begin(w.c, w.k.current, p))
  }

  ghost predicate Next(w: World, w': World, n: Names) {
    Other(w, w', n) || Call(w, w', n) || Access(w, w') || Begins(w, w')
  }

  /** The three objects and the channel have just been initialised; everything else is as it may be. */
  ghost predicate Starts(w: World, n: Names) {
    && K.Inv(w.k) && w.k.phase != K.Switching && Shows(w, n)
    && 0 < w.c.capacity <= |w.c.buffer| && w.c == C.Fresh(w.c.capacity, w.c.buffer, |w.c.pc|)
  }

  ghost predicate Run(ws: seq<World>, n: Names) {
    |ws| > 0 && Starts(ws[0], n) && forall i, j | 0 <= i && j == i + 1 < |ws| :: Next(ws[i], ws[j], n)
  }

  // ----- a running thread can make its step -----

  /** Who runs is on none of the channel's wait lists, so it is at a step it can make. */
  lemma RunningCanStep(w: World, n: Names)
    requires Sync(w, n) && w.k.phase == K.User && 0 <= w.k.current < |w.c.pc| && !C.Resting(w.c.pc[w.k.current])
    ensures C.CanStep(w.c, w.k.current)
  {
    R.IdleInQueues(w.k, n.space);
    R.IdleInQueues(w.k, n.messages);
    R.IdleInQueues(w.k, n.mutex);
    assert C.WaitersOk(w.c.pc, w.c.space, w.c.messages, w.c.mutex);
    hide K.Inv, C.Inv;
    var p := w.c.pc[w.k.current];
    assert !C.OnSpace(p) && !C.OnMessages(p) && !C.OnMutex(p);
  }

  /** Who unlocks the channel's mutex owns it. */
  lemma UnlockAllowed(w: World, n: Names)
    requires Sync(w, n) && w.k.phase == K.User && 0 <= w.k.current < |w.c.pc| && C.InSection(w.c.pc[w.k.current])
    ensures S.Enabled(w.k, S.OpUnlock(n.mutex))
  {
    assert C.OwnerOk(w.c.pc, w.c.mutex) && K.Domain(w.k);
    hide K.Inv, C.Inv;
  }

  lemma PostAllowed(w: World, n: Names, s: int)
    requires Sync(w, n) && w.k.phase == K.User && (s == n.space || s == n.messages)
    ensures S.Enabled(w.k, S.OpPost(s))
  {
    assert K.Domain(w.k);
    hide K.Inv, C.Inv;
  }

  lemma CallAllowed(w: World, n: Names, op: S.Op)
    requires Sync(w, n) && w.k.phase == K.User && 0 <= w.k.current < |w.c.pc| && Calls(w.c.pc[w.k.current], op, n)
    requires op.OpLock? || op.OpWait? ==> S.Enabled(w.k, op)
    ensures S.Enabled(w.k, op) && C.CanStep(w.c, w.k.current) && C.Sizes(w.c)
  {
    RunningCanStep(w, n);
    assert C.Sizes(w.c);
    if op.OpUnlock? { UnlockAllowed(w, n); }
    if op.OpPost? { PostAllowed(w, n, op.w); }
    hide Sync, S.Enabled, C.CanStep, C.Sizes;
  }

  // ----- both parts stay together -----

  /** What a step does to the channel's three objects. */
  lemma StepObjects(c: C.Chan, t: int)
    requires C.Sizes(c) && C.CanStep(c, t)
    ensures var (p, r) := (c.pc[t], C.Step(c, t));
      && r.space == (if p.SendWait? then WaitSem(c.space, t) else if p.RecvPost? then PostSem(c.space) else c.space)
      && r.messages == (if p.RecvWait? then WaitSem(c.messages, t) else if p.SendPost? then PostSem(c.messages) else c.messages)
      && r.mutex == (if p.SendLock? || p.RecvLock? then LockMutex(c.mutex, t)
                     else if p.SendUnlock? || p.RecvUnlock? then UnlockMutex(c.mutex) else c.mutex)
  {
    hide C.ResumeHead;
  }

  lemma StepShows(w: World, n: Names, op: S.Op)
    requires Sync(w, n) && w.k.phase == K.User && 0 <= w.k.current < |w.c.pc| && Calls(w.c.pc[w.k.current], op, n)
    requires S.Enabled(w.k, op) && C.CanStep(w.c, w.k.current) && C.Sizes(w.c)
    ensures Shows(World(S.Apply(w.k, op), C.Step(w.c, w.k.current)), n)
  {
    hide K.Inv, C.Inv, S.Apply, C.Step, C.CanStep, C.Sizes, WaitSem, PostSem, LockMutex, UnlockMutex, K.Domain, K.Fits;
    R.WaitsOfApply(w.k, op);
    StepObjects(w.c, w.k.current);
  }

  lemma CallKeeps(w: World, w': World, n: Names)
    requires Sync(w, n) && Call(w, w', n)
    ensures Sync(w', n) && C.Next(w.c, w'.c) && exists op :: R.Follows(w.k, op, w'.k)
  {
    var op :| Calls(w.c.pc[w.k.current], op, n) && (op.OpLock? || op.OpWait? ==> S.Enabled(w.k, op)) && Made(w, w', op);
    CallAllowed(w, n, op);
    StepShows(w, n, op);
    S.ApplyKeeps(w.k, op);
    C.StepKeeps(w.c, w.k.current);
    assert R.Follows(w.k, op, w'.k);
    hide K.Inv, C.Inv, S.Enabled, S.Apply, C.CanStep, C.Step, Shows;
  }

  lemma AccessKeeps(w: World, w': World, n: Names)
    requires Sync(w, n) && Access(w, w')
    ensures Sync(w', n) && C.Next(w.c, w'.c)
  {
    RunningCanStep(w, n);
    C.StepKeeps(w.c, w.k.current);
    assert C.Sizes(w.c);
    AccessShows(w.c, w.k.current);
    hide K.Inv, C.Inv, C.CanStep, C.Step, C.Sizes;
  }

  lemma AccessShows(c: C.Chan, t: int)
    requires C.Sizes(c) && C.CanStep(c, t) && Accesses(c.pc[t])
    ensures var r := C.Step(c, t); r.space == c.space && r.messages == c.messages && r.mutex == c.mutex
  {
  }

  lemma BeginsKeeps(w: World, w': World, n: Names)
    requires Sync(w, n) && Begins(w, w')
    ensures Sync(w', n) && C.Next(w.c, w'.c)
  {
    var p :| C.MayBegin(w.c, w.k.current, p) && w' == World(w.k, C.Begin(w.c, w.k.current, p));
    C.BeginKeeps(w.c, w.k.current, p);
    hide K.Inv, C.Inv, C.MayBegin;
  }

  lemma OtherKeeps(w: World, w': World, n: Names)
    requires Sync(w, n) && Other(w, w', n)
    ensures Sync(w', n) && exists op :: R.Follows(w.k, op, w'.k)
  {
    hide K.Inv, C.Inv, S.Enabled, S.Apply, WaitSem, PostSem, LockMutex, UnlockMutex, K.Domain;
    var op :| Elsewhere(op, n) && R.Follows(w.k, op, w'.k) && w'.c == w.c;
    S.ApplyKeeps(w.k, op);
    ElsewhereShows(w, n, op);
  }

  lemma ElsewhereShows(w: World, n: Names, op: S.Op)
    requires K.Inv(w.k) && S.Enabled(w.k, op) && Shows(w, n) && Elsewhere(op, n)
    ensures Shows(World(S.Apply(w.k, op), w.c), n)
  {
    hide K.Inv, S.Apply, WaitSem, PostSem, LockMutex, UnlockMutex, K.Domain, K.Fits, S.Enabled;
    R.WaitsOfApply(w.k, op);
    NewElsewhere(w.k, op);
    EnabledNames(w.k, op);
  }

  lemma EnabledNames(k: K.Kernel, op: S.Op)
    requires S.Enabled(k, op)
    ensures op.OpLock? || op.OpUnlock? ==> op.w in k.waits && k.waits[op.w].Lock?
    ensures op.OpWait? || op.OpPost? ==> op.w in k.waits && k.waits[op.w].Semaphore?
  {
  }

  lemma NewElsewhere(k: K.Kernel, op: S.Op)
    requires S.Enabled(k, op)
    ensures op.OpNewMutex? || op.OpNewSem? ==> op.w !in k.waits
  {
  }

  /** The projections of one step: the scheduler makes one of its operations or rests, the channel makes one of
      its steps or rests, and both stay together. */
  lemma NextKeeps(w: World, w': World, n: Names)
    requires Sync(w, n) && Next(w, w', n)
    ensures Sync(w', n)
    ensures w'.c == w.c || C.Next(w.c, w'.c)
    ensures w'.k == w.k || exists op :: R.Follows(w.k, op, w'.k)
  {
    hide Sync, R.Follows, C.Next, Call, Access, Begins;
    if Other(w, w', n) {
      OtherKeeps(w, w', n);
      assert w'.c == w.c;
    } else if Call(w, w', n) {
      CallKeeps(w, w', n);
    } else if Access(w, w') {
      AccessKeeps(w, w', n);
      assert w'.k == w.k by { AccessRests(w, w'); }
    } else {
      BeginsKeeps(w, w', n);
      assert w'.k == w.k by { BeginsRests(w, w'); }
    }
  }

  lemma AccessRests(w: World, w': World)
    requires Access(w, w')
    ensures w'.k == w.k
  {
  }

  lemma BeginsRests(w: World, w': World)
    requires Begins(w, w')
    ensures w'.k == w.k
  {
  }

  lemma StartKeeps(w: World, n: Names)
    requires Starts(w, n)
    ensures Sync(w, n)
  {
    C.FreshOk(w.c.capacity, w.c.buffer, |w.c.pc|);
    hide K.Inv, C.Inv;
  }

  // ----- whole runs -----

  /** The channel's part of a run of the whole system is a run of the channel protocol, up to steps in which the
      channel rests: so all that is proved about channel runs holds for channels on this scheduler. */
  lemma {:induction false} ChannelRuns(ws: seq<World>, n: Names, i: nat) returns (cs: seq<C.Chan>)
    requires Run(ws, n) && i < |ws|
    ensures Sync(ws[i], n) && C.Run(cs) && cs[|cs| - 1] == ws[i].c
    decreases i
  {
    hide Sync, Starts, Next, C.Next, C.Fresh;
    if i == 0 {
      StartKeeps(ws[0], n);
      cs := [ws[0].c];
      assert C.Run(cs) by { FreshRun(ws[0], n); }
    } else {
      cs := ChannelRuns(ws, n, i - 1);
      assert Next(ws[i - 1], ws[i], n);
      NextKeeps(ws[i - 1], ws[i], n);
      if ws[i].c != ws[i - 1].c { cs := cs + [ws[i].c]; }
    }
  }

  lemma FreshRun(w: World, n: Names)
    requires Starts(w, n)
    ensures C.Run([w.c])
  {
    hide K.Inv, C.Next, C.Fresh;
  }

  /** The scheduler's part is a run of the scheduler. */
  lemma {:induction false} SchedulerRuns(ws: seq<World>, n: Names, i: nat) returns (ks: seq<K.Kernel>, ops: seq<S.Op>)
    requires Run(ws, n) && i < |ws|
    ensures Sync(ws[i], n) && R.Run(ks, ops) && ks[|ks| - 1] == ws[i].k
    decreases i
  {
    hide Sync, Starts, Next, R.Follows, K.Inv;
    if i == 0 {
      StartKeeps(ws[0], n);
      ks, ops := [ws[0].k], [];
      assert K.Inv(ws[0].k) && ws[0].k.phase != K.Switching by { SyncRun(ws[0], n); }
    } else {
      ks, ops := SchedulerRuns(ws, n, i - 1);
      assert Next(ws[i - 1], ws[i], n);
      NextKeeps(ws[i - 1], ws[i], n);
      if ws[i].k != ws[i - 1].k {
        var op :| R.Follows(ws[i - 1].k, op, ws[i].k);
        ks, ops := ks + [ws[i].k], ops + [op];
      }
    }
  }

  lemma SyncRun(w: World, n: Names)
    requires Sync(w, n)
    ensures K.Inv(w.k) && w.k.phase != K.Switching
  {
    hide K.Inv, C.Inv;
  }

  /** Under any scheduling, with preemption anywhere and any other threads: the channel is a bounded FIFO queue,
      and a thread waits inside a channel call exactly as long as it is BLOCKED on one of its wait objects. */
  lemma ScheduledFifo(ws: seq<World>, n: Names, i: nat, t: int)
    requires Run(ws, n) && i < |ws| && 0 <= t < |ws[i].c.pc|
    ensures var c := ws[i].c;
      && 0 < c.capacity && c.taken <= c.written && |C.Queue(c)| <= c.capacity
      && forall h | 0 <= h < |C.Queue(c)| ::
           (|c.taken| + h) % c.capacity < |c.buffer| && c.buffer[(|c.taken| + h) % c.capacity] == C.Queue(c)[h]
    ensures var (k, p) := (ws[i].k, ws[i].c.pc[t]);
      && (C.Queued(p) ==> t in k.threads && k.threads[t].state == K.Blocked)
      && (t in k.threads && k.threads[t].place in {K.InWait(n.space), K.InWait(n.messages), K.InWait(n.mutex)} ==> C.Queued(p))
  {
    var cs := ChannelRuns(ws, n, i);
    hide Run, Sync, C.Run;
    C.BoundedFifo(cs, |cs| - 1);
    WaitingIsBlocked(ws[i], n, t);
  }

  lemma WaitingIsBlocked(w: World, n: Names, t: int)
    requires Sync(w, n) && 0 <= t < |w.c.pc|
    ensures C.Queued(w.c.pc[t]) ==> t in w.k.threads && w.k.threads[t].state == K.Blocked
    ensures t in w.k.threads && w.k.threads[t].place in {K.InWait(n.space), K.InWait(n.messages), K.InWait(n.mutex)} ==> C.Queued(w.c.pc[t])
  {
    var p := w.c.pc[t];
    assert C.WaitersOk(w.c.pc, w.c.space, w.c.messages, w.c.mutex);
    assert C.OnSpace(p) || C.OnMessages(p) || C.OnMutex(p) <==> C.Queued(p);
    WaiterPlace(w.k, n.space, t);
    WaiterPlace(w.k, n.messages, t);
    WaiterPlace(w.k, n.mutex, t);
    hide K.Inv, C.Inv;
  }

  lemma WaiterPlace(k: K.Kernel, o: int, t: int)
    requires K.Inv(k) && o in k.waits
    ensures t in K.Waiters(k.waits[o]) <==> t in k.threads && k.threads[t].place == K.InWait(o)
    ensures t in K.Waiters(k.waits[o]) ==> k.threads[t].state == K.Blocked
  {
    hide K.OrdersOk, K.LivesOk, K.WaitObjectOk, K.EpollOk;
  }

  /** Such systems exist: any running thread may set up a channel. */
  lemma SetUp(k: K.Kernel, n: Names, capacity: nat, buffer: seq<int>, threads: nat) returns (w: World)
    requires K.Inv(k) && k.phase == K.User && n.space !in k.waits && n.messages !in k.waits && n.mutex !in k.waits
    requires n.space != n.messages && n.messages != n.mutex && n.mutex != n.space && 0 < capacity <= |buffer|
    ensures Starts(w, n) && w.c == C.Fresh(capacity, buffer, threads)
  {
    var k1 := Init(k, S.OpNewSem(n.space, capacity));
    var k2 := Init(k1, S.OpNewSem(n.messages, 0));
    var k3 := Init(k2, S.OpNewMutex(n.mutex));
    hide K.Inv;
    w := World(k3, C.Fresh(capacity, buffer, threads));
  }

  lemma Init(k: K.Kernel, op: S.Op) returns (r: K.Kernel)
    requires K.Inv(k) && k.phase == K.User && (op.OpNewSem? || op.OpNewMutex?) && op.w !in k.waits
    ensures S.Enabled(k, op) && r == S.Apply(k, op) && K.Inv(r) && r.phase == K.User
    ensures r.waits == k.waits[op.w := if op.OpNewSem? then K.Semaphore(NewSem(op.count)) else K.Lock(NewMutex())]
  {
    assert K.Domain(k);
    hide K.ListsOk, K.ThreadsOk, K.OrdersOk, K.LivesOk, K.Domain;
    S.ApplyKeeps(k, op);
    r := S.Apply(k, op);
  }
}
