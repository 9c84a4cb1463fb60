/** What each stage of the heap operations needs to know about the kernel model and its pointers. */
module RuntimeFacts {
  import opened Basics
  import opened Chains
  import opened Wiring
  import K = Kernel
  import S = KernelSteps
  import W = WaitObjects
  import R = KernelRuns
  import Trace

  /** k' is k with the current thread off the CPU, in state s and in no list. */
  ghost predicate Left(k: K.Kernel, k': K.Kernel, s: K.State) {
    && k.current in k.threads && k.current in k'.threads && k'.threads == k.threads[k.current := k'.threads[k.current]]
    && k'.threads[k.current].state == s && !k'.threads[k.current].place.InSleep?
    && k'.threads[k.current].priority == k.threads[k.current].priority
    && k'.threads[k.current].order == k.threads[k.current].order
    && k'.ready == k.ready && k'.sleepers == k.sleepers && k'.waits == k.waits && k'.current == k.current
    && k'.policy == k.policy && k'.epollOpen == k.epollOpen && k'.counter == k.counter
  }

  /** The kernel after the first i sleepers have been looked at. */
  ghost function After(k: K.Kernel, now: nat, i: nat): (r: K.Kernel)
    requires K.Domain(k) && i <= |k.sleepers|
    ensures K.Domain(r) && r.threads.Keys == k.threads.Keys
  {
    K.AdmitAll(k.(clock := now), K.Due(k, k.sleepers[..i], now, true), Trace.Wakeup)
  }

  /** Those of them that sleep on. */
  ghost function Late(k: K.Kernel, now: nat, i: nat): seq<int>
    requires K.Domain(k) && i <= |k.sleepers|
  {
    K.Due(k, k.sleepers[..i], now, false)
  }

  lemma AdmitAllNext(k: K.Kernel, ids: seq<int>, i: nat, e: Trace.EventType)
    requires i < |ids| && K.Domain(k) && K.Within(k.threads, ids)
    ensures K.Within(k.threads, ids[..i]) && K.Within(k.threads, ids[..i + 1])
    ensures ids[i] in K.AdmitAll(k, ids[..i], e).threads
    ensures K.AdmitAll(k, ids[..i + 1], e) == K.Admit(K.AdmitAll(k, ids[..i], e), ids[i], e)
  {
    assert ids[..i + 1][..i] == ids[..i];
    hide K.Domain, K.Admit;
  }

  /** Until its turn comes a reported thread stays registered. */
  lemma StillWaiting(k: K.Kernel, ids: seq<int>, i: nat)
    requires K.Inv(k) && k.phase != K.Idle && NoDup(ids) && i < |ids| && K.Domain(k) && K.Within(k.threads, ids)
    requires forall j | 0 <= j < |ids| :: ids[j] in k.epoll
    ensures K.Within(k.threads, ids[..i]) && K.Within(k.threads, ids[..i + 1])
    ensures var r := K.AdmitAll(k, ids[..i], Trace.IoUnblock);
      K.Inv(r) && r.phase == k.phase && ids[i] in r.epoll && ids[i] in r.threads
      && K.AdmitAll(k, ids[..i + 1], Trace.IoUnblock) == K.Admit(r, ids[i], Trace.IoUnblock)
  {
    hide K.Inv, K.Admit, K.AdmitAll, K.Domain;
    AdmitAllNext(k, ids, i, Trace.IoUnblock);
    forall t | t in ids[..i] && t in k.threads ensures k.threads[t].place == K.InEpoll && k.threads[t].due <= k.clock {
      EpollFacts(k, t);
    }
    S.AdmitAllKeeps(k, ids[..i], Trace.IoUnblock);
    S.AdmitAllFields(k, ids[..i], Trace.IoUnblock);
    S.AdmitAllThreads(k, ids[..i], Trace.IoUnblock, ids[i]);
  }

  lemma UnlockFacts(nx: Pointers, k: K.Kernel, w: int)
    requires K.Inv(k) && Wired(nx, k) && S.Enabled(k, S.OpUnlock(w))
    ensures w in k.waits && k.waits[w].Lock?
    ensures var (k', o) := (S.Apply(k, S.OpUnlock(w)), K.Lock(W.UnlockMutex(k.waits[w].m)));
      Released(nx, k, w, o, k')
  {
    hide Wired, K.Inv;
    S.ReleaseOpKeeps(k, S.OpUnlock(w));
    DomainOf(k);
    ReleaseFacts(nx, k, w, K.Lock(W.UnlockMutex(k.waits[w].m)));
  }

  /** k' is k after the release of w, which has become o. */
  ghost predicate Released(nx: Pointers, k: K.Kernel, w: int, o: K.WaitObject, k': K.Kernel) {
    && w in k.waits && K.Inv(k')
    && k'.waits == k.waits[w := o] && k'.sleepers == k.sleepers && k'.current == k.current && k'.policy == k.policy
    && k'.epollOpen == k.epollOpen && k'.counter == k.counter && k'.threads.Keys == k.threads.Keys
    && var q := K.Waiters(k.waits[w]);
       if q == [] then k'.threads == k.threads && k'.ready == k.ready && Wired(nx, k')
       else
         var t := q[0];
         && t in k.threads && t !in k.ready && k'.threads == k.threads[t := k.threads[t].(state := K.Ready, place := K.InReady)]
         && k'.ready == k.ready + [t] && Linked(nx, q) && Linked(nx[t := None], k.ready)
         && Wired(AppendNx(nx[t := None], Last(k.ready), t), k')
  }

  lemma ReleaseFacts(nx: Pointers, k: K.Kernel, w: int, o: K.WaitObject)
    requires K.Inv(k) && Wired(nx, k) && w in k.waits && K.Domain(k) && K.Within(k.threads, K.Waiters(o))
    requires K.Waiters(o) == if K.Waiters(k.waits[w]) == [] then [] else K.Waiters(k.waits[w])[1..]
    requires K.Inv(S.Release(k, w, o))
    ensures Released(nx, k, w, o, S.Release(k, w, o))
  {
    var (q, r) := (K.Waiters(k.waits[w]), S.Release(k, w, o));
    if q == [] {
      QuietWired(nx, k, w, o);
      hide K.Inv, Wired;
    } else {
      S.WokenFacts(k, w);
      S.ReleaseFields(k, w, o, q[0]);
      ListsOf(nx, k, w);
      hide S.Release, K.Inv, Wired, Linked, AppendNx, K.ListsOk, K.Domain;
      WokenWired(nx, k, w, o, r);
    }
  }

  lemma WokenWired(nx: Pointers, k: K.Kernel, w: int, o: K.WaitObject, r: K.Kernel)
    requires K.Lists(k) && Wired(nx, k) && w in k.waits && K.Waiters(k.waits[w]) != []
    requires var (q, t) := (K.Waiters(k.waits[w]), K.Waiters(k.waits[w])[0]);
      && K.Waiters(o) == q[1..] && t in k.threads && r.waits == k.waits[w := o] && r.sleepers == k.sleepers
      && r.threads == k.threads[t := k.threads[t].(state := K.Ready, place := K.InReady)] && r.ready == k.ready + [t]
    ensures var t := K.Waiters(k.waits[w])[0];
      Wired(AppendNx(nx[t := None], Last(k.ready), t), r) && Linked(nx[t := None], k.ready)
  {
    var t := K.Waiters(k.waits[w])[0];
    assert OnlyMoves(k, r, t);
    hide Wired, Linked, AppendNx, K.ListsOk, OnlyMoves;
    WiredRelease(nx, k, r, w);
    WiredPop(nx, k, k.(waits := r.waits), w);
    ReadyLinked(nx[t := None], k.(waits := r.waits));
  }

  lemma ReadyLinked(nx: Pointers, k: K.Kernel)
    requires Wired(nx, k)
    ensures Linked(nx, k.ready)
  {
  }

  lemma QuietWired(nx: Pointers, k: K.Kernel, w: int, o: K.WaitObject)
    requires Wired(nx, k) && w in k.waits && K.Waiters(o) == K.Waiters(k.waits[w])
    ensures Wired(nx, k.(waits := k.waits[w := o]))
  {
    hide Linked;
  }

  lemma ListsOf(nx: Pointers, k: K.Kernel, w: int)
    requires K.Inv(k) && Wired(nx, k) && w in k.waits && K.Waiters(k.waits[w]) != []
    ensures K.Lists(k) && K.Domain(k) && Linked(nx, K.Waiters(k.waits[w]))
    ensures K.Waiters(k.waits[w])[0] in k.threads && K.Waiters(k.waits[w])[0] !in k.ready
  {
    hide Linked, K.OrdersOk, K.LivesOk;
    WaitersPlaces(k, w);
    assert K.Waiters(k.waits[w])[0] in K.Waiters(k.waits[w]);
  }

  lemma PostFacts(nx: Pointers, k: K.Kernel, w: int)
    requires K.Inv(k) && Wired(nx, k) && S.Enabled(k, S.OpPost(w))
    ensures w in k.waits && k.waits[w].Semaphore?
    ensures var (k', o) := (S.Apply(k, S.OpPost(w)), K.Semaphore(W.PostSem(k.waits[w].s)));
      Released(nx, k, w, o, k')
  {
    hide Wired, K.Inv;
    S.ReleaseOpKeeps(k, S.OpPost(w));
    DomainOf(k);
    ReleaseFacts(nx, k, w, K.Semaphore(W.PostSem(k.waits[w].s)));
  }

  lemma ReadyStates(k: K.Kernel)
    requires K.Inv(k)
    ensures AllReady(k.threads, k.ready)
  {
    hide K.OrdersOk, K.LivesOk;
    forall i | 0 <= i < |k.ready| ensures k.ready[i] in k.threads && k.threads[k.ready[i]].state == K.Ready {
      var t := k.ready[i];
      assert K.StateFits(k.threads[t], t == k.current && k.phase in {K.User, K.Switching}, k.waits.Keys);
    }
  }

  lemma PopOutsideReady(nx: Pointers, q: seq<int>)
    requires q != [] && q[0] in nx
    ensures OutsideSame(nx, nx[q[0] := None], q)
  {
  }

  lemma DispatchFacts(nx: Pointers, nx': Pointers, k: K.Kernel, t: int)
    requires S.Parked(k) && Wired(nx, k) && K.Domain(k) && k.ready != [] && t == K.Next(k)
    requires OutsideSame(nx, nx', k.ready) && Linked(nx', Without(k.ready, t)) && t in nx' && nx'[t] == None
    ensures t in k.threads && K.Inv(K.Dispatch(k, t)) && Wired(nx', K.Dispatch(k, t))
  {
    ListsAre(k);
    hide K.Inv, Wired, Linked, OutsideSame, K.Next, K.ListsOk, K.Domain;
    S.DispatchKeeps(k, t);
    assert OnlyMoves(k, K.Dispatch(k, t), t);
    WiredDispatch(nx, nx', k, K.Dispatch(k, t), t);
  }

  lemma ListsAre(k: K.Kernel)
    requires K.Inv(k)
    ensures K.Lists(k) && forall i | 0 <= i < |k.ready| :: k.ready[i] in k.threads
  {
    hide K.OrdersOk, K.LivesOk, K.ThreadsOk;
  }

  lemma RequeueFacts(nx: Pointers, k: K.Kernel)
    requires K.Inv(k) && Wired(nx, k) && k.phase == K.Switching && k.current in k.threads
    requires k.threads[k.current].state == K.Running
    ensures var (t, k') := (k.current, S.ParkReady(k));
      && t !in k.ready && K.Inv(k') && Wired(AppendNx(nx, Last(k.ready), t), k')
  {
    var (t, k') := (k.current, S.ParkReady(k));
    ListsAre(k);
    RunnerFacts(k);
    hide K.Inv, Wired, K.ListsOk, AppendNx;
    S.ParkReadyKeeps(k);
    assert OnlyMoves(k, k', t);
    WiredReady(nx, k, k', t);
  }

  /** The running thread is in no list. */
  lemma RunnerFacts(k: K.Kernel)
    requires K.Inv(k) && k.current in k.threads && k.threads[k.current].state == K.Running
    ensures k.threads[k.current].place == K.Nowhere && k.current !in k.ready && k.current !in k.sleepers
    ensures k.phase in {K.User, K.Switching}
  {
  }

  lemma ScheduleFacts(k: K.Kernel)
    requires S.Parked(k)
    ensures K.Domain(k) && K.Inv(S.Schedule(k))
  {
    DomainOf(k);
    S.ScheduleKeeps(k);
  }

  /** What the stages of a yield find. */
  lemma RescheduleFacts(k: K.Kernel, e: K.World)
    requires K.Inv(k) && k.phase == K.Switching && K.Fits(k, e)
    ensures var k1 := K.Gc(k);
      && K.Domain(k1) && K.Fits(k1, e) && k1.phase == K.Switching && K.Within(k1.threads, e.events)
      && var k2 := K.AdmitAll(k1, e.events, Trace.IoUnblock);
         && K.Domain(k2) && k2.phase == K.Switching && k2.clock <= e.now
         && var k3 := K.CheckSleep(k2, e.now);
            && K.Domain(k3) && k3.phase == K.Switching && S.Parked(S.Requeue(k3))
            && S.Resume(k, e) == S.Schedule(S.Requeue(k3))
  {
    var k1 := K.Gc(k);
    S.GcFits(k, e);
    WithinOf(k1, e);
    var k2 := K.AdmitAll(k1, e.events, Trace.IoUnblock);
    hide K.Inv, K.Domain, K.AdmitAll, K.CheckSleep, K.Fits, S.Schedule, S.Requeue, S.Parked, K.Gc;
    S.PassFirst(k1, e);
    S.SleepKeeps(k2, e.now);
    RequeueParks(K.CheckSleep(k2, e.now));
  }

  lemma WithinOf(k: K.Kernel, e: K.World)
    requires K.Domain(k) && K.Fits(k, e) && k.phase == K.Switching
    ensures K.Within(k.threads, e.events) && k.clock <= e.now
  {
  }

  lemma RequeueParks(k: K.Kernel)
    requires K.Inv(k) && K.Domain(k) && k.phase == K.Switching
    ensures S.Parked(S.Requeue(k))
  {
    hide K.Inv;
    if k.threads[k.current].state == K.Running { S.ParkReadyKeeps(k); }
  }

  lemma YieldFacts(k: K.Kernel, e: K.World)
    requires K.Inv(k) && S.Enabled(k, S.OpYield(e))
    ensures var k1 := k.(phase := K.Switching);
      K.Inv(k1) && K.Fits(k1, e) && S.Apply(k, S.OpYield(e)) == S.Resume(k1, e)
  {
    S.EnteredKeeps(k, S.OpYield(e));
    hide K.Inv, S.Resume;
  }

  lemma LockFacts(nx: Pointers, k: K.Kernel, w: int, e: K.World)
    requires K.Inv(k) && Wired(nx, k) && S.Enabled(k, S.OpLock(w, e))
    ensures w in k.waits && k.waits[w].Lock? && k.current in k.threads
    ensures var (m, o) := (k.waits[w].m, W.LockMutex(k.waits[w].m, k.current));
      if !m.locked then
        && o.locked && o.waiters == m.waiters && K.Inv(S.Apply(k, S.OpLock(w, e))) && Wired(nx, S.Apply(k, S.OpLock(w, e)))
        && S.Apply(k, S.OpLock(w, e)) == k.(waits := k.waits[w := K.Lock(o)])
      else
        && o.locked && Waiting(nx, k, w, K.Lock(o)) && K.Fits(S.ParkWait(k, w, K.Lock(o)), e)
        && S.ParkWait(k, w, K.Lock(o)).phase == K.Switching
        && S.Apply(k, S.OpLock(w, e)) == S.Resume(S.ParkWait(k, w, K.Lock(o)), e)
  {
    var o := K.Lock(W.LockMutex(k.waits[w].m, k.current));
    S.EnteredKeeps(k, S.OpLock(w, e));
    S.ApplyKeeps(k, S.OpLock(w, e));
    hide K.Inv, Wired, S.Resume;
    if k.waits[w].m.locked { WaitingFacts(nx, k, w, o); } else { QuietWired(nx, k, w, o); }
  }

  lemma WaitFacts(nx: Pointers, k: K.Kernel, w: int, e: K.World)
    requires K.Inv(k) && Wired(nx, k) && S.Enabled(k, S.OpWait(w, e))
    ensures w in k.waits && k.waits[w].Semaphore? && k.current in k.threads
    ensures var (s, o) := (k.waits[w].s, W.WaitSem(k.waits[w].s, k.current));
      if s.count > 0 then
        && o.count == s.count - 1 && o.waiters == s.waiters
        && K.Inv(S.Apply(k, S.OpWait(w, e))) && Wired(nx, S.Apply(k, S.OpWait(w, e)))
        && S.Apply(k, S.OpWait(w, e)) == k.(waits := k.waits[w := K.Semaphore(o)])
      else
        && o.count == s.count && Waiting(nx, k, w, K.Semaphore(o)) && K.Fits(S.ParkWait(k, w, K.Semaphore(o)), e)
        && S.Apply(k, S.OpWait(w, e)) == S.Resume(S.ParkWait(k, w, K.Semaphore(o)), e)
        && S.ParkWait(k, w, K.Semaphore(o)).phase == K.Switching
  {
    var o := K.Semaphore(W.WaitSem(k.waits[w].s, k.current));
    S.EnteredKeeps(k, S.OpWait(w, e));
    S.ApplyKeeps(k, S.OpWait(w, e));
    hide K.Inv, Wired, S.Resume;
    if k.waits[w].s.count <= 0 { WaitingFacts(nx, k, w, o); } else { QuietWired(nx, k, w, o); }
  }

  /** What parking the current thread on w, which becomes o, gives. */
  ghost predicate Waiting(nx: Pointers, k: K.Kernel, w: int, o: K.WaitObject) {
    && w in k.waits && k.current in k.threads && K.Waiters(o) == K.Waiters(k.waits[w]) + [k.current]
    && var (k', nx') := (S.ParkWait(k, w, o), AppendNx(nx, Last(K.Waiters(k.waits[w])), k.current));
       K.Inv(k') && Wired(nx', k') && Linked(nx', k.ready)
  }

  lemma WaitingFacts(nx: Pointers, k: K.Kernel, w: int, o: K.WaitObject)
    requires K.Inv(k) && Wired(nx, k) && k.phase == K.User && w in k.waits && k.current in k.threads
    requires K.Waiters(o) == K.Waiters(k.waits[w]) + [k.current] && K.Inv(S.ParkWait(k, w, o))
    ensures Waiting(nx, k, w, o)
  {
    var k' := S.ParkWait(k, w, o);
    ListsAre(k);
    UserRuns(k);
    RunnerFacts(k);
    assert OnlyMoves(k, k', k.current);
    hide K.Inv, Wired, AppendNx, K.ListsOk, Linked;
    WiredWait(nx, k, k', k.current, w);
    ReadyLinked(AppendNx(nx, Last(K.Waiters(k.waits[w])), k.current), k');
  }

  lemma UserRuns(k: K.Kernel)
    requires K.Inv(k) && k.phase == K.User
    ensures k.current in k.threads && k.threads[k.current].state == K.Running
  {
  }

  /** k' is k with the current thread at the head of the sleep list. */
  ghost predicate Sleeps(k: K.Kernel, k': K.Kernel, due: nat)
    requires k.current in k.threads
  {
    var x := k.threads[k.current].(state := K.IoBlocked, place := K.InSleep, due := due);
    && k'.threads == k.threads[k.current := x] && k'.threads.Keys == k.threads.Keys
    && k'.ready == k.ready && k'.sleepers == [k.current] + k.sleepers && k'.waits == k.waits && k'.current == k.current
    && k'.policy == k.policy && k'.epollOpen == k.epollOpen && k'.counter == k.counter
  }

  lemma ParkSleeps(k: K.Kernel, ms: nat, at: nat)
    requires k.current in k.threads
    ensures Sleeps(k, S.ParkSleep(k, ms, at), at + ms * 1000000)
  {
  }

  /** What putting the current thread to sleep gives. */
  ghost predicate Asleep(nx: Pointers, k: K.Kernel, ms: nat, at: nat) {
    && k.current in k.threads && k.threads[k.current].place == K.Nowhere
    && var (k', nx') := (S.ParkSleep(k, ms, at), nx[k.current := First(k.sleepers)]);
       && K.Inv(k') && Wired(nx', k') && Linked(nx', k.ready) && Sleeps(k, k', at + ms * 1000000)
  }

  lemma SleepFacts(nx: Pointers, k: K.Kernel, ms: nat, at: nat, e: K.World)
    requires K.Inv(k) && Wired(nx, k) && S.Enabled(k, S.OpSleep(ms, at, e))
    ensures k.phase == K.User && Asleep(nx, k, ms, at) && K.Fits(S.ParkSleep(k, ms, at), e)
    ensures S.ParkSleep(k, ms, at).phase == K.Switching
    ensures S.Apply(k, S.OpSleep(ms, at, e)) == S.Resume(S.ParkSleep(k, ms, at), e)
  {
    var k' := S.ParkSleep(k, ms, at);
    S.EnteredKeeps(k, S.OpSleep(ms, at, e));
    ListsAre(k);
    UserRuns(k);
    RunnerFacts(k);
    ParkSleeps(k, ms, at);
    assert OnlyMoves(k, k', k.current);
    hide K.Inv, Wired, S.Resume, K.ListsOk, Linked, K.Fits;
    WiredSleep(nx, k, k', k.current);
    ReadyLinked(nx[k.current := First(k.sleepers)], k');
  }

  /** A running thread that leaves the CPU for no list keeps all lists linked. */
  lemma LeftWired(nx: Pointers, k: K.Kernel, k': K.Kernel, s: K.State)
    requires Wired(nx, k) && Left(k, k', s) && Loose(k.threads[k.current].place)
    ensures Wired(nx, k')
  {
    hide Linked;
  }

  lemma IoFacts(nx: Pointers, k: K.Kernel, e: K.World)
    requires K.Inv(k) && Wired(nx, k) && S.Enabled(k, S.OpIo(e))
    ensures k.current in k.threads && Left(k, S.ParkIo(k), K.IoBlocked) && K.Inv(S.ParkIo(k)) && Wired(nx, S.ParkIo(k))
    ensures S.ParkIo(k).phase == K.Switching && K.Fits(S.ParkIo(k), e)
    ensures S.Apply(k, S.OpIo(e)) == S.Resume(S.ParkIo(k), e)
  {
    S.EnteredKeeps(k, S.OpIo(e));
    UserRuns(k);
    RunnerFacts(k);
    ParkLeft(k);
    hide K.Inv, Wired, S.Resume, Left, K.Fits;
    LeftWired(nx, k, S.ParkIo(k), K.IoBlocked);
  }

  lemma ParkLeft(k: K.Kernel)
    requires k.current in k.threads
    ensures Left(k, S.ParkExit(k), K.Finished) && Left(k, S.ParkIo(k), K.IoBlocked)
  {
  }

  lemma ExitEnters(k: K.Kernel, e: K.World)
    requires K.Inv(k) && S.Enabled(k, S.OpExit(e))
    ensures k.current in k.threads && S.Parked(S.ParkExit(k)) && K.Fits(S.ParkExit(k), e) && k.phase == K.User
    ensures K.Domain(S.ParkExit(k)) && S.Apply(k, S.OpExit(e)) == S.Schedule(K.Pass(S.ParkExit(k), e))
  {
    S.EnteredKeeps(k, S.OpExit(e));
    hide K.Inv, K.Pass, K.Fits, S.Schedule, S.Parked, S.ParkExit;
  }

  lemma ExitLeaves(nx: Pointers, k: K.Kernel, e: K.World)
    requires K.Inv(k) && Wired(nx, k) && S.Enabled(k, S.OpExit(e))
    ensures k.current in k.threads && Left(k, S.ParkExit(k), K.Finished) && Wired(nx, S.ParkExit(k))
  {
    UserRuns(k);
    RunnerFacts(k);
    ParkLeft(k);
    hide K.Inv, Wired, K.Fits, S.ParkExit, Left;
    LeftWired(nx, k, S.ParkExit(k), K.Finished);
  }

  /** What the stages of an exit find. */
  lemma ExitFacts(nx: Pointers, k: K.Kernel, e: K.World)
    requires K.Inv(k) && Wired(nx, k) && S.Enabled(k, S.OpExit(e))
    ensures k.current in k.threads && Left(k, S.ParkExit(k), K.Finished) && Wired(nx, S.ParkExit(k))
    ensures PassStages(S.ParkExit(k), e) && S.Parked(K.Pass(S.ParkExit(k), e))
    ensures S.Apply(k, S.OpExit(e)) == S.Schedule(K.Pass(S.ParkExit(k), e))
  {
    hide K.Inv, Wired, K.Pass, K.Fits, S.Schedule, S.Apply, S.ParkExit, Left, S.Enabled, PassStages;
    ExitEnters(k, e);
    ExitLeaves(nx, k, e);
    var k1 := S.ParkExit(k);
    PassFacts(k1, e);
    S.PassKeeps(k1, e);
    S.PassCurrent(k1, e);
  }

  /** check_io_events and then check_sleep_list. */
  ghost predicate PassStages(k: K.Kernel, e: K.World) {
    && K.Inv(k) && K.Domain(k) && K.Fits(k, e) && k.phase == K.Switching && K.Within(k.threads, e.events)
    && var k2 := K.AdmitAll(k, e.events, Trace.IoUnblock);
       K.Domain(k2) && k2.phase == K.Switching && k2.clock <= e.now && K.CheckSleep(k2, e.now) == K.Pass(k, e)
  }

  lemma PassFacts(k: K.Kernel, e: K.World)
    requires K.Inv(k) && k.phase == K.Switching && K.Fits(k, e)
    ensures K.Domain(k) && PassStages(k, e)
  {
    DomainOf(k);
    WithinOf(k, e);
    hide K.Inv, K.Domain, K.AdmitAll, K.CheckSleep, K.Fits;
    S.PassFirst(k, e);
  }

  lemma PollFacts(k: K.Kernel, e: K.World)
    requires K.Inv(k) && S.Enabled(k, S.OpPoll(e))
    ensures var k1 := k.(phase := K.Switching);
      && PassStages(k1, e)
      && var r := K.Pass(k1, e);
         && S.Parked(r) && (r.ready == [] ==> K.Inv(r.(phase := K.Idle)))
         && S.Apply(k, S.OpPoll(e)) == (if r.ready != [] then K.Dispatch(r, K.Next(r)) else r.(phase := K.Idle))
         && S.Apply(k, S.OpPoll(e)).phase == if r.ready != [] then K.User else K.Idle
  {
    var k1 := k.(phase := K.Switching);
    S.EnteredKeeps(k, S.OpPoll(e));
    S.ApplyKeeps(k, S.OpPoll(e));
    hide K.Inv, K.Pass, K.Fits, K.Dispatch;
    PassFacts(k1, e);
    S.PassKeeps(k1, e);
    S.PassCurrent(k1, e);
  }

  lemma WiredNewObject(nx: Pointers, k: K.Kernel, w: int, o: K.WaitObject)
    requires Wired(nx, k) && w !in k.waits && K.Waiters(o) == []
    ensures Wired(nx, k.(waits := k.waits[w := o]))
  {
    assert Linked(nx, []);
    hide Linked;
  }

  lemma LinkedNew(nx: Pointers, q: seq<int>, t: int)
    requires Linked(nx, q) && t !in q
    ensures Linked(nx[t := None], q)
  {
    ChainFrame(nx, First(q), q, t, None);
  }

  lemma DoubleNew(gn: Pointers, gp: Pointers, q: seq<int>, t: int)
    requires Double(gn, gp, q) && t !in q
    ensures Double(gn[t := None], gp[t := None], q)
  {
    ChainFrame(gn, First(q), q, t, None);
  }

  lemma CreateFacts(k: K.Kernel, t: int, priority: int, result: S.CreateResult)
    requires K.Inv(k) && S.Enabled(k, S.OpCreate(t, priority, result))
    ensures var k1 := K.Gc(k);
      && K.Inv(S.Spawn(k1, t, priority, result)) && k1.phase == K.User && t !in k1.h.created
      && S.Apply(k, S.OpCreate(t, priority, result)) == S.Spawn(k1, t, priority, result)
  {
    hide K.Inv;
    S.GcKeeps(k);
    S.SpawnKeeps(K.Gc(k), t, priority, result);
  }

  /** k' is k with the new thread t at the tail of the ready queue. */
  ghost predicate Spawned(k: K.Kernel, k': K.Kernel, t: int) {
    && t in k'.threads && k'.threads == k.threads[t := k'.threads[t]] && k'.threads.Keys == k.threads.Keys + {t}
    && k'.ready == k.ready + [t] && k'.sleepers == k.sleepers && k'.waits == k.waits && k'.current == k.current
    && k'.policy == k.policy && k'.epollOpen == k.epollOpen && k'.counter == k.counter + 1
  }

  lemma SpawnFacts(nx: Pointers, k: K.Kernel, t: int, priority: int)
    requires K.Inv(k) && Wired(nx, k) && t !in k.h.created
    ensures t !in k.threads && t !in k.ready && Spawned(k, S.Spawn(k, t, priority, S.Made), t)
    ensures S.Spawn(k, t, priority, S.Made).threads[t] == K.Thread(K.Ready, K.InReady, 0, priority, k.counter)
    ensures Wired(AppendNx(nx[t := None], Last(k.ready), t), S.Spawn(k, t, priority, S.Made))
  {
    ListsAre(k);
    DomainOf(k);
    assert t !in k.threads;
    hide K.Inv, Wired, AppendNx, K.ListsOk;
    WiredSpawn(nx, k, S.Spawn(k, t, priority, S.Made), t, K.Thread(K.Ready, K.InReady, 0, priority, k.counter));
  }

  lemma BootWired(epollOpen: bool)
    ensures Wired(map[0 := None], R.Boot(epollOpen)) && Linked(map[0 := None], []) && Linked(map[0 := None], [0])
  {
  }

  lemma HeadLinks(nx: Pointers, q: seq<int>)
    requires Linked(nx, q) && q != []
    ensures q[0] in nx && nx[q[0]] == First(q[1..]) && Last(q[1..]) == (if q[1..] == [] then None else Last(q))
  {
    assert nx[q[0]] == Succ(q, 0);
    assert |q| > 1 ==> q[1..][0] == q[1];
  }

  lemma SleepLinks(nx: Pointers, q: seq<int>, i: nat)
    requires Linked(nx, q) && i < |q|
    ensures q[i] in nx && nx[q[i]] == At(q, i + 1)
    ensures First(q[..i] + q[i + 1..]) == if i == 0 then nx[q[0]] else First(q)
  {
    assert nx[q[i]] == Succ(q, i);
    UnlinkFirst(nx, First(q), q, i);
  }

  lemma WakeFacts(nx: Pointers, k: K.Kernel, i: nat)
    requires K.Inv(k) && k.phase != K.Idle && Wired(nx, k) && i < |k.sleepers|
    requires var t := k.sleepers[i]; t in k.threads && k.threads[t].due <= k.clock
    ensures K.Domain(k)
    ensures var (t, q) := (k.sleepers[i], k.sleepers); var r := K.Admit(k, t, Trace.Wakeup);
      && t in nx && t !in k.ready && Linked(nx, q) && r.sleepers == q[..i] + q[i + 1..] && K.Inv(r)
      && r.threads == k.threads[t := k.threads[t].(state := K.Ready, place := K.InReady)] && r.threads.Keys == k.threads.Keys
      && r.ready == k.ready + [t] && r.waits == k.waits && r.current == k.current && r.policy == k.policy
      && r.epollOpen == k.epollOpen && r.counter == k.counter
      && Linked(UnlinkNx(nx, Before(q, i), t), k.ready)
      && Wired(AppendNx(UnlinkNx(nx, Before(q, i), t), Last(k.ready), t), r)
  {
    var (q, t) := (k.sleepers, k.sleepers[i]);
    var (r, k1) := (K.Admit(k, t, Trace.Wakeup), k.(sleepers := q[..i] + q[i + 1..]));
    assert Linked(nx, q) by { hide Linked; }
    SleeperFacts(k, i);
    hide Linked, K.Inv, AppendNx, UnlinkNx;
    S.AdmitKeeps(k, t, Trace.Wakeup);
    WiredUnsleep(nx, k, k1, i);
    assert OnlyMoves(k, r, t);
    hide OnlyMoves;
    WiredWake(nx, k, r, i);
  }

  lemma SleeperFacts(k: K.Kernel, i: nat)
    requires K.Inv(k) && i < |k.sleepers|
    ensures K.Domain(k) && K.Lists(k) && k.sleepers[i] in k.threads && k.sleepers[i] !in k.ready
    ensures k.threads[k.sleepers[i]].place == K.InSleep
    ensures Without(k.sleepers, k.sleepers[i]) == k.sleepers[..i] + k.sleepers[i + 1..]
  {
    WithoutSplit(k.sleepers, k.sleepers[i], i);
  }

  lemma DomainOf(k: K.Kernel)
    requires K.Inv(k)
    ensures K.Domain(k)
  {
    hide K.ListsOk, K.ThreadsOk, K.OrdersOk, K.LivesOk;
  }

  lemma ClockFacts(nx: Pointers, k: K.Kernel, now: nat)
    requires K.Inv(k) && Wired(nx, k) && k.clock <= now
    ensures K.Inv(k.(clock := now)) && Wired(nx, k.(clock := now))
  {
    hide K.ListsOk, K.OrdersOk, K.LivesOk, Linked;
  }

  lemma SleepBegins(k: K.Kernel, now: nat)
    requires K.Inv(k)
    ensures K.Domain(k) && After(k, now, 0) == k.(clock := now) && Late(k, now, 0) == []
    ensures After(k, now, |k.sleepers|) == K.CheckSleep(k, now)
  {
    DomainOf(k);
    assert k.sleepers[..|k.sleepers|] == k.sleepers;
    hide K.Inv, K.Domain;
  }

  lemma DueNext(k: K.Kernel, q: seq<int>, i: nat, now: nat, expired: bool)
    requires i < |q| && forall j | 0 <= j < |q| :: q[j] in k.threads
    ensures K.Due(k, q[..i + 1], now, expired)
      == K.Due(k, q[..i], now, expired) + if (k.threads[q[i]].due <= now) == expired then [q[i]] else []
  {
    assert q[..i + 1][..i] == q[..i];
  }

  /** The next sleeper, and what becomes of it. */
  lemma SleepLoop(k: K.Kernel, now: nat, i: nat)
    requires K.Inv(k) && k.phase != K.Idle && k.clock <= now && i < |k.sleepers| && K.Domain(k)
    ensures var (t, r) := (k.sleepers[i], After(k, now, i));
      && t in k.threads && r.threads[t] == k.threads[t] && r.phase == k.phase && r.clock == now
      && After(k, now, i + 1) == (if k.threads[t].due <= now then K.Admit(r, t, Trace.Wakeup) else r)
      && Late(k, now, i + 1) == Late(k, now, i) + (if k.threads[t].due <= now then [] else [t])
  {
    SleepersFacts(k);
    hide K.Inv, K.Domain, K.Admit, After, Late;
    SleeperSame(k, now, i);
    SleeperNext(k, now, i);
  }

  lemma SleeperSame(k: K.Kernel, now: nat, i: nat)
    requires NoDup(k.sleepers) && i < |k.sleepers| && K.Domain(k) && k.sleepers[i] in k.threads
    ensures var (t, r) := (k.sleepers[i], After(k, now, i));
      r.threads[t] == k.threads[t] && r.phase == k.phase && r.clock == now
  {
    var (k1, t) := (k.(clock := now), k.sleepers[i]);
    var d := K.Due(k, k.sleepers[..i], now, true);
    NotYetDue(k, now, i);
    hide K.AdmitAll, K.Due, K.Domain;
    S.AdmitAllThreads(k1, d, Trace.Wakeup, t);
    S.AdmitAllFields(k1, d, Trace.Wakeup);
  }

  lemma SleeperNext(k: K.Kernel, now: nat, i: nat)
    requires i < |k.sleepers| && K.Domain(k) && k.sleepers[i] in k.threads
    ensures var (t, r) := (k.sleepers[i], After(k, now, i));
      && After(k, now, i + 1) == (if k.threads[t].due <= now then K.Admit(r, t, Trace.Wakeup) else r)
      && Late(k, now, i + 1) == Late(k, now, i) + (if k.threads[t].due <= now then [] else [t])
  {
    var (k1, q, t) := (k.(clock := now), k.sleepers, k.sleepers[i]);
    hide K.AdmitAll, K.Due, K.Admit, K.Domain;
    SleepersIn(k);
    DueNext(k, q, i, now, true);
    DueNext(k, q, i, now, false);
    var (d, d') := (K.Due(k, q[..i], now, true), K.Due(k, q[..i + 1], now, true));
    if k.threads[t].due <= now {
      AdmitOneMore(k1, d, t);
      assert d' == d + [t];
    } else {
      assert d' == d;
    }
  }

  lemma SleepersIn(k: K.Kernel)
    requires K.Domain(k)
    ensures forall j | 0 <= j < |k.sleepers| :: k.sleepers[j] in k.threads
  {
  }

  lemma AdmitOneMore(k: K.Kernel, d: seq<int>, t: int)
    requires K.Domain(k) && K.Within(k.threads, d) && t in k.threads
    ensures K.Within(k.threads, d + [t])
    ensures K.AdmitAll(k, d + [t], Trace.Wakeup) == K.Admit(K.AdmitAll(k, d, Trace.Wakeup), t, Trace.Wakeup)
  {
    assert (d + [t])[..|d|] == d;
    hide K.Domain, K.Admit;
  }

  lemma NotYetDue(k: K.Kernel, now: nat, i: nat)
    requires NoDup(k.sleepers) && i < |k.sleepers| && K.Domain(k)
    ensures k.sleepers[i] !in K.Due(k, k.sleepers[..i], now, true)
  {
    S.DueMembers(k, k.sleepers[..i], now, true);
    hide K.Due;
  }

  lemma SleepersFacts(k: K.Kernel)
    requires K.Inv(k)
    ensures NoDup(k.sleepers) && forall j | 0 <= j < |k.sleepers| :: k.sleepers[j] in k.threads
  {
  }

  lemma AdmitFacts(nx: Pointers, k: K.Kernel, t: int)
    requires K.Inv(k) && k.phase != K.Idle && Wired(nx, k) && t in k.epoll
    ensures K.Domain(k) && t in k.threads && t !in k.ready
    ensures var r := K.Admit(k, t, Trace.IoUnblock);
      K.Inv(r) && r.sleepers == k.sleepers && Wired(AppendNx(nx, Last(k.ready), t), r)
  {
    EpollFacts(k, t);
    S.AdmitKeeps(k, t, Trace.IoUnblock);
    WithoutAbsent(k.sleepers, t);
    assert OnlyMoves(k, K.Admit(k, t, Trace.IoUnblock), t);
    hide Wired, K.Inv, AppendNx, OnlyMoves;
    WiredReady(nx, k, K.Admit(k, t, Trace.IoUnblock), t);
  }

  /** The ends of all lists are to stay. */
  ghost predicate HeadsStay(sleepers: seq<int>, waits: map<int, K.WaitObject>, keep: set<int>) {
    && (forall t | t in sleepers :: t in keep)
    && forall w, t | w in waits && t in K.Waiters(waits[w]) :: t in keep
  }

  function Restrict<T>(m: map<int, T>, keep: set<int>): map<int, T> { map t | t in m && t in keep :: m[t] }

  /** Pointers from keep lead to keep. */
  ghost predicate Closed(nx: Pointers, keep: set<int>) {
    forall t | t in nx && t in keep && nx[t].Some? :: nx[t].value in keep
  }

  lemma GcFacts(nx: Pointers, k: K.Kernel)
    requires K.Inv(k) && Wired(nx, k)
    ensures var (r, keep) := (K.Gc(k), K.Gc(k).threads.Keys);
      && K.Inv(r) && Wired(Restrict(nx, keep), r) && r.threads == Restrict(k.threads, keep) && k.current in keep
      && r.ready == k.ready && r.sleepers == k.sleepers && r.waits == k.waits && r.current == k.current
      && r.policy == k.policy && r.epollOpen == k.epollOpen && r.counter == k.counter
      && Closed(nx, keep) && (forall t | t in k.ready :: t in keep) && HeadsStay(k.sleepers, k.waits, keep)
  {
    var keep := K.Gc(k).threads.Keys;
    S.GcKeeps(k);
    GcMembers(K.Gc(k), Restrict(nx, keep));
    forall t | t in nx && t in keep && nx[t].Some? ensures nx[t].value in keep { PointersSurvive(nx, k, t); }
    hide Linked, K.ListsOk;
    WiredGc(nx, Restrict(nx, keep), k);
  }

  lemma NeighboursIn(gn: Pointers, gp: Pointers, q: seq<int>, t: int)
    requires Double(gn, gp, q) && t in q
    ensures t in gn && (gn[t].Some? ==> gn[t].value in q) && t in gp && (gp[t].Some? ==> gp[t].value in q)
  {
    var i :| 0 <= i < |q| && q[i] == t;
    DoubleAt(gn, gp, q, i);
    hide Double;
    assert i + 1 < |q| ==> q[i + 1] in q;
    assert i > 0 ==> q[i - 1] in q;
  }

  lemma ClosedDouble(gn: Pointers, gp: Pointers, q: seq<int>, keep: set<int>)
    requires Double(gn, gp, q) && forall t :: t in q <==> t in keep
    ensures Closed(gn, keep) && Closed(gp, keep)
  {
    hide Double;
    forall t | t in gn && t in keep && gn[t].Some? ensures gn[t].value in keep {
      NeighboursIn(gn, gp, q, t);
      var u := gn[t].value;
      assert u in q;
    }
    forall t | t in gp && t in keep && gp[t].Some? ensures gp[t].value in keep {
      NeighboursIn(gn, gp, q, t);
      var u := gp[t].value;
      assert u in q;
    }
  }

  lemma KeepLinked(nx: Pointers, q: seq<int>, keep: set<int>)
    requires Linked(nx, q) && forall t | t in q :: t in keep
    ensures Linked(Restrict(nx, keep), q)
  {
    forall t | t in q ensures t in Restrict(nx, keep) && Restrict(nx, keep)[t] == nx[t] {
      var i :| 0 <= i < |q| && q[i] == t;
      assert nx[q[i]] == Succ(q, i);
    }
    LinkedOn(nx, Restrict(nx, keep), q);
  }

  lemma KeepDouble(gn: Pointers, gp: Pointers, q: seq<int>, keep: set<int>)
    requires Double(gn, gp, q) && forall t | t in q :: t in keep
    ensures Double(Restrict(gn, keep), Restrict(gp, keep), q)
  {
    KeepLinked(gn, q, keep);
    var gp' := Restrict(gp, keep);
    forall i | 0 <= i < |q| ensures q[i] in gp' && gp'[q[i]] == Before(q, i) {
      assert q[i] in q && gp[q[i]] == Before(q, i);
    }
  }

  /** A thread registered with epoll waits there and in no list. */
  lemma EpollFacts(k: K.Kernel, t: int)
    requires K.Inv(k) && t in k.epoll
    ensures K.Domain(k) && K.Lists(k) && t in k.threads && k.threads[t].place == K.InEpoll && k.threads[t].state == K.IoBlocked
    ensures k.threads[t].due <= k.clock && t !in k.ready && t !in k.sleepers
  {
  }

  ghost predicate AllReady(threads: map<int, K.Thread>, q: seq<int>) {
    forall i | 0 <= i < |q| :: q[i] in threads && threads[q[i]].state == K.Ready
  }

  lemma SameOutside(nx: Pointers, q: seq<int>)
    ensures OutsideSame(nx, nx, q)
  {
  }

  lemma BestNext(threads: map<int, K.Thread>, q: seq<int>, i: nat)
    requires i < |q| && AllReady(threads, q)
    ensures i > 0 ==> K.Best(threads, q[..i]) in threads
    ensures K.Best(threads, q[..i + 1]) ==
      if i == 0 || K.Before(threads[q[i]], threads[K.Best(threads, q[..i])]) then q[i] else K.Best(threads, q[..i])
  {
    assert q[..i + 1][..i] == q[..i];
  }

  lemma {:induction false} BestLowest(threads: map<int, K.Thread>, q: seq<int>, u: int)
    requires AllReady(threads, q) && u in q
    ensures K.Best(threads, q) in threads && u in threads
    ensures var (b, x) := (threads[K.Best(threads, q)], threads[u]);
      b.priority < x.priority || (b.priority == x.priority && b.order <= x.order)
  {
    var n := |q| - 1;
    assert q == q[..n] + [q[n]];
    if n > 0 { BestLowest(threads, q[..n], if u in q[..n] then u else q[0]); }
  }

  // ----- stealing -----

  /** The first element of rest goes to the end of chain. */
  lemma TakeFacts(nx: Pointers, chain: seq<int>, rest: seq<int>)
    requires Linked(nx, chain) && Linked(nx, rest) && rest != [] && NoDup(chain + rest)
    ensures var (t, nx') := (rest[0], AppendNx(nx, Last(chain), rest[0]));
      && t in nx && nx[t] == First(rest[1..]) && Linked(nx', chain + [t]) && Linked(nx', rest[1..])
      && OutsideSame(nx, nx', chain + rest)
  {
    var t := rest[0];
    assert t !in chain by { forall i | 0 <= i < |chain| ensures chain[i] != t { assert (chain + rest)[i] == chain[i] && (chain + rest)[|chain|] == t; } }
    ChainPop(nx, First(rest), rest);
    ChainAppend(nx, First(chain), chain, t);
    AppendOutside(nx, chain, t);
    RestUntouched(nx, chain, rest);
  }

  lemma RestUntouched(nx: Pointers, chain: seq<int>, rest: seq<int>)
    requires Linked(nx, rest) && rest != [] && NoDup(chain + rest) && forall i | 0 <= i < |chain| :: chain[i] in nx
    ensures Linked(AppendNx(nx, Last(chain), rest[0]), rest[1..])
    ensures OutsideSame(nx, AppendNx(nx, Last(chain), rest[0]), chain + rest)
  {
    var (t, nx') := (rest[0], AppendNx(nx, Last(chain), rest[0]));
    ChainPop(nx, First(rest), rest);
    AppendOutside(nx, chain, t);
    forall u | u in rest[1..] ensures u in nx' && nx'[u] == nx[t := None][u] {
      var i :| 0 <= i < |rest| - 1 && rest[i + 1] == u;
      assert (chain + rest)[|chain| + i + 1] == u && (chain + rest)[|chain|] == t;
      forall j | 0 <= j < |chain| ensures chain[j] != u { assert (chain + rest)[j] == chain[j]; }
    }
    LinkedOn(nx[t := None], nx', rest[1..]);
  }

  lemma EmptyLinked(nx: Pointers, q: seq<int>)
    requires Linked(nx, q)
    ensures NoDup(q) && Linked(nx, []) && OutsideSame(nx, nx, q)
    ensures q[..0] == [] && q[0..] == q
  {
  }

  lemma EmptySlices(nx: Pointers, q: seq<int>)
    ensures OutsideSame(nx, nx, q) && q[..0] == [] && q[0..] == q
  {
  }

  lemma Slices(q: seq<int>, j: nat)
    requires j < |q|
    ensures q[..j] + q[j..] == q && q[j..][0] == q[j] && q[j..][1..] == q[j + 1..] && q[..j + 1] == q[..j] + [q[j]]
  {
  }

  lemma StillOutside(a: Pointers, b: Pointers, c: Pointers, q: seq<int>)
    requires OutsideSame(a, b, q) && OutsideSame(b, c, q)
    ensures OutsideSame(a, c, q)
  {
  }

  /** One write joins two lists. */
  lemma JoinFacts(nx: Pointers, q: seq<int>, chain: seq<int>)
    requires Linked(nx, q) && Linked(nx, chain) && NoDup(q + chain)
    ensures chain != [] ==> Linked(if q == [] then nx else nx[Last(q).value := Some(chain[0])], q + chain)
    ensures chain != [] ==> Last(q + chain) == Last(chain)
    ensures First(q + chain) == if q == [] then First(chain) else First(q)
  {
    if chain != [] && q != [] {
      var (n, r) := (|q|, q + chain);
      var nx' := nx[q[n - 1] := Some(chain[0])];
      forall i | 0 <= i < |r| ensures r[i] in nx' && nx'[r[i]] == Succ(r, i) {
        assert i != n - 1 ==> r[i] != r[n - 1];
        if i < n { assert nx[q[i]] == Succ(q, i); } else { assert r[i] == chain[i - n] && nx[chain[i - n]] == Succ(chain, i - n); }
        assert i + 1 < |r| ==> r[i + 1] == if i + 1 < n then q[i + 1] else chain[i + 1 - n];
      }
    } else if q == [] {
      assert q + chain == chain;
    }
  }

  /** The threads of q get the number v. */
  function Stamp(ids: map<int, int>, q: seq<int>, v: int): map<int, int> {
    map t | t in ids :: if t in q then v else ids[t]
  }

  lemma StampNone(ids: map<int, int>, v: int)
    ensures Stamp(ids, [], v) == ids
  {
  }

  lemma StampMore(ids: map<int, int>, q: seq<int>, t: int, v: int)
    ensures Stamp(Stamp(ids, q, v), [t], v) == Stamp(ids, q + [t], v)
  {
  }

  lemma JoinOutside(nx: Pointers, q: seq<int>, chain: seq<int>)
    requires Linked(nx, q) && chain != []
    ensures OutsideSame(nx, if q == [] then nx else nx[Last(q).value := Some(chain[0])], q + chain)
  {
    if q != [] { assert q[|q| - 1] in q + chain; }
  }

  /** After the theft the thief's own queue p is as it was, and apart from the chain. */
  lemma TheftApart(nx: Pointers, nx': Pointers, p: seq<int>, q: seq<int>, n: nat)
    requires Linked(nx, p) && Linked(nx, q) && OutsideSame(nx, nx', q) && Apart(p, q) && n <= |q|
    ensures Linked(nx', p) && NoDup(q) && NoDup(p + q[..n]) && (n == 0 ==> q[n..] == q) && OutsideSame(nx, nx', p + q)
  {
    ChainOutside(nx, nx', q, First(p), p);
    var r := p + q[..n];
    forall i, j | 0 <= i < j < |r| ensures r[i] != r[j] {
      if i < |p| <= j { assert r[i] in p && r[j] in q; }
    }
  }

  /** After the append what the victim has left is as it was. */
  lemma LeftoverApart(nx0: Pointers, nx: Pointers, nx': Pointers, p: seq<int>, q: seq<int>, n: nat)
    requires n <= |q| && Linked(nx, q[n..]) && NoDup(q) && Apart(p, q)
    requires OutsideSame(nx0, nx, p + q) && OutsideSame(nx, nx', p + q[..n])
    ensures Linked(nx', q[n..]) && OutsideSame(nx0, nx', p + q)
  {
    forall t | t in q[n..] ensures t !in p + q[..n] {
      var i :| n <= i < |q| && q[i] == t;
      assert q[i] in q;
    }
    ChainOutside(nx, nx', p + q[..n], First(q[n..]), q[n..]);
    assert forall t | t in p + q[..n] :: t in p + q;
  }

  /** And after the first thread has been taken. */
  lemma LeftoverStays(nx0: Pointers, nx: Pointers, nx': Pointers, p: seq<int>, q: seq<int>, n: nat)
    requires 0 < n <= |q| && Linked(nx, q[n..]) && NoDup(q) && Apart(p, q) && OutsideSame(nx0, nx, p + q)
    requires var t := (p + q[..n])[0]; t in nx && nx' == nx[t := None]
    ensures Linked(nx', q[n..]) && OutsideSame(nx0, nx', p + q)
  {
    var t := (p + q[..n])[0];
    assert t in p + q[..n] && OutsideSame(nx, nx', p + q[..n]);
    LeftoverApart(nx0, nx, nx', p, q, n);
  }

  lemma LinkedAppend(nx: Pointers, q: seq<int>, t: int)
    requires Linked(nx, q) && t !in q
    ensures Linked(AppendNx(nx, Last(q), t), q + [t]) && Last(q + [t]) == Some(t)
    ensures First(q + [t]) == if q == [] then Some(t) else First(q)
  {
    ChainAppend(nx, First(q), q, t);
  }

  // ----- the idle loop -----

  /** What the outside world does in each round is possible in the state that the rounds before have led to. */
  ghost predicate PollsOk(k: K.Kernel, es: seq<K.World>)
    decreases |es|
  {
    && K.Inv(k)
    && (es != [] && k.phase == K.Idle ==> S.Enabled(k, S.OpPoll(es[0])) && PollsOk(S.Apply(k, S.OpPoll(es[0])), es[1..]))
  }

  /** Rounds of the idle loop, until a thread is dispatched. */
  ghost function Polled(k: K.Kernel, es: seq<K.World>): K.Kernel
    requires PollsOk(k, es)
    decreases |es|
  {
    if es == [] || k.phase != K.Idle then k else Polled(S.Apply(k, S.OpPoll(es[0])), es[1..])
  }

  /** Whoever leaves the processor with nobody ready is not READY itself. */
  lemma ParkedWaits(k: K.Kernel)
    requires S.Parked(k) && k.ready == []
    ensures k.current in k.threads && k.threads[k.current].state != K.Ready
  {
    hide K.OrdersOk, K.LivesOk, K.WaitsOk, K.EpollOk;
  }

  lemma SpawnLast(k: K.Kernel, t: int, priority: int)
    ensures var r := S.Spawn(k, t, priority, S.Made); Last(r.ready) == Some(t) && t in r.threads && r.threads[t].state == K.Ready && r.counter == k.counter + 1
  {
  }
}
