/** The 1:N part of src/uthread.c on the heap: thread control blocks that are linked into the ready queue,
    the sleep list and the wait lists through the one field `next`. A ghost kernel says what the linked
    structure stands for, and every API method is shown to do to it what the Kernel model says. */
module Runtime {
  import opened Basics
  import opened Chains
  import opened RuntimeFacts
  import opened Wiring
  import K = Kernel
  import S = KernelSteps
  import W = WaitObjects
  import R = KernelRuns
  import Trace

  /** tcb_t */
  class Tcb {
    const id: int
    const priority: int
    const order: nat
    var state: K.State
    var next: Tcb?
    var globalNext: Tcb?
    var globalPrev: Tcb?
    var sleepUntil: nat
    var vpId: int

    constructor (id: int, priority: int, order: nat)
      ensures this.id == id && this.priority == priority && this.order == order
      ensures state == K.Ready && next == null == globalNext == globalPrev && sleepUntil == 0
    {
      this.id, this.priority, this.order := id, priority, order;
      state, next, globalNext, globalPrev, sleepUntil, vpId := K.Ready, null, null, null, 0, 0;
    }
  }

  function Ptr(p: Tcb?): Option<int> { if p == null then None else Some(p.id) }

  /** uthread_mutex_t; w is the name it has in the kernel model. */
  class Mutex {
    ghost const w: int
    var locked: bool
    var waitHead: Tcb?
    var waitTail: Tcb?

    constructor (ghost w: int)
      ensures this.w == w && !locked && waitHead == null == waitTail
    {
      this.w := w;
      locked, waitHead, waitTail := false, null, null;
    }
  }

  /** uthread_sem_t */
  class Sem {
    ghost const w: int
    var count: int
    var waitHead: Tcb?
    var waitTail: Tcb?

    constructor (ghost w: int, count: nat)
      ensures this.w == w && this.count == count && waitHead == null == waitTail
    {
      this.w := w;
      this.count, waitHead, waitTail := count, null, null;
    }
  }

  /** The queue part of virtual_processor_t; queue is the local run queue as a sequence. */
  class Vp {
    const id: int
    var localHead: Tcb?
    var localTail: Tcb?
    var localCount: int
    ghost var queue: seq<int>

    constructor (id: int)
      ensures this.id == id && localHead == null == localTail && localCount == 0 && queue == []
    {
      this.id := id;
      localHead, localTail, localCount, queue := null, null, 0, [];
    }
  }

  class Runtime {
    var readyHead: Tcb?
    var readyTail: Tcb?
    var readyCount: int
    var sleepHead: Tcb?
    var globalList: Tcb?
    var current: Tcb
    var policy: K.Policy
    var epollFd: int
    var creationCounter: nat

    /** The live control blocks by thread id, where their next fields point, and what is in the ready queue. */
    ghost var tcbs: map<int, Tcb>
    ghost var nx: Pointers
    ghost var ready: seq<int>
    /** The same for the global list. */
    ghost var gn: Pointers
    ghost var gp: Pointers
    ghost var all: seq<int>
    /** What it all stands for. */
    ghost var k: K.Kernel
    ghost var mutexes: map<int, Mutex>
    ghost var sems: map<int, Sem>

    /** uthread_init; epollFd is what epoll_create1 returned. */
    constructor (epollFd: int)
      ensures Valid() && fresh(tcbs.Values) && tcbs.Keys == {0} && mutexes == map[] && sems == map[]
      ensures k == R.Boot(epollFd >= 0)
      ensures current.id == 0 && current.state == K.Running && readyHead == null == sleepHead && globalList == current
      ensures policy == K.RoundRobin && creationCounter == 1 && this.epollFd == epollFd
    {
      hide Valid, R.Boot;
      var main := new Tcb(0, 0, 0);
      readyHead, readyTail, readyCount, sleepHead, current, globalList := null, null, 0, null, main, main;
      this.epollFd := epollFd;
      policy, creationCounter := K.RoundRobin, 1;
      tcbs, nx, ready, mutexes, sems := map[0 := main], map[0 := None], [], map[], map[];
      gn, gp, all := map[0 := None], map[0 := None], [0];
      k := R.Boot(epollFd >= 0);
      new;
      main.state := K.Running;
      BootValid(main);
    }

    lemma BootValid(main: Tcb)
      requires k == R.Boot(epollFd >= 0) && tcbs == map[0 := main] && nx == map[0 := None] && ready == []
      requires main.id == 0 == main.priority && main.order == 0 && main.state == K.Running
      requires main.next == null == main.globalNext == main.globalPrev
      requires readyHead == null == readyTail && readyCount == 0 && sleepHead == null && current == main == globalList
      requires policy == K.RoundRobin && creationCounter == 1 && mutexes == map[] && sems == map[]
      requires gn == map[0 := None] && gp == map[0 := None] && all == [0]
      ensures Valid()
    {
      R.BootOk(epollFd >= 0);
      BootWired(epollFd >= 0);
      hide K.Inv, Linked, Wired;
    }

    ghost predicate Live(p: Tcb?)
      reads this`tcbs
    {
      p != null ==> p.id in tcbs && tcbs[p.id] == p
    }

    /** nx is what the next fields say. */
    ghost predicate Mirrored()
      reads this`tcbs, this`nx, tcbs.Values`next
    {
      && tcbs.Keys == nx.Keys
      && forall t | t in tcbs :: tcbs[t].id == t && Live(tcbs[t].next) && Ptr(tcbs[t].next) == nx[t]
    }

    ghost predicate ReadyOk()
      reads this`tcbs, this`nx, this`ready, this`readyHead, this`readyTail, this`readyCount
    {
      && Live(readyHead) && Live(readyTail) && Linked(nx, ready)
      && Ptr(readyHead) == First(ready) && Ptr(readyTail) == Last(ready) && readyCount == |ready|
    }

    /** The control blocks show the thread records. */
    ghost predicate Shown(threads: map<int, K.Thread>)
      reads this`tcbs, tcbs.Values`state, tcbs.Values`sleepUntil
    {
      forall t | t in tcbs :: t in threads && Shows(tcbs[t], threads[t])
    }

    ghost predicate MutexOk(w: int, m: W.Mutex<int>)
      reads this`mutexes, this`tcbs, if w in mutexes then {mutexes[w]} else {}
    {
      && w in mutexes && mutexes[w].w == w && mutexes[w].locked == m.locked
      && Live(mutexes[w].waitHead) && Live(mutexes[w].waitTail)
      && Ptr(mutexes[w].waitHead) == First(m.waiters) && Ptr(mutexes[w].waitTail) == Last(m.waiters)
    }

    ghost predicate SemOk(w: int, s: W.Sem<int>)
      reads this`sems, this`tcbs, if w in sems then {sems[w]} else {}
    {
      && w in sems && sems[w].w == w && sems[w].count == s.count
      && Live(sems[w].waitHead) && Live(sems[w].waitTail)
      && Ptr(sems[w].waitHead) == First(s.waiters) && Ptr(sems[w].waitTail) == Last(s.waiters)
    }

    ghost predicate WaitsOk(waits: map<int, K.WaitObject>)
      reads this`mutexes, this`sems, this`tcbs, mutexes.Values, sems.Values
    {
      forall w | w in waits :: if waits[w].Lock? then MutexOk(w, waits[w].m) else SemOk(w, waits[w].s)
    }

    ghost predicate SleepOk(q: seq<int>)
      reads this`sleepHead, this`tcbs
    {
      Live(sleepHead) && Ptr(sleepHead) == First(q)
    }

    /** The next and state fields and the ready queue. */
    ghost predicate Core(threads: map<int, K.Thread>, rdy: seq<int>)
      reads this`tcbs, this`nx, this`ready, this`readyHead, this`readyTail, this`readyCount,
            tcbs.Values`next, tcbs.Values`state, tcbs.Values`sleepUntil
    {
      Mirrored() && ReadyOk() && ready == rdy && Shown(threads) && tcbs.Keys == threads.Keys
    }

    /** gn and gp are what the global pointers say. */
    ghost predicate GlobalMirrored()
      reads this`tcbs, this`gn, this`gp, tcbs.Values`globalNext, tcbs.Values`globalPrev
    {
      && gn.Keys == tcbs.Keys && gp.Keys == tcbs.Keys
      && forall t | t in tcbs ::
           && tcbs[t].id == t && Live(tcbs[t].globalNext) && Live(tcbs[t].globalPrev)
           && Ptr(tcbs[t].globalNext) == gn[t] && Ptr(tcbs[t].globalPrev) == gp[t]
    }

    /** The doubly linked global list. */
    ghost predicate Ring()
      reads this`tcbs, this`gn, this`gp, this`all, this`globalList, tcbs.Values`globalNext, tcbs.Values`globalPrev
    {
      GlobalMirrored() && Live(globalList) && Ptr(globalList) == First(all) && Double(gn, gp, all)
    }

    /** ... and whom it holds. */
    ghost predicate GlobalOk(members: set<int>)
      reads this`tcbs, this`gn, this`gp, this`all, this`globalList, tcbs.Values`globalNext, tcbs.Values`globalPrev
    {
      Ring() && forall t :: t in all <==> t in members
    }

    /** Who runs, and how the next thread is chosen. */
    ghost predicate CpuOk(cur: int, p: K.Policy, epollOpen: bool, counter: nat)
      reads this`current, this`policy, this`epollFd, this`creationCounter, this`tcbs
    {
      Live(current) && current.id == cur && policy == p && (epollFd >= 0) == epollOpen && creationCounter == counter
    }

    /** What most operations leave alone. */
    ghost predicate RestOk(members: set<int>, sleepers: seq<int>, cur: int, p: K.Policy, epollOpen: bool, counter: nat)
      reads this`tcbs, this`gn, this`gp, this`all, this`globalList, tcbs.Values`globalNext, tcbs.Values`globalPrev,
            this`sleepHead, this`current, this`policy, this`epollFd, this`creationCounter
    {
      GlobalOk(members) && SleepOk(sleepers) && CpuOk(cur, p, epollOpen, counter)
    }

    /** The heap is what the kernel k says, and k satisfies the system invariant. */
    ghost predicate Valid()
      reads this, tcbs.Values, mutexes.Values, sems.Values
    {
      && Core(k.threads, k.ready) && WaitsOk(k.waits)
      && RestOk(k.threads.Keys, k.sleepers, k.current, k.policy, k.epollOpen, k.counter) && Wired(nx, k) && K.Inv(k)
    }

    /** Who sleeps, who waits, who runs. */
    ghost predicate SideOk()
      reads this`k, this`sleepHead, this`current, this`policy, this`epollFd, this`creationCounter, this`tcbs, this`mutexes, this`sems,
            mutexes.Values, sems.Values
    {
      SleepOk(k.sleepers) && WaitsOk(k.waits) && CpuOk(k.current, k.policy, k.epollOpen, k.counter)
    }

    lemma ShownAt(threads: map<int, K.Thread>, t: Tcb)
      requires Shown(threads) && Live(t)
      ensures t.id in threads && Shows(t, threads[t.id])
    {
    }

    lemma MirroredAt(t: Tcb)
      requires Mirrored() && Live(t)
      ensures t.id in nx && nx[t.id] == Ptr(t.next) && Live(t.next)
    {
    }

    /** One write to a next field. */
    method SetNext(t: Tcb, p: Tcb?)
      requires Mirrored() && Live(t) && Live(p)
      modifies this`nx, t`next
      ensures Mirrored() && nx == old(nx)[t.id := Ptr(p)] && t.next == p
    {
      t.next := p;
      nx := nx[t.id := Ptr(p)];
    }

    // ----- the ready queue -----

    method Enqueue(t: Tcb)
      requires Mirrored() && ReadyOk() && Live(t) && t.id !in ready
      modifies this`readyHead, this`readyTail, this`readyCount, this`ready, this`nx, tcbs.Values`next
      ensures Mirrored() && ReadyOk() && ready == old(ready) + [t.id] && nx == AppendNx(old(nx), Last(old(ready)), t.id)
    {
      hide Chain, NoDup, Mirrored;
      ChainAppend(nx, Ptr(readyHead), ready, t.id);
      SetNext(t, null);
      if readyTail != null {
        SetNext(readyTail, t);
      } else {
        readyHead := t;
      }
      readyTail := t;
      readyCount := readyCount + 1;
      ready := ready + [t.id];
    }

    method Dequeue() returns (t: Tcb?)
      requires Mirrored() && ReadyOk()
      modifies this`readyHead, this`readyTail, this`readyCount, this`ready, this`nx, tcbs.Values`next
      ensures Mirrored() && ReadyOk() && Live(t) && Ptr(t) == First(old(ready))
      ensures t == null ==> ready == old(ready) == [] && nx == old(nx)
      ensures t != null ==> ready == old(ready)[1..] && t.id in old(nx) && nx == old(nx)[t.id := None]
    {
      hide Chain, NoDup, Mirrored;
      if readyHead == null { return null; }
      ChainPop(nx, Ptr(readyHead), ready);
      MirroredAt(readyHead);
      t := readyHead;
      readyHead := t.next;
      if readyHead == null { readyTail := null; }
      SetNext(t, null);
      readyCount := readyCount - 1;
      ready := ready[1..];
    }

    /** The writes of remove_from_ready_queue once it has found cur, at position i. */
    method Unlink(prev: Tcb?, cur: Tcb, ghost i: nat)
      requires Mirrored() && ReadyOk() && Live(prev) && Live(cur)
      requires i < |ready| && cur.id == ready[i] && Ptr(prev) == Before(ready, i)
      modifies this`readyHead, this`readyTail, this`readyCount, this`ready, this`nx, tcbs.Values`next
      ensures Mirrored() && ReadyOk() && ready == old(ready)[..i] + old(ready)[i + 1..]
      ensures cur.id in old(nx) && nx == UnlinkNx(old(nx), Ptr(prev), cur.id)
    {
      hide Chain, NoDup, Mirrored;
      ChainUnlink(nx, Ptr(readyHead), ready, i);
      UnlinkLast(nx, Ptr(readyHead), ready, i);
      UnlinkFirst(nx, Ptr(readyHead), ready, i);
      MirroredAt(cur);
      if prev != null { SetNext(prev, cur.next); } else { readyHead := cur.next; }
      if cur == readyTail { readyTail := prev; }
      SetNext(cur, null);
      readyCount := readyCount - 1;
      ready := ready[..i] + ready[i + 1..];
    }

    /** Takes target out of the middle of the queue, if it is there. */
    method RemoveFromReadyQueue(target: Tcb)
      requires Mirrored() && ReadyOk() && Live(target)
      modifies this`readyHead, this`readyTail, this`readyCount, this`ready, this`nx, tcbs.Values`next
      ensures Mirrored() && ReadyOk() && ready == Without(old(ready), target.id)
      ensures OutsideSame(old(nx), nx, old(ready))
      ensures target.id in old(ready) ==> target.id in nx && nx[target.id] == None
    {
      var prev: Tcb? := null;
      var cur := readyHead;
      ghost var i := 0;
      while cur != null
        invariant Mirrored() && ReadyOk() && ready == old(ready) && nx == old(nx)
        invariant 0 <= i <= |ready| && Live(prev) && Live(cur)
        invariant Ptr(cur) == At(ready, i) && Ptr(prev) == Before(ready, i)
        invariant target.id !in ready[..i]
        decreases |ready| - i
      {
        if cur == target {
          WithoutSplit(ready, target.id, i);
          UnlinkOutside(nx, ready, i);
          Unlink(prev, cur, i);
          return;
        }
        prev := cur;
        cur := cur.next;
        i := i + 1;
      }
      WithoutAbsent(ready, target.id);
    }

    lemma CursorAt(cur: Tcb, i: nat)
      requires Mirrored() && ReadyOk() && Live(cur) && i < |ready| && cur.id == ready[i]
      ensures Live(cur.next) && Ptr(cur.next) == At(ready, i + 1)
    {
      assert nx[ready[i]] == Succ(ready, i);
    }

    /** The scan of priority_next. */
    method FindBest(ghost threads: map<int, K.Thread>) returns (best: Tcb?)
      requires Mirrored() && ReadyOk() && Shown(threads) && AllReady(threads, ready)
      ensures Live(best) && (best == null <==> ready == [])
      ensures best != null ==> best.id == K.Best(threads, ready)
      ensures best != null ==> forall t | t in ready && t in tcbs :: Precedes(best, tcbs[t])
    {
      hide Mirrored, Linked, K.Best;
      best := null;
      var cur := readyHead;
      ghost var i := 0;
      while cur != null
        invariant 0 <= i <= |ready| && Live(best) && Live(cur) && Ptr(cur) == At(ready, i)
        invariant best == null <==> i == 0
        invariant best != null ==> best.id == K.Best(threads, ready[..i])
        decreases |ready| - i
      {
        BestNext(threads, ready, i);
        CursorAt(cur, i);
        if cur.state == K.Ready {
          if best == null || cur.priority < best.priority || (cur.priority == best.priority && cur.order < best.order) {
            best := cur;
          }
        }
        cur := cur.next;
        i := i + 1;
      }
      assert ready[..i] == ready;
      BestFacts(best, threads);
    }

    lemma BestFacts(best: Tcb?, threads: map<int, K.Thread>)
      requires Shown(threads) && AllReady(threads, ready) && Live(best) && (best == null <==> ready == [])
      requires best != null ==> best.id == K.Best(threads, ready)
      ensures best != null ==> forall t | t in ready && t in tcbs :: Precedes(best, tcbs[t])
    {
      forall t | t in ready && t in tcbs ensures Precedes(best, tcbs[t]) { BestLowest(threads, ready, t); }
    }

    /** priority_next: the kernel's choice leaves the ready queue. */
    method PriorityNext(ghost threads: map<int, K.Thread>) returns (best: Tcb?)
      requires Mirrored() && ReadyOk() && Shown(threads) && AllReady(threads, ready)
      modifies this`readyHead, this`readyTail, this`readyCount, this`ready, this`nx, tcbs.Values`next
      ensures Mirrored() && ReadyOk() && Live(best) && (best == null <==> old(ready) == [])
      ensures best != null ==> best.id == K.Best(threads, old(ready)) && ready == Without(old(ready), best.id)
      ensures best != null ==> forall t | t in old(ready) && t in tcbs :: Precedes(best, tcbs[t])
      ensures best == null ==> ready == [] && nx == old(nx)
      ensures OutsideSame(old(nx), nx, old(ready)) && (best != null ==> best.id in nx && nx[best.id] == None)
    {
      best := FindBest(threads);
      if best != null { RemoveFromReadyQueue(best); } else { SameOutside(nx, ready); }
    }

    // ----- the global list -----

    lemma GlobalAt(t: Tcb)
      requires GlobalMirrored() && Live(t)
      ensures t.id in gn && t.id in gp && Ptr(t.globalNext) == gn[t.id] && Ptr(t.globalPrev) == gp[t.id]
      ensures Live(t.globalNext) && Live(t.globalPrev)
    {
    }

    method SetGlobalNext(t: Tcb, p: Tcb?)
      requires GlobalMirrored() && Live(t) && Live(p)
      modifies this`gn, t`globalNext
      ensures GlobalMirrored() && gn == old(gn)[t.id := Ptr(p)] && t.globalNext == p
    {
      t.globalNext := p;
      gn := gn[t.id := Ptr(p)];
    }

    method SetGlobalPrev(t: Tcb, p: Tcb?)
      requires GlobalMirrored() && Live(t) && Live(p)
      modifies this`gp, t`globalPrev
      ensures GlobalMirrored() && gp == old(gp)[t.id := Ptr(p)] && t.globalPrev == p
    {
      t.globalPrev := p;
      gp := gp[t.id := Ptr(p)];
    }

    method GlobalListAdd(t: Tcb)
      requires Ring() && Live(t) && t.id !in all
      modifies this`globalList, this`gn, this`gp, this`all, tcbs.Values`globalNext, tcbs.Values`globalPrev
      ensures Ring() && all == [t.id] + old(all)
    {
      hide GlobalMirrored, Double;
      DoublePush(gn, gp, all, t.id);
      SetGlobalPrev(t, null);
      SetGlobalNext(t, globalList);
      if globalList != null { SetGlobalPrev(globalList, t); }
      globalList := t;
      all := [t.id] + all;
    }

    /** The writes of global_list_remove. */
    method GlobalUnlink(t: Tcb)
      requires GlobalMirrored() && Live(t) && Live(globalList) && t.id in gn && t.id in gp
      modifies this`globalList, this`gn, this`gp, tcbs.Values`globalNext, tcbs.Values`globalPrev
      ensures GlobalMirrored() && Live(globalList)
      ensures gn == UnlinkNx(old(gn), old(gp)[t.id], t.id) && gp == UnlinkBack(old(gn), old(gp), t.id)
      ensures Ptr(globalList) == if old(gp)[t.id].Some? then old(Ptr(globalList)) else old(gn)[t.id]
    {
      hide GlobalMirrored;
      GlobalAt(t);
      ghost var (next, prev) := (t.globalNext, t.globalPrev);
      if t.globalPrev != null { SetGlobalNext(t.globalPrev, t.globalNext); } else { globalList := t.globalNext; }
      if t.globalNext != null { SetGlobalPrev(t.globalNext, t.globalPrev); }
      SetGlobalPrev(t, null);
      SetGlobalNext(t, null);
    }

    method GlobalListRemove(t: Tcb, ghost i: nat)
      requires Ring() && Live(t) && i < |all| && all[i] == t.id
      modifies this`globalList, this`gn, this`gp, this`all, tcbs.Values`globalNext, tcbs.Values`globalPrev
      ensures Ring() && all == old(all)[..i] + old(all)[i + 1..]
    {
      hide GlobalMirrored, Double, UnlinkNx, UnlinkBack;
      DoubleUnlink(gn, gp, all, i);
      DoubleFirst(gn, gp, all, i);
      GlobalUnlink(t);
      all := all[..i] + all[i + 1..];
    }

    lemma RingHead()
      requires Ring()
      ensures Live(globalList) && Ptr(globalList) == First(all)
    {
    }

    lemma RingAt(cur: Tcb, i: nat)
      requires Ring() && Live(cur) && i < |all| && cur.id == all[i]
      ensures Live(cur.globalNext) && Ptr(cur.globalNext) == At(all, i + 1)
    {
      GlobalAt(cur);
      DoubleAt(gn, gp, all, i);
    }

    /** The loop of gc_finished_threads before the j-th element of the list q: cur is that element. */
    ghost predicate AtBlock(q: seq<int>, j: nat, cur: Tcb?, threads: map<int, K.Thread>)
      reads this`tcbs, this`gn, this`gp, this`all, this`globalList, this`current, tcbs.Values`globalNext, tcbs.Values`globalPrev
    {
      && Ring() && j <= |q| && Live(current) && Live(cur)
      && all == Survivors(q[..j], threads, current.id) + q[j..] && Ptr(cur) == At(q, j)
    }

    method SweepRound(cur: Tcb, ghost q: seq<int>, ghost j: nat, ghost threads: map<int, K.Thread>) returns (next: Tcb?)
      requires AtBlock(q, j, cur, threads) && j < |q| && Shown(threads)
      modifies this`globalList, this`gn, this`gp, this`all, tcbs.Values`globalNext, tcbs.Values`globalPrev
      ensures AtBlock(q, j + 1, next, threads)
    {
      hide Ring, Shown, Survivors;
      ghost var i := |Survivors(q[..j], threads, current.id)|;
      assert all[i] == q[j] && At(all, i + 1) == At(q, j + 1);
      ShownAt(threads, cur);
      SurvivorsNext(q, j, threads, current.id);
      RingAt(cur, i);
      next := cur.globalNext;
      if cur.state == K.Finished && cur != current { GlobalListRemove(cur, i); }
    }

    /** The loop of gc_finished_threads. */
    method SweepList(ghost threads: map<int, K.Thread>)
      requires Ring() && Shown(threads) && Live(current)
      modifies this`globalList, this`gn, this`gp, this`all, tcbs.Values`globalNext, tcbs.Values`globalPrev
      ensures Ring() && all == Survivors(old(all), threads, current.id)
    {
      hide Ring, Shown, Survivors;
      RingHead();
      var cur := globalList;
      ghost var (q, j) := (all, 0);
      SurvivorsNone(q[..0], threads, current.id);
      while cur != null
        invariant 0 <= j <= |q| && AtBlock(q, j, cur, threads)
        decreases |q| - j
      {
        cur := SweepRound(cur, q, j, threads);
        j := j + 1;
      }
      assert q[..j] == q;
    }

    twostate lemma MirroredLess(keep: set<int>)
      requires old(Mirrored()) && Closed(old(nx), keep) && unchanged(old(tcbs).Values)
      requires tcbs == Restrict(old(tcbs), keep) && nx == Restrict(old(nx), keep)
      ensures Mirrored()
    {
    }

    twostate lemma GlobalMirroredLess(keep: set<int>)
      requires old(GlobalMirrored()) && Closed(old(gn), keep) && Closed(old(gp), keep) && unchanged(old(tcbs).Values)
      requires tcbs == Restrict(old(tcbs), keep) && gn == Restrict(old(gn), keep) && gp == Restrict(old(gp), keep)
      ensures GlobalMirrored()
    {
    }

    /** Every pointer of the runtime itself is to a block in keep. */
    ghost predicate Rooted(keep: set<int>)
      reads this`readyHead, this`readyTail, this`sleepHead, this`globalList, this`current
    {
      && Stays(readyHead, keep) && Stays(readyTail, keep) && Stays(sleepHead, keep) && Stays(globalList, keep)
      && Stays(current, keep)
    }

    /** The blocks outside keep are no more. */
    ghost method Forget(keep: set<int>)
      requires Mirrored() && ReadyOk() && Ring() && Rooted(keep)
      requires Closed(nx, keep) && Closed(gn, keep) && Closed(gp, keep)
      requires (forall t | t in ready :: t in keep) && (forall t | t in all :: t in keep)
      modifies this`tcbs, this`nx, this`gn, this`gp
      ensures Mirrored() && ReadyOk() && Ring()
      ensures tcbs == Restrict(old(tcbs), keep) && nx == Restrict(old(nx), keep)
    {
      hide Linked, Double, Mirrored, GlobalMirrored, Closed;
      KeepLinked(nx, ready, keep);
      KeepDouble(gn, gp, all, keep);
      tcbs, nx, gn, gp := Restrict(tcbs, keep), Restrict(nx, keep), Restrict(gn, keep), Restrict(gp, keep);
      MirroredLess(keep);
      GlobalMirroredLess(keep);
    }

    twostate lemma SideLess(keep: set<int>)
      requires old(SideOk()) && k == old(k) && tcbs == Restrict(old(tcbs), keep) && HeadsStay(k.sleepers, k.waits, keep)
      requires Rooted(keep) && sleepHead == old(sleepHead) && current == old(current)
      requires policy == old(policy) && epollFd == old(epollFd) && creationCounter == old(creationCounter)
      requires mutexes == old(mutexes) && sems == old(sems) && unchanged(mutexes.Values) && unchanged(sems.Values)
      ensures SideOk()
    {
    }

    twostate lemma ShownLess(keep: set<int>)
      requires old(Shown(k.threads)) && k == old(k) && tcbs == Restrict(old(tcbs), keep) && unchanged(old(tcbs).Values)
      ensures Shown(Restrict(k.threads, keep))
    {
    }

    lemma RootsStay(keep: set<int>)
      requires ReadyOk() && Ring() && SideOk()
      requires (forall t | t in ready :: t in keep) && (forall t | t in all :: t in keep)
      requires HeadsStay(k.sleepers, k.waits, keep) && k.current in keep
      ensures Rooted(keep)
    {
      hide GlobalMirrored, Double, Linked, WaitsOk;
    }

    ghost method Shrink(keep: set<int>)
      requires Core(k.threads, k.ready) && Ring() && SideOk() && Rooted(keep) && HeadsStay(k.sleepers, k.waits, keep)
      requires Closed(nx, keep) && Closed(gn, keep) && Closed(gp, keep)
      requires (forall t | t in ready :: t in keep) && (forall t | t in all :: t in keep)
      modifies this`tcbs, this`nx, this`gn, this`gp
      ensures Core(Restrict(k.threads, keep), k.ready) && Ring() && SideOk()
      ensures tcbs == Restrict(old(tcbs), keep) && nx == Restrict(old(nx), keep)
    {
      hide Mirrored, GlobalMirrored, ReadyOk, Rooted, Double, Shown, SideOk, Closed, HeadsStay;
      Forget(keep);
      SideLess(keep);
      ShownLess(keep);
    }

    /** The control blocks that the sweep has taken off the list are no more; nobody points to them. */
    ghost method Reclaim()
      requires Core(k.threads, k.ready) && Ring() && SideOk()
      requires Wired(nx, k) && K.Inv(k) && forall t :: t in all <==> t in K.Gc(k).threads
      modifies this`tcbs, this`nx, this`gn, this`gp, this`k
      ensures Core(k.threads, k.ready) && GlobalOk(k.threads.Keys) && SideOk() && Wired(nx, k) && K.Inv(k)
      ensures k == K.Gc(old(k)) && tcbs == Restrict(old(tcbs), k.threads.Keys)
    {
      ghost var keep := K.Gc(k).threads.Keys;
      hide Core, GlobalMirrored, Rooted, Linked, Double, Wired, K.Inv, SleepOk, WaitsOk, CpuOk, Closed, HeadsStay, K.Gc;
      GcFacts(nx, k);
      CoreReady(k.threads, k.ready);
      ReadyOf(k.threads, k.ready);
      ClosedDouble(gn, gp, all, keep);
      RootsStay(keep);
      Shrink(keep);
      k := K.Gc(k);
    }

    lemma ReadyOf(threads: map<int, K.Thread>, rdy: seq<int>)
      requires Core(threads, rdy)
      ensures ReadyOk()
    {
    }

    /** gc_finished_threads */
    method GcFinishedThreads()
      requires Valid()
      modifies this`globalList, this`gn, this`gp, this`all, this`tcbs, this`nx, this`k,
               tcbs.Values`globalNext, tcbs.Values`globalPrev
      ensures Valid() && k == K.Gc(old(k)) && tcbs == Restrict(old(tcbs), k.threads.Keys)
      ensures all == Survivors(old(all), old(k).threads, old(k).current)
    {
      hide Ring, Mirrored, ReadyOk, Shown, Wired, K.Inv, WaitsOk, Survivors;
      SweepList(k.threads);
      forall t ensures t in all <==> t in K.Gc(k).threads { SurvivorsAre(old(all), k.threads, k.current, t); }
      Reclaim();
    }

    // ----- check_io_events -----

    /** A thread that is in no list becomes READY and goes to the tail of the ready queue. */
    method MakeReady(t: Tcb, ghost threads: map<int, K.Thread>, ghost x: K.Thread)
      requires Core(threads, ready) && Live(t) && t.id in threads && t.id !in ready
      requires x == threads[t.id].(state := K.Ready, place := K.InReady)
      modifies this`readyHead, this`readyTail, this`readyCount, this`ready, this`nx, tcbs.Values`next, t`state
      ensures Core(threads[t.id := x], old(ready) + [t.id]) && nx == AppendNx(old(nx), Last(old(ready)), t.id)
    {
      assert Shows(t, threads[t.id]);
      t.state := K.Ready;
      assert Shown(threads[t.id := x]);
      hide Mirrored, ReadyOk, Shown, AppendNx;
      Enqueue(t);
    }

    /** check_io_events, for one reported thread. */
    method AdmitIo(t: Tcb)
      requires Valid() && Live(t) && k.phase != K.Idle && t.id in k.epoll
      modifies this`readyHead, this`readyTail, this`readyCount, this`ready, this`nx, this`k, tcbs.Values`next, t`state
      ensures Valid() && K.Domain(old(k)) && t.id in old(k).threads && k == K.Admit(old(k), t.id, Trace.IoUnblock)
    {
      hide Core, RestOk, WaitsOk, Wired, K.Inv, AppendNx;
      AdmitFacts(nx, k, t.id);
      CoreReady(k.threads, k.ready);
      ghost var k' := K.Admit(k, t.id, Trace.IoUnblock);
      MakeReady(t, k.threads, k'.threads[t.id]);
      k := k';
    }

    lemma CoreReady(threads: map<int, K.Thread>, rdy: seq<int>)
      requires Core(threads, rdy)
      ensures ready == rdy && tcbs.Keys == threads.Keys
    {
    }

    lemma CoreAt(threads: map<int, K.Thread>, rdy: seq<int>, t: Tcb)
      requires Core(threads, rdy) && Live(t)
      ensures t.id in threads && Shows(t, threads[t.id]) && t.id in nx && nx[t.id] == Ptr(t.next) && Live(t.next)
    {
    }

    /** The reports are about registered threads, each about another one. */
    ghost predicate Reported(events: seq<Tcb>)
      reads this`tcbs, this`k
    {
      && (forall i | 0 <= i < |events| :: Live(events[i]) && events[i].id in k.epoll)
      && NoDup(Ids(events)) && (!k.epollOpen ==> events == [])
    }

    /** check_io_events; epoll_wait has reported events. */
    method CheckIoEvents(events: seq<Tcb>)
      requires Valid() && k.phase != K.Idle && Reported(events)
      modifies this`readyHead, this`readyTail, this`readyCount, this`ready, this`nx, this`k, tcbs.Values`next, tcbs.Values`state
      ensures Valid() && K.Domain(old(k)) && K.Within(old(k).threads, Ids(events))
      ensures k == K.AdmitAll(old(k), Ids(events), Trace.IoUnblock)
    {
      hide Valid, K.Inv, K.Admit;
      ghost var (k0, ids) := (k, Ids(events));
      ReportedIds(events);
      if epollFd < 0 { return; }
      var i := 0;
      while i < |events|
        invariant 0 <= i <= |events| && Valid() && tcbs == old(tcbs)
        invariant k == K.AdmitAll(k0, ids[..i], Trace.IoUnblock)
      {
        StillWaiting(k0, ids, i);
        var t := events[i];
        StateOf(t);
        if t.state == K.IoBlocked {
          AdmitIo(t);
        }
        assert ids[..i + 1][..i] == ids[..i];
        i := i + 1;
      }
      assert ids[..i] == ids;
    }

    lemma ReportedIds(events: seq<Tcb>)
      requires Valid() && Reported(events)
      ensures K.Inv(k) && K.Domain(k) && NoDup(Ids(events)) && K.Within(k.threads, Ids(events))
      ensures forall i | 0 <= i < |events| :: Ids(events)[i] in k.epoll
      ensures epollFd < 0 ==> events == []
    {
      hide K.ListsOk, K.OrdersOk, K.LivesOk;
      forall i | 0 <= i < |events| ensures Ids(events)[i] in k.threads { EpollFacts(k, events[i].id); }
    }

    lemma StateOf(t: Tcb)
      requires Valid() && Live(t)
      ensures t.id in k.threads && t.state == k.threads[t.id].state
      ensures t.id in k.epoll ==> t.state == K.IoBlocked
    {
      CoreAt(k.threads, k.ready, t);
      if t.id in k.epoll { EpollFacts(k, t.id); }
      hide K.Inv;
    }

    // ----- check_sleep_list -----

    /** cur leaves the sleep list. */
    method Unsleep(prev: Tcb?, cur: Tcb, ghost q: seq<int>, ghost i: nat)
      requires Mirrored() && SleepOk(q) && Linked(nx, q) && Live(prev) && Live(cur)
      requires i < |q| && cur.id == q[i] && Ptr(prev) == Before(q, i)
      modifies this`sleepHead, this`nx, tcbs.Values`next
      ensures Mirrored() && SleepOk(q[..i] + q[i + 1..])
      ensures cur.id in old(nx) && nx == UnlinkNx(old(nx), Ptr(prev), cur.id)
    {
      hide Linked, Mirrored, Chain;
      SleepLinks(nx, q, i);
      MirroredAt(cur);
      if prev != null { SetNext(prev, cur.next); } else { sleepHead := cur.next; }
      SetNext(cur, null);
    }

    /** MakeReady for a thread that wakes up. */
    method MakeAwake(t: Tcb, ghost threads: map<int, K.Thread>, ghost x: K.Thread)
      requires Core(threads, ready) && Live(t) && t.id in threads && t.id !in ready
      requires x == threads[t.id].(state := K.Ready, place := K.InReady)
      modifies this`readyHead, this`readyTail, this`readyCount, this`ready, this`nx, tcbs.Values`next, t`state, t`sleepUntil
      ensures Core(threads[t.id := x], old(ready) + [t.id]) && nx == AppendNx(old(nx), Last(old(ready)), t.id)
    {
      assert Shows(t, threads[t.id]);
      t.sleepUntil := 0;
      t.state := K.Ready;
      assert Shown(threads[t.id := x]);
      hide Mirrored, ReadyOk, Shown, AppendNx;
      Enqueue(t);
    }

    lemma Relink(threads: map<int, K.Thread>, rdy: seq<int>)
      requires Mirrored() && Shown(threads) && tcbs.Keys == threads.Keys && ready == rdy && Linked(nx, ready)
      requires Live(readyHead) && Live(readyTail) && Ptr(readyHead) == First(ready) && Ptr(readyTail) == Last(ready)
      requires readyCount == |ready|
      ensures Core(threads, rdy)
    {
    }

    lemma Loosen(threads: map<int, K.Thread>, rdy: seq<int>)
      requires Core(threads, rdy)
      ensures Mirrored() && Shown(threads) && tcbs.Keys == threads.Keys && ready == rdy
      ensures Live(readyHead) && Live(readyTail) && Ptr(readyHead) == First(ready) && Ptr(readyTail) == Last(ready)
      ensures readyCount == |ready|
    {
    }

    /** From the sleep list, position i, to the tail of the ready queue. */
    method MoveAwake(prev: Tcb?, cur: Tcb, ghost q: seq<int>, ghost i: nat, ghost threads: map<int, K.Thread>, ghost x: K.Thread)
      requires Core(threads, ready) && SleepOk(q) && Linked(nx, q) && Live(prev) && Live(cur)
      requires i < |q| && cur.id == q[i] && Ptr(prev) == Before(q, i) && cur.id !in ready && cur.id in threads && cur.id in nx
      requires Linked(UnlinkNx(nx, Before(q, i), cur.id), ready)
      requires x == threads[cur.id].(state := K.Ready, place := K.InReady)
      modifies this`sleepHead, this`readyHead, this`readyTail, this`readyCount, this`ready, this`nx,
               tcbs.Values`next, cur`state, cur`sleepUntil
      ensures Core(threads[cur.id := x], old(ready) + [cur.id]) && SleepOk(q[..i] + q[i + 1..])
      ensures nx == AppendNx(UnlinkNx(old(nx), Before(q, i), cur.id), Last(old(ready)), cur.id)
    {
      hide Core, SleepOk, Linked, Mirrored, Shown, AppendNx, UnlinkNx;
      Loosen(threads, ready);
      Unsleep(prev, cur, q, i);
      Relink(threads, ready);
      MakeAwake(cur, threads, x);
    }

    /** The sleeper cur, at position i, has expired. */
    method Wake(prev: Tcb?, cur: Tcb, ghost i: nat)
      requires Valid() && k.phase != K.Idle && Live(prev) && Live(cur)
      requires i < |k.sleepers| && cur.id == k.sleepers[i] && Ptr(prev) == Before(k.sleepers, i)
      requires cur.id in k.threads && k.threads[cur.id].due <= k.clock
      modifies this`sleepHead, this`readyHead, this`readyTail, this`readyCount, this`ready, this`nx, this`k,
               tcbs.Values`next, cur`state, cur`sleepUntil
      ensures Valid() && K.Domain(old(k)) && cur.id in old(k).threads && k == K.Admit(old(k), cur.id, Trace.Wakeup)
      ensures k.sleepers == old(k).sleepers[..i] + old(k).sleepers[i + 1..]
    {
      hide Core, GlobalOk, SleepOk, WaitsOk, CpuOk, Wired, Linked, K.Inv, AppendNx, UnlinkNx, K.Admit;
      WakeFacts(nx, k, i);
      ghost var k' := K.Admit(k, cur.id, Trace.Wakeup);
      CoreReady(k.threads, k.ready);
      MoveAwake(prev, cur, k.sleepers, i, k.threads, k'.threads[cur.id]);
      k := k';
    }

    /** What the cursor of the loop sees. */
    lemma CursorFacts(cur: Tcb, j: nat)
      requires Valid() && Live(cur) && j < |k.sleepers| && cur.id == k.sleepers[j]
      ensures cur.id in k.threads && cur.sleepUntil == k.threads[cur.id].due
      ensures Live(cur.next) && Ptr(cur.next) == At(k.sleepers, j + 1)
    {
      CoreAt(k.threads, k.ready, cur);
      SleeperFacts(k, j);
      hide K.Inv, Core;
      SleepLinks(nx, k.sleepers, j);
    }

    ghost method SetClock(now: nat)
      requires Valid() && k.clock <= now
      modifies this`k
      ensures Valid() && k == old(k).(clock := now)
    {
      hide Core, RestOk, WaitsOk;
      ClockFacts(nx, k, now);
      hide Wired, K.Inv;
      k := k.(clock := now);
    }

    lemma SleepHeadAt()
      requires Valid()
      ensures Live(sleepHead) && Ptr(sleepHead) == First(k.sleepers) && K.Inv(k)
    {
      hide K.Inv, Core;
    }

    /** The loop of check_sleep_list before its i-th sleeper: cur is that sleeper, prev the last one that
        sleeps on. */
    ghost predicate AtSleeper(k0: K.Kernel, now: nat, i: nat, prev: Tcb?, cur: Tcb?)
      reads this, tcbs.Values, mutexes.Values, sems.Values
      requires K.Domain(k0)
    {
      && Valid() && i <= |k0.sleepers| && k == After(k0, now, i) && k.sleepers == Late(k0, now, i) + k0.sleepers[i..]
      && Live(cur) && Ptr(cur) == At(k0.sleepers, i) && Live(prev) && Ptr(prev) == Last(Late(k0, now, i))
    }

    /** One round of the loop. */
    method SleepRound(prev: Tcb?, cur: Tcb, now: nat, ghost k0: K.Kernel, ghost i: nat) returns (prev': Tcb?, cur': Tcb?)
      requires K.Inv(k0) && k0.phase != K.Idle && k0.clock <= now && K.Domain(k0) && i < |k0.sleepers|
      requires AtSleeper(k0, now, i, prev, cur)
      modifies this`sleepHead, this`readyHead, this`readyTail, this`readyCount, this`ready, this`nx, this`k,
               tcbs.Values`next, tcbs.Values`state, tcbs.Values`sleepUntil
      ensures AtSleeper(k0, now, i + 1, prev', cur')
    {
      hide Valid, K.Inv, K.Domain, K.Admit, After, Late;
      SleepLoop(k0, now, i);
      ghost var (q, l) := (k0.sleepers, Late(k0, now, i));
      assert k.sleepers[|l|] == q[i] && At(k.sleepers, |l| + 1) == At(q, i + 1) && Before(k.sleepers, |l|) == Last(l);
      CursorFacts(cur, |l|);
      cur' := cur.next;
      if now >= cur.sleepUntil {
        Wake(prev, cur, |l|);
        prev' := prev;
      } else {
        prev' := cur;
      }
    }

    /** check_sleep_list, at the time now. */
    method CheckSleepList(now: nat)
      requires Valid() && k.phase != K.Idle && k.clock <= now
      modifies this`sleepHead, this`readyHead, this`readyTail, this`readyCount, this`ready, this`nx, this`k,
               tcbs.Values`next, tcbs.Values`state, tcbs.Values`sleepUntil
      ensures Valid() && K.Domain(old(k)) && k == K.CheckSleep(old(k), now)
    {
      hide Valid, K.Inv, K.Domain, K.Admit, After, Late, K.CheckSleep;
      SleepHeadAt();
      ghost var k0 := k;
      SleepBegins(k0, now);
      SetClock(now);
      var prev: Tcb? := null;
      var cur := sleepHead;
      ghost var i := 0;
      while cur != null
        invariant 0 <= i <= |k0.sleepers| && tcbs == old(tcbs) && AtSleeper(k0, now, i, prev, cur)
        decreases |k0.sleepers| - i
      {
        prev, cur := SleepRound(prev, cur, now, k0, i);
        i := i + 1;
      }
    }

    // ----- mutexes and semaphores: the section that wakes a waiter -----

    /** The first waiter leaves the wait list of the mutex. */
    method PopMutexWaiter(m: Mutex, ghost waits: map<int, K.WaitObject>, ghost o: W.Mutex<int>) returns (woken: Tcb)
      requires Mirrored() && WaitsOk(waits) && m.w in waits && waits[m.w].Lock? && m.w in mutexes && mutexes[m.w] == m
      requires var q := waits[m.w].m.waiters; q != [] && Linked(nx, q) && o.waiters == q[1..] && o.locked == waits[m.w].m.locked
      modifies m`waitHead, m`waitTail, this`nx, tcbs.Values`next
      ensures Mirrored() && Live(woken) && woken.id == waits[m.w].m.waiters[0] && nx == old(nx)[woken.id := None]
      ensures WaitsOk(waits[m.w := K.Lock(o)])
    {
      hide Mirrored, Linked;
      HeadLinks(nx, waits[m.w].m.waiters);
      assert MutexOk(m.w, waits[m.w].m);
      woken := m.waitHead;
      MirroredAt(woken);
      m.waitHead := woken.next;
      if m.waitHead == null { m.waitTail := null; }
      SetNext(woken, null);
    }

    method PopSemWaiter(s: Sem, ghost waits: map<int, K.WaitObject>, ghost o: W.Sem<int>) returns (woken: Tcb)
      requires Mirrored() && WaitsOk(waits) && s.w in waits && waits[s.w].Semaphore? && s.w in sems && sems[s.w] == s
      requires var q := waits[s.w].s.waiters; q != [] && Linked(nx, q) && o.waiters == q[1..] && o.count == waits[s.w].s.count
      modifies s`waitHead, s`waitTail, this`nx, tcbs.Values`next
      ensures Mirrored() && Live(woken) && woken.id == waits[s.w].s.waiters[0] && nx == old(nx)[woken.id := None]
      ensures WaitsOk(waits[s.w := K.Semaphore(o)])
    {
      hide Mirrored, Linked;
      HeadLinks(nx, waits[s.w].s.waiters);
      assert SemOk(s.w, waits[s.w].s);
      woken := s.waitHead;
      MirroredAt(woken);
      s.waitHead := woken.next;
      if s.waitHead == null { s.waitTail := null; }
      SetNext(woken, null);
    }

    /** From the wait list of the mutex to the tail of the ready queue. */
    method WakeMutexWaiter(m: Mutex, ghost threads: map<int, K.Thread>, ghost waits: map<int, K.WaitObject>, ghost o: W.Mutex<int>)
      requires Core(threads, ready) && WaitsOk(waits) && m.w in waits && waits[m.w].Lock? && m.w in mutexes && mutexes[m.w] == m
      requires var q := waits[m.w].m.waiters; q != [] && Linked(nx, q) && o.waiters == q[1..] && o.locked == waits[m.w].m.locked
      requires var t := waits[m.w].m.waiters[0]; t in threads && t !in ready && Linked(nx[t := None], ready)
      modifies m`waitHead, m`waitTail, this`readyHead, this`readyTail, this`readyCount, this`ready, this`nx,
               tcbs.Values`next, tcbs.Values`state
      ensures var t := waits[m.w].m.waiters[0];
        && Core(threads[t := threads[t].(state := K.Ready, place := K.InReady)], old(ready) + [t])
        && WaitsOk(waits[m.w := K.Lock(o)]) && nx == AppendNx(old(nx)[t := None], Last(old(ready)), t)
    {
      hide Core, WaitsOk, Linked, Mirrored, Shown, AppendNx;
      Loosen(threads, ready);
      var woken := PopMutexWaiter(m, waits, o);
      Relink(threads, ready);
      MakeReady(woken, threads, threads[woken.id].(state := K.Ready, place := K.InReady));
    }

    method WakeSemWaiter(s: Sem, ghost threads: map<int, K.Thread>, ghost waits: map<int, K.WaitObject>, ghost o: W.Sem<int>)
      requires Core(threads, ready) && WaitsOk(waits) && s.w in waits && waits[s.w].Semaphore? && s.w in sems && sems[s.w] == s
      requires var q := waits[s.w].s.waiters; q != [] && Linked(nx, q) && o.waiters == q[1..] && o.count == waits[s.w].s.count
      requires var t := waits[s.w].s.waiters[0]; t in threads && t !in ready && Linked(nx[t := None], ready)
      modifies s`waitHead, s`waitTail, this`readyHead, this`readyTail, this`readyCount, this`ready, this`nx,
               tcbs.Values`next, tcbs.Values`state
      ensures var t := waits[s.w].s.waiters[0];
        && Core(threads[t := threads[t].(state := K.Ready, place := K.InReady)], old(ready) + [t])
        && WaitsOk(waits[s.w := K.Semaphore(o)]) && nx == AppendNx(old(nx)[t := None], Last(old(ready)), t)
    {
      hide Core, WaitsOk, Linked, Mirrored, Shown, AppendNx;
      Loosen(threads, ready);
      var woken := PopSemWaiter(s, waits, o);
      Relink(threads, ready);
      MakeReady(woken, threads, threads[woken.id].(state := K.Ready, place := K.InReady));
    }

    method UnlockToWaiter(m: Mutex, ghost k': K.Kernel)
      requires Valid() && m.w in mutexes && mutexes[m.w] == m && m.w in k.waits && k.waits[m.w].Lock?
      requires k.waits[m.w].m.waiters != [] && Released(nx, k, m.w, K.Lock(W.UnlockMutex(k.waits[m.w].m)), k')
      modifies m, this`readyHead, this`readyTail, this`readyCount, this`ready, this`nx, this`k,
               tcbs.Values`next, tcbs.Values`state
      ensures Valid() && k == k'
    {
      hide Core, RestOk, WaitsOk, Wired, Linked, K.Inv, AppendNx;
      CoreReady(k.threads, k.ready);
      WakeMutexWaiter(m, k.threads, k.waits, W.UnlockMutex(k.waits[m.w].m));
      k := k';
    }

    method UnlockFree(m: Mutex, ghost k': K.Kernel)
      requires Valid() && m.w in mutexes && mutexes[m.w] == m && m.w in k.waits && k.waits[m.w].Lock?
      requires k.waits[m.w].m.waiters == [] && Released(nx, k, m.w, K.Lock(W.UnlockMutex(k.waits[m.w].m)), k')
      modifies m`locked, this`k
      ensures Valid() && k == k'
    {
      hide Core, RestOk, WaitsOk, Wired, K.Inv;
      SetLocked(m, false, k.waits, W.UnlockMutex(k.waits[m.w].m));
      k := k';
    }

    /** uthread_mutex_unlock: ownership goes straight to the first waiter, if there is one. */
    method MutexUnlock(m: Mutex)
      requires Valid() && m.w in mutexes && mutexes[m.w] == m && S.Enabled(k, S.OpUnlock(m.w))
      modifies m, this`readyHead, this`readyTail, this`readyCount, this`ready, this`nx, this`k,
               tcbs.Values`next, tcbs.Values`state
      ensures Valid() && K.Inv(old(k)) && k == S.Apply(old(k), S.OpUnlock(m.w))
    {
      hide Valid, K.Inv, Wired, S.Apply, Released, W.UnlockMutex;
      WiredOf();
      ghost var k' := S.Apply(k, S.OpUnlock(m.w));
      UnlockFacts(nx, k, m.w);
      MutexShows(m);
      if m.waitHead != null { UnlockToWaiter(m, k'); } else { UnlockFree(m, k'); }
    }

    lemma MutexAt(waits: map<int, K.WaitObject>, m: Mutex)
      requires WaitsOk(waits) && m.w in waits && waits[m.w].Lock? && m.w in mutexes && mutexes[m.w] == m
      ensures m.locked == waits[m.w].m.locked && (m.waitHead == null <==> waits[m.w].m.waiters == [])
    {
      assert MutexOk(m.w, waits[m.w].m);
    }

    method SetLocked(m: Mutex, locked: bool, ghost waits: map<int, K.WaitObject>, ghost o: W.Mutex<int>)
      requires WaitsOk(waits) && m.w in waits && waits[m.w].Lock? && m.w in mutexes && mutexes[m.w] == m
      requires o.waiters == waits[m.w].m.waiters && o.locked == locked
      modifies m`locked
      ensures WaitsOk(waits[m.w := K.Lock(o)])
    {
      assert MutexOk(m.w, waits[m.w].m);
      m.locked := locked;
    }

    method PostToWaiter(s: Sem, ghost k': K.Kernel)
      requires Valid() && s.w in sems && sems[s.w] == s && s.w in k.waits && k.waits[s.w].Semaphore?
      requires k.waits[s.w].s.waiters != [] && Released(nx, k, s.w, K.Semaphore(W.PostSem(k.waits[s.w].s)), k')
      modifies s, this`readyHead, this`readyTail, this`readyCount, this`ready, this`nx, this`k,
               tcbs.Values`next, tcbs.Values`state
      ensures Valid() && k == k'
    {
      hide Core, RestOk, WaitsOk, Wired, Linked, K.Inv, AppendNx;
      CoreReady(k.threads, k.ready);
      WakeSemWaiter(s, k.threads, k.waits, W.PostSem(k.waits[s.w].s));
      k := k';
    }

    /** d tokens more. */
    method Count(s: Sem, d: int, ghost waits: map<int, K.WaitObject>, ghost o: W.Sem<int>)
      requires WaitsOk(waits) && s.w in waits && waits[s.w].Semaphore? && s.w in sems && sems[s.w] == s
      requires o.waiters == waits[s.w].s.waiters && o.count == waits[s.w].s.count + d
      modifies s`count
      ensures WaitsOk(waits[s.w := K.Semaphore(o)])
    {
      assert SemOk(s.w, waits[s.w].s);
      s.count := s.count + d;
    }

    /** uthread_sem_post: the token is counted, and goes straight to the first waiter if there is one. */
    method SemPost(s: Sem)
      requires Valid() && s.w in sems && sems[s.w] == s && S.Enabled(k, S.OpPost(s.w))
      modifies s, this`readyHead, this`readyTail, this`readyCount, this`ready, this`nx, this`k,
               tcbs.Values`next, tcbs.Values`state
      ensures Valid() && K.Inv(old(k)) && k == S.Apply(old(k), S.OpPost(s.w))
    {
      hide Core, RestOk, WaitsOk, K.Inv, Wired, S.Apply, Linked, AppendNx;
      ghost var k' := S.Apply(k, S.OpPost(s.w));
      PostFacts(nx, k, s.w);
      SemShows(s);
      ghost var o := k.waits[s.w].s;
      ghost var counted := o.(count := o.count + 1, posts := o.posts + 1);
      Count(s, 1, k.waits, counted);
      if s.waitHead != null {
        Count(s, -1, k.waits[s.w := K.Semaphore(counted)], o);
        assert k.waits[s.w := K.Semaphore(counted)][s.w := K.Semaphore(o)] == k.waits;
        PostToWaiter(s, k');
      } else {
        k := k';
      }
    }

    lemma SemAt(waits: map<int, K.WaitObject>, s: Sem)
      requires WaitsOk(waits) && s.w in waits && waits[s.w].Semaphore? && s.w in sems && sems[s.w] == s
      ensures s.count == waits[s.w].s.count && (s.waitHead == null <==> waits[s.w].s.waiters == [])
    {
      assert SemOk(s.w, waits[s.w].s);
    }

    // ----- choosing the next thread -----

    /** schedule_next: the kernel's choice leaves the ready queue. */
    method ScheduleNext() returns (t: Tcb?)
      requires Valid()
      modifies this`readyHead, this`readyTail, this`readyCount, this`ready, this`nx, tcbs.Values`next
      ensures Core(k.threads, ready) && Live(t) && (t == null <==> k.ready == []) && K.Domain(k)
      ensures t == null ==> ready == k.ready && nx == old(nx)
      ensures t != null ==> t.id == K.Next(k) && ready == Without(k.ready, t.id) && t.id in nx && nx[t.id] == None
      ensures OutsideSame(old(nx), nx, k.ready)
      ensures t != null && policy == K.RoundRobin ==> t.id == k.ready[0]
      ensures t != null && policy == K.Priority ==> forall u | u in k.ready && u in tcbs :: Precedes(t, tcbs[u])
    {
      hide Mirrored, ReadyOk, Shown, Wired, K.Inv, GlobalOk, SleepOk, WaitsOk, OutsideSame;
      DomainOf(k);
      ReadyStates(k);
      if policy == K.RoundRobin {
        t := Dequeue();
        if t != null { PopOutsideReady(old(nx), old(ready)); } else { SameOutside(nx, ready); }
      } else {
        t := PriorityNext(k.threads);
        if t == null { SameOutside(nx, ready); }
      }
    }

    /** A write to a state field, with the thread record it is to show. */
    method SetState(t: Tcb, s: K.State, ghost threads: map<int, K.Thread>, ghost x: K.Thread)
      requires Core(threads, ready) && Live(t) && t.id in threads
      requires x.state == s && x.priority == threads[t.id].priority && x.order == threads[t.id].order
      requires x.place.InSleep? ==> t.sleepUntil == x.due
      modifies t`state
      ensures Core(threads[t.id := x], ready)
    {
      assert Shows(t, threads[t.id]);
      t.state := s;
    }

    lemma CurrentAt()
      requires Valid()
      ensures Live(current) && current.id == k.current && k.current in k.threads && current.state == k.threads[k.current].state
      ensures ready == k.ready && K.Inv(k) && K.Domain(k) && tcbs.Keys == k.threads.Keys && Linked(nx, ready)
      ensures (epollFd >= 0) == k.epollOpen && policy == k.policy
    {
      hide K.Inv, Mirrored, Linked, GlobalOk;
      assert Shows(current, k.threads[current.id]);
      DomainOf(k);
    }

    lemma CoreLinked(threads: map<int, K.Thread>, rdy: seq<int>)
      requires Core(threads, rdy)
      ensures ready == rdy && Linked(nx, rdy)
    {
    }

    method SetCurrent(t: Tcb, ghost members: set<int>, ghost k: K.Kernel)
      requires RestOk(members, k.sleepers, k.current, k.policy, k.epollOpen, k.counter) && Live(t)
      modifies this`current
      ensures RestOk(members, k.sleepers, t.id, k.policy, k.epollOpen, k.counter) && current == t
    {
      current := t;
    }

    /** The thread that has left the ready queue becomes the current one. */
    method StartRunning(next: Tcb)
      requires Core(k.threads, ready) && WaitsOk(k.waits) && RestOk(k.threads.Keys, k.sleepers, k.current, k.policy, k.epollOpen, k.counter)
      requires Live(next) && next.id in k.threads && ready == Without(k.ready, next.id)
      requires K.Inv(K.Dispatch(k, next.id)) && Wired(nx, K.Dispatch(k, next.id))
      modifies this`k, this`current, next`state
      ensures Valid() && next == current && next.id in old(k).threads && k == K.Dispatch(old(k), next.id)
    {
      hide Core, RestOk, WaitsOk, Wired, K.Inv;
      ghost var k' := K.Dispatch(k, next.id);
      SetCurrent(next, k.threads.Keys, k);
      SetState(next, K.Running, k.threads, k'.threads[next.id]);
      assert k'.threads.Keys == k.threads.Keys;
      k := k';
    }

    /** The common tail of uthread_yield and uthread_exit: the next thread, if any is ready, runs. */
    method Dispatch() returns (next: Tcb?)
      requires Valid() && S.Parked(k)
      modifies this`readyHead, this`readyTail, this`readyCount, this`ready, this`nx, this`k, this`current,
               tcbs.Values`next, tcbs.Values`state
      ensures Valid() && K.Domain(old(k)) && (next == null <==> old(k).ready == []) && (next != null ==> next == current)
      ensures k == if old(k).ready == [] then old(k) else K.Dispatch(old(k), K.Next(old(k)))
    {
      hide Core, RestOk, WaitsOk, Wired, K.Inv, S.Parked, Linked, OutsideSame, K.Next, K.Dispatch;
      next := ScheduleNext();
      if next != null {
        CoreLinked(k.threads, ready);
        DispatchFacts(old(nx), nx, k, next.id);
        StartRunning(next);
      }
    }

    /** uthread_yield: a thread that is still RUNNING goes to the back of the ready queue. */
    method Requeue()
      requires Valid() && k.phase == K.Switching
      modifies this`readyHead, this`readyTail, this`readyCount, this`ready, this`nx, this`k,
               tcbs.Values`next, tcbs.Values`state
      ensures Valid() && K.Domain(old(k)) && k == S.Requeue(old(k))
    {
      hide Core, RestOk, WaitsOk, Wired, K.Inv, Linked, AppendNx;
      CurrentAt();
      if current.state == K.Running {
        RequeueFacts(nx, k);
        ghost var k' := S.ParkReady(k);
        MakeReady(current, k.threads, k'.threads[k.current]);
        k := k';
      }
    }

    /** Is there a thread on the global list that has not finished? */
    method HasLive() returns (live: bool)
      requires Valid()
      ensures live == K.Alive(k)
    {
      hide Core, RestOk, Ring, WaitsOk, Wired, K.Inv;
      live := false;
      RingOf();
      RingHead();
      var t := globalList;
      ghost var i := 0;
      while t != null
        invariant 0 <= i <= |all| && Live(t) && Ptr(t) == At(all, i)
        invariant forall j | 0 <= j < i :: all[j] in k.threads && k.threads[all[j]].state == K.Finished
        decreases |all| - i
      {
        CoreAt(k.threads, k.ready, t);
        RingAt(t, i);
        if t.state != K.Finished { return true; }
        t := t.globalNext;
        i := i + 1;
      }
    }

    lemma RingOf()
      requires Valid()
      ensures Ring() && Core(k.threads, k.ready) && forall t :: t in all <==> t in k.threads
    {
      hide Core, Ring, K.Inv;
    }

    ghost method SetPhase(p: K.Phase)
      requires Valid() && K.Inv(k.(phase := p))
      modifies this`k
      ensures Valid() && k == old(k).(phase := p)
    {
      hide Core, RestOk, WaitsOk, K.Inv, Linked;
      k := k.(phase := p);
    }

    /** With nobody ready: wait in the idle loop for a thread that is alive, or end the process. */
    method Schedule()
      requires Valid() && S.Parked(k)
      modifies this`readyHead, this`readyTail, this`readyCount, this`ready, this`nx, this`k, this`current,
               tcbs.Values`next, tcbs.Values`state
      ensures Valid() && K.Domain(old(k)) && k == S.Schedule(old(k))
    {
      hide Valid, K.Inv, S.Parked, K.Dispatch, K.Alive;
      ScheduleFacts(k);
      CurrentAt();
      var next := Dispatch();
      if next == null {
        ParkedWaits(k);
        CurrentAt();
        assert current.state != K.Ready;   // so the source's branch for a READY caller is never taken
        var live := HasLive();
        if live && epollFd >= 0 { SetPhase(K.Idle); } else { SetPhase(K.Halted); }
      }
    }

    // ----- uthread_yield and the calls that end in it -----

    ghost predicate AllLive(events: seq<Tcb>)
      reads this`tcbs
    {
      forall i | 0 <= i < |events| :: Live(events[i])
    }

    lemma FitsReported(events: seq<Tcb>, now: nat)
      requires AllLive(events) && K.Domain(k) && K.Fits(k, K.World(Ids(events), now))
      ensures Reported(events)
    {
      forall i | 0 <= i < |events| ensures events[i].id in k.epoll { assert Ids(events)[i] in k.epoll; }
      hide K.Domain, NoDup;
    }

    lemma StillLive(events: seq<Tcb>, was: map<int, Tcb>)
      requires K.Within(k.threads, Ids(events)) && tcbs == Restrict(was, k.threads.Keys)
      requires forall i | 0 <= i < |events| :: events[i].id in was && was[events[i].id] == events[i]
      ensures AllLive(events)
    {
      forall i | 0 <= i < |events| ensures Live(events[i]) { assert Ids(events)[i] in k.threads; }
    }

    lemma Fewer(was: map<int, Tcb>, keep: set<int>)
      requires tcbs == Restrict(was, keep)
      ensures tcbs.Values <= was.Values
    {
    }

    /** uthread_yield, entered by a thread that still runs or has just put itself on some list. */
    method Reschedule(events: seq<Tcb>, now: nat)
      requires Valid() && k.phase == K.Switching && AllLive(events) && K.Fits(k, K.World(Ids(events), now))
      modifies this, tcbs.Values
      ensures Valid() && K.Inv(old(k)) && k == S.Resume(old(k), K.World(Ids(events), now))
    {
      hide Valid, K.Inv, K.Domain, K.Fits, S.Parked, S.Requeue, S.Schedule, K.AdmitAll, K.CheckSleep, K.Gc, Reported, Restrict;
      InvOf();
      ghost var (k0, e, was) := (k, K.World(Ids(events), now), tcbs);
      RescheduleFacts(k0, e);
      GcFinishedThreads();
      Fewer(was, k.threads.Keys);
      StillLive(events, was);
      FitsReported(events, now);
      CheckIoEvents(events);
      CheckSleepList(now);
      Requeue();
      Schedule();
    }

    lemma InvOf()
      requires Valid()
      ensures K.Inv(k)
    {
      hide Core, RestOk, WaitsOk, Wired, K.Inv;
    }

    /** uthread_yield. events and now are what epoll and the clock report when it polls. */
    method Yield(events: seq<Tcb>, now: nat)
      requires Valid() && AllLive(events) && S.Enabled(k, S.OpYield(K.World(Ids(events), now)))
      modifies this, tcbs.Values
      ensures Valid() && K.Inv(old(k)) && k == S.Apply(old(k), S.OpYield(K.World(Ids(events), now)))
    {
      hide Valid, K.Inv, K.Fits, S.Resume;
      InvOf();
      YieldFacts(k, K.World(Ids(events), now));
      SetPhase(K.Switching);
      Reschedule(events, now);
    }

    /** t goes to the tail of the wait list of the mutex. */
    method AppendMutexWaiter(m: Mutex, t: Tcb, ghost waits: map<int, K.WaitObject>, ghost o: W.Mutex<int>)
      requires Mirrored() && WaitsOk(waits) && m.w in waits && waits[m.w].Lock? && m.w in mutexes && mutexes[m.w] == m
      requires Live(t) && o.waiters == waits[m.w].m.waiters + [t.id] && o.locked == waits[m.w].m.locked
      modifies m`waitHead, m`waitTail, this`nx, tcbs.Values`next
      ensures Mirrored() && WaitsOk(waits[m.w := K.Lock(o)])
      ensures nx == AppendNx(old(nx), Last(waits[m.w].m.waiters), t.id)
    {
      hide Mirrored;
      assert MutexOk(m.w, waits[m.w].m);
      SetNext(t, null);
      if m.waitTail != null { SetNext(m.waitTail, t); } else { m.waitHead := t; }
      m.waitTail := t;
    }

    method AppendSemWaiter(s: Sem, t: Tcb, ghost waits: map<int, K.WaitObject>, ghost o: W.Sem<int>)
      requires Mirrored() && WaitsOk(waits) && s.w in waits && waits[s.w].Semaphore? && s.w in sems && sems[s.w] == s
      requires Live(t) && o.waiters == waits[s.w].s.waiters + [t.id] && o.count == waits[s.w].s.count
      modifies s`waitHead, s`waitTail, this`nx, tcbs.Values`next
      ensures Mirrored() && WaitsOk(waits[s.w := K.Semaphore(o)])
      ensures nx == AppendNx(old(nx), Last(waits[s.w].s.waiters), t.id)
    {
      hide Mirrored;
      assert SemOk(s.w, waits[s.w].s);
      SetNext(t, null);
      if s.waitTail != null { SetNext(s.waitTail, t); } else { s.waitHead := t; }
      s.waitTail := t;
    }

    /** The current thread blocks on a locked mutex. */
    method ParkOnMutex(m: Mutex, ghost threads: map<int, K.Thread>, ghost waits: map<int, K.WaitObject>, ghost o: W.Mutex<int>,
                       ghost x: K.Thread)
      requires Core(threads, ready) && WaitsOk(waits) && m.w in waits && waits[m.w].Lock? && m.w in mutexes && mutexes[m.w] == m
      requires Live(current) && current.id in threads && x == threads[current.id].(state := K.Blocked, place := K.InWait(m.w))
      requires o.waiters == waits[m.w].m.waiters + [current.id] && o.locked == waits[m.w].m.locked
      requires Linked(AppendNx(nx, Last(waits[m.w].m.waiters), current.id), ready)
      modifies m`waitHead, m`waitTail, this`nx, tcbs.Values`next, tcbs.Values`state
      ensures Core(threads[current.id := x], ready) && WaitsOk(waits[m.w := K.Lock(o)])
      ensures nx == AppendNx(old(nx), Last(waits[m.w].m.waiters), current.id)
    {
      hide Core, WaitsOk, Linked, Mirrored, Shown, AppendNx;
      SetState(current, K.Blocked, threads, x);
      Loosen(threads[current.id := x], ready);
      AppendMutexWaiter(m, current, waits, o);
      Relink(threads[current.id := x], ready);
    }

    method ParkOnSem(s: Sem, ghost threads: map<int, K.Thread>, ghost waits: map<int, K.WaitObject>, ghost o: W.Sem<int>,
                     ghost x: K.Thread)
      requires Core(threads, ready) && WaitsOk(waits) && s.w in waits && waits[s.w].Semaphore? && s.w in sems && sems[s.w] == s
      requires Live(current) && current.id in threads && x == threads[current.id].(state := K.Blocked, place := K.InWait(s.w))
      requires o.waiters == waits[s.w].s.waiters + [current.id] && o.count == waits[s.w].s.count
      requires Linked(AppendNx(nx, Last(waits[s.w].s.waiters), current.id), ready)
      modifies s`waitHead, s`waitTail, this`nx, tcbs.Values`next, tcbs.Values`state
      ensures Core(threads[current.id := x], ready) && WaitsOk(waits[s.w := K.Semaphore(o)])
      ensures nx == AppendNx(old(nx), Last(waits[s.w].s.waiters), current.id)
    {
      hide Core, WaitsOk, Linked, Mirrored, Shown, AppendNx;
      SetState(current, K.Blocked, threads, x);
      Loosen(threads[current.id := x], ready);
      AppendSemWaiter(s, current, waits, o);
      Relink(threads[current.id := x], ready);
    }

    /** The free mutex is taken. */
    method TakeMutex(m: Mutex, ghost o: W.Mutex<int>)
      requires Valid() && m.w in mutexes && mutexes[m.w] == m && m.w in k.waits && k.waits[m.w].Lock?
      requires o.locked && o.waiters == k.waits[m.w].m.waiters
      requires var k' := k.(waits := k.waits[m.w := K.Lock(o)]); K.Inv(k') && Wired(nx, k')
      modifies m`locked, this`k
      ensures Valid() && k == old(k).(waits := old(k).waits[m.w := K.Lock(o)])
    {
      hide Core, RestOk, WaitsOk, Wired, K.Inv;
      SetLocked(m, true, k.waits, o);
      k := k.(waits := k.waits[m.w := K.Lock(o)]);
    }

    method ParkMutex(m: Mutex, ghost o: W.Mutex<int>)
      requires Valid() && m.w in mutexes && mutexes[m.w] == m && m.w in k.waits && k.waits[m.w].Lock?
      requires o.locked == k.waits[m.w].m.locked && Waiting(nx, k, m.w, K.Lock(o))
      modifies m, this`nx, this`k, tcbs.Values`next, tcbs.Values`state
      ensures Valid() && old(k).current in old(k).threads && k == S.ParkWait(old(k), m.w, K.Lock(o))
    {
      hide Core, RestOk, WaitsOk, Wired, Linked, K.Inv, AppendNx;
      CurrentAt();
      ghost var k' := S.ParkWait(k, m.w, K.Lock(o));
      ParkOnMutex(m, k.threads, k.waits, o, k'.threads[k.current]);
      assert k'.threads.Keys == k.threads.Keys;
      k := k';
    }

    /** uthread_mutex_lock */
    method MutexLock(m: Mutex, events: seq<Tcb>, now: nat)
      requires Valid() && m.w in mutexes && mutexes[m.w] == m && AllLive(events)
      requires S.Enabled(k, S.OpLock(m.w, K.World(Ids(events), now)))
      modifies m, this, tcbs.Values
      ensures Valid() && K.Inv(old(k)) && k == S.Apply(old(k), S.OpLock(m.w, K.World(Ids(events), now)))
    {
      hide Valid, K.Inv, Wired, K.Fits, S.Apply, S.Resume, S.ParkWait, W.LockMutex, Waiting;
      ghost var e := K.World(Ids(events), now);
      WiredOf();
      LockFacts(nx, k, m.w, e);
      MutexShows(m);
      ghost var o := W.LockMutex(k.waits[m.w].m, k.current);
      if !m.locked {
        TakeMutex(m, o);
      } else {
        ParkMutex(m, o);
        Reschedule(events, now);
      }
    }

    lemma WiredOf()
      requires Valid()
      ensures K.Inv(k) && Wired(nx, k)
    {
      hide Core, RestOk, WaitsOk, Wired, K.Inv;
    }

    lemma MutexShows(m: Mutex)
      requires Valid() && m.w in k.waits && k.waits[m.w].Lock? && m.w in mutexes && mutexes[m.w] == m
      ensures m.locked == k.waits[m.w].m.locked && (m.waitHead == null <==> k.waits[m.w].m.waiters == [])
    {
      hide Core, RestOk, Wired, K.Inv;
      MutexAt(k.waits, m);
    }

    method TakeToken(s: Sem, ghost o: W.Sem<int>)
      requires Valid() && s.w in sems && sems[s.w] == s && s.w in k.waits && k.waits[s.w].Semaphore?
      requires o.count == k.waits[s.w].s.count - 1 && o.waiters == k.waits[s.w].s.waiters
      requires var k' := k.(waits := k.waits[s.w := K.Semaphore(o)]); K.Inv(k') && Wired(nx, k')
      modifies s`count, this`k
      ensures Valid() && k == old(k).(waits := old(k).waits[s.w := K.Semaphore(o)])
    {
      hide Core, RestOk, Wired, K.Inv;
      assert SemOk(s.w, k.waits[s.w].s);
      s.count := s.count - 1;
      k := k.(waits := k.waits[s.w := K.Semaphore(o)]);
    }

    method ParkSem(s: Sem, ghost o: W.Sem<int>)
      requires Valid() && s.w in sems && sems[s.w] == s && s.w in k.waits && k.waits[s.w].Semaphore?
      requires o.count == k.waits[s.w].s.count && Waiting(nx, k, s.w, K.Semaphore(o))
      modifies s, this`nx, this`k, tcbs.Values`next, tcbs.Values`state
      ensures Valid() && old(k).current in old(k).threads && k == S.ParkWait(old(k), s.w, K.Semaphore(o))
    {
      hide Core, RestOk, WaitsOk, Wired, Linked, K.Inv, AppendNx;
      CurrentAt();
      ghost var k' := S.ParkWait(k, s.w, K.Semaphore(o));
      ParkOnSem(s, k.threads, k.waits, o, k'.threads[k.current]);
      assert k'.threads.Keys == k.threads.Keys;
      k := k';
    }

    /** uthread_sem_wait */
    method SemWait(s: Sem, events: seq<Tcb>, now: nat)
      requires Valid() && s.w in sems && sems[s.w] == s && AllLive(events)
      requires S.Enabled(k, S.OpWait(s.w, K.World(Ids(events), now)))
      modifies s, this, tcbs.Values
      ensures Valid() && K.Inv(old(k)) && k == S.Apply(old(k), S.OpWait(s.w, K.World(Ids(events), now)))
    {
      hide Valid, K.Inv, Wired, K.Fits, S.Apply, S.Resume, S.ParkWait, W.WaitSem, Waiting;
      ghost var e := K.World(Ids(events), now);
      WiredOf();
      WaitFacts(nx, k, s.w, e);
      SemShows(s);
      ghost var o := W.WaitSem(k.waits[s.w].s, k.current);
      if s.count > 0 {
        TakeToken(s, o);
      } else {
        ParkSem(s, o);
        Reschedule(events, now);
      }
    }

    lemma SemShows(s: Sem)
      requires Valid() && s.w in k.waits && k.waits[s.w].Semaphore? && s.w in sems && sems[s.w] == s
      ensures s.count == k.waits[s.w].s.count && (s.waitHead == null <==> k.waits[s.w].s.waiters == [])
    {
      hide Core, RestOk, Wired, K.Inv;
      SemAt(k.waits, s);
    }

    method SetSleeping(t: Tcb, due: nat, ghost threads: map<int, K.Thread>, ghost x: K.Thread)
      requires Core(threads, ready) && Live(t) && t.id in threads && threads[t.id].place == K.Nowhere
      requires x == threads[t.id].(state := K.IoBlocked, place := K.InSleep, due := due)
      modifies t`state, t`sleepUntil
      ensures Core(threads[t.id := x], ready)
    {
      assert Shows(t, threads[t.id]);
      t.sleepUntil := due;
      t.state := K.IoBlocked;
    }

    method PushSleeper(t: Tcb, ghost q: seq<int>)
      requires Mirrored() && SleepOk(q) && Live(t)
      modifies this`sleepHead, this`nx, t`next
      ensures Mirrored() && SleepOk([t.id] + q) && nx == old(nx)[t.id := First(q)]
    {
      hide Mirrored;
      SetNext(t, sleepHead);
      sleepHead := t;
    }

    /** The current thread goes to the head of the sleep list. */
    method ParkAsleep(due: nat, ghost threads: map<int, K.Thread>, ghost q: seq<int>, ghost x: K.Thread)
      requires Core(threads, ready) && SleepOk(q) && Live(current) && current.id in threads && threads[current.id].place == K.Nowhere
      requires x == threads[current.id].(state := K.IoBlocked, place := K.InSleep, due := due)
      requires Linked(nx[current.id := First(q)], ready)
      modifies this`sleepHead, this`nx, tcbs.Values`next, tcbs.Values`state, tcbs.Values`sleepUntil
      ensures Core(threads[current.id := x], ready) && SleepOk([current.id] + q) && nx == old(nx)[current.id := First(q)]
    {
      hide Core, Linked, Mirrored, Shown, SleepOk;
      SetSleeping(current, due, threads, x);
      Loosen(threads[current.id := x], ready);
      PushSleeper(current, q);
      Relink(threads[current.id := x], ready);
    }

    method ParkSleep(ms: nat, at: nat)
      requires Valid() && k.phase == K.User && k.current in k.threads && SleepOk(k.sleepers)
      requires Asleep(nx, k, ms, at)
      modifies this`sleepHead, this`nx, this`k, tcbs.Values`next, tcbs.Values`state, tcbs.Values`sleepUntil
      ensures Valid() && k == S.ParkSleep(old(k), ms, at)
    {
      hide Core, GlobalOk, SleepOk, CpuOk, WaitsOk, Wired, Linked, K.Inv, S.ParkSleep;
      CurrentAt();
      ghost var k' := S.ParkSleep(k, ms, at);
      ParkAsleep(at + ms * 1000000, k.threads, k.sleepers, k'.threads[k.current]);
      k := k';
    }

    /** uthread_sleep; at is the time it reads first. */
    method Sleep(ms: nat, at: nat, events: seq<Tcb>, now: nat)
      requires Valid() && AllLive(events) && S.Enabled(k, S.OpSleep(ms, at, K.World(Ids(events), now)))
      modifies this, tcbs.Values
      ensures Valid() && K.Inv(old(k)) && k == S.Apply(old(k), S.OpSleep(ms, at, K.World(Ids(events), now)))
    {
      hide Valid, K.Inv, Wired, K.Fits, S.Apply, S.Resume, S.ParkSleep, Asleep, SleepOk;
      ghost var e := K.World(Ids(events), now);
      WiredOf();
      SleepFacts(nx, k, ms, at, e);
      SleepHeadAt();
      SleepOkOf();
      ParkSleep(ms, at);
      Reschedule(events, now);
    }

    lemma SleepOkOf()
      requires Valid()
      ensures SleepOk(k.sleepers)
    {
      hide Core, GlobalOk, SleepOk, CpuOk, WaitsOk, Wired, K.Inv;
    }

    /** The current thread stops running without entering a list: k' is what the kernel becomes. */
    method LeaveCpu(s: K.State, ghost k': K.Kernel)
      requires Valid() && k.current in k.threads && K.Inv(k') && Wired(nx, k')
      requires Left(k, k', s)
      modifies this`k, tcbs.Values`state
      ensures Valid() && k == k'
    {
      hide Core, RestOk, WaitsOk, Wired, Linked, K.Inv;
      CurrentAt();
      SetState(current, s, k.threads, k'.threads[k.current]);
      assert k'.threads.Keys == k.threads.Keys;
      k := k';
    }

    /** The blocking part of uthread_read and uthread_write. */
    method IoBlock(events: seq<Tcb>, now: nat)
      requires Valid() && AllLive(events) && S.Enabled(k, S.OpIo(K.World(Ids(events), now)))
      modifies this, tcbs.Values
      ensures Valid() && K.Inv(old(k)) && k == S.Apply(old(k), S.OpIo(K.World(Ids(events), now)))
    {
      hide Valid, K.Inv, Wired, K.Fits, S.Apply, S.Resume, S.ParkIo, Left;
      WiredOf();
      IoFacts(nx, k, K.World(Ids(events), now));
      LeaveCpu(K.IoBlocked, S.ParkIo(k));
      Reschedule(events, now);
    }

    /** uthread_exit */
    method Exit(events: seq<Tcb>, now: nat)
      requires Valid() && AllLive(events) && S.Enabled(k, S.OpExit(K.World(Ids(events), now)))
      modifies this, tcbs.Values
      ensures Valid() && K.Inv(old(k)) && k == S.Apply(old(k), S.OpExit(K.World(Ids(events), now)))
    {
      hide Valid, K.Inv, K.Domain, Wired, K.Fits, S.Apply, S.ParkExit, Left, Reported, S.Parked, K.AdmitAll, K.CheckSleep, S.Schedule;
      WiredOf();
      ExitFacts(nx, k, K.World(Ids(events), now));
      LeaveCpu(K.Finished, S.ParkExit(k));
      FitsReported(events, now);
      CheckIoEvents(events);
      CheckSleepList(now);
      Schedule();
    }

    /** One round of the idle loop. */
    method Poll(events: seq<Tcb>, now: nat) returns (found: bool)
      requires Valid() && AllLive(events) && S.Enabled(k, S.OpPoll(K.World(Ids(events), now)))
      modifies this, tcbs.Values
      ensures Valid() && K.Inv(old(k)) && k == S.Apply(old(k), S.OpPoll(K.World(Ids(events), now)))
      ensures tcbs == old(tcbs) && k.phase == if found then K.User else K.Idle
    {
      hide Valid, K.Inv, K.Domain, K.Fits, S.Apply, Reported, S.Parked, K.AdmitAll, K.CheckSleep, K.Dispatch;
      InvOf();
      PollFacts(k, K.World(Ids(events), now));
      SetPhase(K.Switching);
      FitsReported(events, now);
      CheckIoEvents(events);
      CheckSleepList(now);
      var next := Dispatch();
      found := next != null;
      if !found { SetPhase(K.Idle); }
    }

    /** The idle loop: round after round until a thread is ready, which then runs, or until reports, what epoll and
        the clock say in each round, gives out. */
    method IdleLoop(reports: seq<Report>) returns (found: bool)
      requires Valid() && k.phase == K.Idle && (forall i | 0 <= i < |reports| :: AllLive(reports[i].events))
      requires PollsOk(k, Worlds(reports))
      modifies this, tcbs.Values
      ensures Valid() && k == Polled(old(k), Worlds(reports)) && k.phase == if found then K.User else K.Idle
    {
      hide Valid, K.Inv, S.Apply, S.Enabled;
      found := false;
      var i := 0;
      assert reports[0..] == reports;
      while i < |reports| && !found
        invariant 0 <= i <= |reports| && Valid() && tcbs == old(tcbs) && k.phase == if found then K.User else K.Idle
        invariant PollsOk(k, Worlds(reports[i..])) && Polled(k, Worlds(reports[i..])) == Polled(old(k), Worlds(reports))
      {
        WorldsNext(reports, i);
        found := Poll(reports[i].events, reports[i].now);
        i := i + 1;
      }
    }

    /** uthread_set_scheduler, for the two built-in policies */
    method SetScheduler(p: K.Policy)
      requires Valid() && S.Enabled(k, S.OpPolicy(p))
      modifies this`policy, this`k
      ensures Valid() && K.Inv(old(k)) && k == S.Apply(old(k), S.OpPolicy(p)) && policy == p
    {
      hide Core, GlobalOk, SleepOk, WaitsOk, Linked, K.Inv;
      S.ApplyKeeps(k, S.OpPolicy(p));
      policy := p;
      k := k.(policy := p);
    }

    // ----- new mutexes, semaphores and threads -----

    ghost method AddMutex(m: Mutex, waits: map<int, K.WaitObject>)
      requires WaitsOk(waits) && m.w !in waits && !m.locked && m.waitHead == null == m.waitTail
      modifies this`mutexes
      ensures WaitsOk(waits[m.w := K.Lock(W.NewMutex())]) && mutexes == old(mutexes)[m.w := m]
    {
      mutexes := mutexes[m.w := m];
    }

    ghost method AddSem(s: Sem, waits: map<int, K.WaitObject>, count: nat)
      requires WaitsOk(waits) && s.w !in waits && s.count == count && s.waitHead == null == s.waitTail
      modifies this`sems
      ensures WaitsOk(waits[s.w := K.Semaphore(W.NewSem(count))]) && sems == old(sems)[s.w := s]
    {
      sems := sems[s.w := s];
    }

    /** uthread_mutex_init */
    method NewMutex(ghost w: int) returns (m: Mutex)
      requires Valid() && S.Enabled(k, S.OpNewMutex(w))
      modifies this`mutexes, this`k
      ensures Valid() && fresh(m) && m.w == w && w in mutexes && mutexes[w] == m
      ensures K.Inv(old(k)) && k == S.Apply(old(k), S.OpNewMutex(w))
    {
      hide Core, RestOk, WaitsOk, Wired, K.Inv;
      WiredNewObject(nx, k, w, K.Lock(W.NewMutex()));
      S.ApplyKeeps(k, S.OpNewMutex(w));
      m := new Mutex(w);
      AddMutex(m, k.waits);
      k := k.(waits := k.waits[w := K.Lock(W.NewMutex())]);
    }

    /** uthread_sem_init */
    method NewSem(ghost w: int, count: nat) returns (s: Sem)
      requires Valid() && S.Enabled(k, S.OpNewSem(w, count))
      modifies this`sems, this`k
      ensures Valid() && fresh(s) && s.w == w && w in sems && sems[w] == s
      ensures K.Inv(old(k)) && k == S.Apply(old(k), S.OpNewSem(w, count))
    {
      hide Core, RestOk, WaitsOk, Wired, K.Inv;
      WiredNewObject(nx, k, w, K.Semaphore(W.NewSem(count)));
      S.ApplyKeeps(k, S.OpNewSem(w, count));
      s := new Sem(w, count);
      AddSem(s, k.waits, count);
      k := k.(waits := k.waits[w := K.Semaphore(W.NewSem(count))]);
    }

    twostate lemma MirroredMore(t: Tcb)
      requires old(Mirrored()) && old(t.id !in tcbs && t.next == null) && unchanged(old(tcbs).Values) && unchanged(t)
      requires tcbs == old(tcbs)[t.id := t] && nx == old(nx)[t.id := None]
      ensures Mirrored()
    {
    }

    twostate lemma ReadyMore(t: Tcb)
      requires old(ReadyOk()) && old(t.id !in tcbs && t.id !in ready) && tcbs == old(tcbs)[t.id := t] && nx == old(nx)[t.id := None]
      requires ready == old(ready) && readyCount == old(readyCount) && readyHead == old(readyHead) && readyTail == old(readyTail)
      ensures ReadyOk()
    {
      hide Linked;
      LinkedNew(old(nx), ready, t.id);
    }

    twostate lemma RingMore(t: Tcb)
      requires old(Ring()) && old(t.id !in tcbs && t.id !in all && t.globalNext == null == t.globalPrev)
      requires unchanged(old(tcbs).Values) && unchanged(t) && globalList == old(globalList) && all == old(all)
      requires tcbs == old(tcbs)[t.id := t] && gn == old(gn)[t.id := None] && gp == old(gp)[t.id := None]
      ensures Ring()
    {
      hide Double, GlobalMirrored;
      DoubleNew(old(gn), old(gp), all, t.id);
      GlobalMirroredMore(t);
    }

    twostate lemma GlobalMirroredMore(t: Tcb)
      requires old(GlobalMirrored()) && old(t.id !in tcbs && t.globalNext == null == t.globalPrev)
      requires unchanged(old(tcbs).Values) && unchanged(t)
      requires tcbs == old(tcbs)[t.id := t] && gn == old(gn)[t.id := None] && gp == old(gp)[t.id := None]
      ensures GlobalMirrored()
    {
    }

    twostate lemma CoreMore(t: Tcb)
      requires old(Core(k.threads, k.ready)) && old(t.id !in tcbs && t.id !in ready && t.next == null)
      requires unchanged(old(tcbs).Values) && unchanged(t) && k == old(k)
      requires ready == old(ready) && readyCount == old(readyCount) && readyHead == old(readyHead) && readyTail == old(readyTail)
      requires tcbs == old(tcbs)[t.id := t] && nx == old(nx)[t.id := None]
      ensures forall x: K.Thread | Shows(t, x) :: Core(k.threads[t.id := x], k.ready)
    {
      hide Mirrored, ReadyOk;
      MirroredMore(t);
      ReadyMore(t);
    }

    twostate lemma RestMore(t: Tcb)
      requires old(SideOk())
      requires old(t.id !in tcbs) && k == old(k) && tcbs == old(tcbs)[t.id := t]
      requires sleepHead == old(sleepHead) && current == old(current) && policy == old(policy) && epollFd == old(epollFd)
      requires creationCounter == old(creationCounter) && mutexes == old(mutexes) && sems == old(sems)
      requires unchanged(mutexes.Values) && unchanged(sems.Values)
      ensures SideOk()
    {
    }

    /** A new control block, which nothing points to yet, is from now on live. */
    ghost method Register(t: Tcb, x: K.Thread)
      requires Core(k.threads, k.ready) && Ring() && SideOk() && t.id !in k.threads && t.id !in k.ready && t.id !in all
      requires t.next == null == t.globalNext == t.globalPrev && Shows(t, x)
      modifies this`tcbs, this`nx, this`gn, this`gp
      ensures Core(k.threads[t.id := x], k.ready) && Ring() && SideOk() && Live(t) && tcbs == old(tcbs)[t.id := t]
      ensures nx == old(nx)[t.id := None]
    {
      hide Ring, Core, SideOk, Shows;
      CoreReady(k.threads, k.ready);
      tcbs, nx, gn, gp := tcbs[t.id := t], nx[t.id := None], gn[t.id := None], gp[t.id := None];
      CoreMore(t);
      RingMore(t);
      RestMore(t);
      assert Shows(t, x);
    }

    /** global_list_add, and then enqueue */
    method Publish(t: Tcb, ghost threads: map<int, K.Thread>, ghost members: set<int>)
      requires Core(threads, ready) && Ring() && (forall u :: u in all <==> u in members) && Live(t)
      requires t.id !in ready && t.id !in members
      modifies this`readyHead, this`readyTail, this`readyCount, this`ready, this`nx, tcbs.Values`next,
               this`globalList, this`gn, this`gp, this`all, tcbs.Values`globalNext, tcbs.Values`globalPrev
      ensures Core(threads, old(ready) + [t.id]) && GlobalOk(members + {t.id}) && all == [t.id] + old(all)
      ensures nx == AppendNx(old(nx), Last(old(ready)), t.id)
    {
      hide Ring, Mirrored, ReadyOk, Shown, AppendNx;
      GlobalListAdd(t);
      Enqueue(t);
    }

    /** uthread_create_with_priority; id is the next thread number, result says what could be allocated. */
    method Create(id: int, priority: int, result: S.CreateResult) returns (t: Tcb?)
      requires Valid() && S.Enabled(k, S.OpCreate(id, priority, result))
      modifies this, tcbs.Values
      ensures Valid() && K.Inv(old(k)) && k == S.Apply(old(k), S.OpCreate(id, priority, result))
      ensures Live(t) && (t != null <==> result.Made?) && (t != null ==> t.id == id && First(all) == Some(id))
      ensures creationCounter == old(creationCounter) + if result.NoTcb? then 0 else 1
      ensures t != null ==> t.priority == priority && t.order == old(creationCounter) && t.state == K.Ready && Last(ready) == Some(id)
    {
      hide Valid, K.Inv, Wired, S.Apply, K.Gc, Restrict;
      WiredOf();
      CreateFacts(k, id, priority, result);
      ghost var was := tcbs;
      GcFinishedThreads();
      Fewer(was, k.threads.Keys);
      if result.NoTcb? { return null; }
      if result.NoStack? {
        CountCreation();
        return null;
      }
      t := Make(id, priority);
    }

    method CountCreation()
      requires Valid() && K.Inv(k.(counter := k.counter + 1))
      modifies this`creationCounter, this`k
      ensures Valid() && k == old(k).(counter := old(k).counter + 1) && creationCounter == old(creationCounter) + 1
    {
      hide Core, GlobalOk, SleepOk, WaitsOk, Linked, K.Inv;
      creationCounter := creationCounter + 1;
      k := k.(counter := k.counter + 1);
    }

    /** A new control block is entered everywhere; x is its thread record. */
    method Insert(t: Tcb, ghost x: K.Thread)
      requires Core(k.threads, k.ready) && GlobalOk(k.threads.Keys) && SideOk()
      requires t.id !in k.threads && t.id !in k.ready && t.next == null == t.globalNext == t.globalPrev && Shows(t, x)
      modifies this`readyHead, this`readyTail, this`readyCount, this`ready, this`nx, this`tcbs,
               this`globalList, this`gn, this`gp, this`all, tcbs.Values`next, tcbs.Values`globalNext, tcbs.Values`globalPrev, t
      ensures Core(k.threads[t.id := x], k.ready + [t.id]) && tcbs == old(tcbs)[t.id := t]
      ensures GlobalOk(k.threads.Keys + {t.id}) && SideOk()
      ensures nx == AppendNx(old(nx)[t.id := None], Last(k.ready), t.id) && First(all) == Some(t.id)
    {
      hide Core, Ring, SideOk, AppendNx, Shows;
      CoreReady(k.threads, k.ready);
      Register(t, x);
      CoreReady(k.threads[t.id := x], k.ready);
      Publish(t, k.threads[t.id := x], k.threads.Keys);
    }

    /** A freshly allocated control block becomes a thread. */
    method Enter(t: Tcb, ghost k': K.Kernel)
      requires Valid() && t.id !in k.threads && t.id !in k.ready && t.next == null == t.globalNext == t.globalPrev
      requires K.Inv(k') && Wired(AppendNx(nx[t.id := None], Last(k.ready), t.id), k') && Spawned(k, k', t.id)
      requires Shows(t, k'.threads[t.id])
      modifies this`readyHead, this`readyTail, this`readyCount, this`ready, this`nx, this`k, this`tcbs, this`creationCounter,
               this`globalList, this`gn, this`gp, this`all, tcbs.Values`next, tcbs.Values`globalNext, tcbs.Values`globalPrev, t
      ensures Valid() && Live(t) && First(all) == Some(t.id) && k == k'
    {
      hide Core, GlobalOk, SideOk, SleepOk, WaitsOk, CpuOk, Wired, K.Inv, AppendNx, Shows;
      SideOf();
      Insert(t, k'.threads[t.id]);
      NextOrder();
      k := k';
    }

    /** The new thread, from allocation to the ready queue. */
    method Make(id: int, priority: int) returns (t: Tcb)
      requires Valid() && k.phase == K.User && id !in k.h.created && K.Inv(S.Spawn(k, id, priority, S.Made))
      modifies this`readyHead, this`readyTail, this`readyCount, this`ready, this`nx, this`k, this`tcbs, this`creationCounter,
               this`globalList, this`gn, this`gp, this`all, tcbs.Values`next, tcbs.Values`globalNext, tcbs.Values`globalPrev
      ensures Valid() && Live(t) && t.id == id && First(all) == Some(id) && k == S.Spawn(old(k), id, priority, S.Made)
      ensures t.priority == priority && t.order == old(creationCounter) && t.state == K.Ready && Last(ready) == Some(id)
      ensures creationCounter == old(creationCounter) + 1
    {
      hide Valid, Wired, K.Inv, AppendNx, S.Spawn;
      WiredOf();
      CounterAt();
      SpawnFacts(nx, k, id, priority);
      t := new Tcb(id, priority, creationCounter);
      Enter(t, S.Spawn(k, id, priority, S.Made));
      CurrentAt();
      CounterAt();
      SpawnLast(old(k), id, priority);
      StateOf(t);
    }

    lemma CounterAt()
      requires Valid()
      ensures creationCounter == k.counter
    {
      hide Core, GlobalOk, Wired, K.Inv, WaitsOk;
    }

    lemma SideOf()
      requires Valid()
      ensures SideOk()
    {
      hide Core, GlobalOk, Wired, K.Inv;
    }

    method NextOrder()
      requires SideOk()
      modifies this`creationCounter
      ensures SleepOk(k.sleepers) && WaitsOk(k.waits) && CpuOk(k.current, k.policy, k.epollOpen, k.counter + 1)
    {
      hide SleepOk, WaitsOk;
      creationCounter := creationCounter + 1;
    }

    // ----- virtual processors: each method is one section under the queue lock -----

    ghost predicate VpOk(vp: Vp)
      reads this`tcbs, this`nx, vp
    {
      && Live(vp.localHead) && Live(vp.localTail) && Linked(nx, vp.queue)
      && Ptr(vp.localHead) == First(vp.queue) && Ptr(vp.localTail) == Last(vp.queue) && vp.localCount == |vp.queue|
    }

    /** The processor numbers in the control blocks. */
    ghost function VpIds(): map<int, int>
      reads this`tcbs, tcbs.Values`vpId
    {
      map t | t in tcbs :: tcbs[t].vpId
    }

    method VpEnqueue(vp: Vp, t: Tcb)
      requires Mirrored() && VpOk(vp) && Live(t) && t.id !in vp.queue
      modifies vp, this`nx, tcbs.Values`next, t`vpId
      ensures Mirrored() && VpOk(vp) && vp.queue == old(vp.queue) + [t.id] && t.vpId == vp.id
      ensures nx == AppendNx(old(nx), Last(old(vp.queue)), t.id) && VpIds() == Stamp(old(VpIds()), [t.id], vp.id)
    {
      hide Linked, NoDup, Mirrored, Stamp, VpIds;
      LinkedAppend(nx, vp.queue, t.id);
      SetNext(t, null);
      SetVpId(t, vp.id);
      if vp.localTail != null { SetNext(vp.localTail, t); } else { vp.localHead := t; }
      vp.localTail := t;
      vp.localCount := vp.localCount + 1;
      vp.queue := vp.queue + [t.id];
    }

    method VpDequeue(vp: Vp) returns (t: Tcb?)
      requires Mirrored() && VpOk(vp)
      modifies vp, this`nx, tcbs.Values`next
      ensures Mirrored() && VpOk(vp) && Live(t) && Ptr(t) == First(old(vp.queue))
      ensures t == null ==> vp.queue == old(vp.queue) == [] && nx == old(nx)
      ensures t != null ==> vp.queue == old(vp.queue)[1..] && t.id in old(nx) && nx == old(nx)[t.id := None]
    {
      hide Chain, NoDup, Mirrored;
      t := vp.localHead;
      if t != null {
        ChainPop(nx, Ptr(vp.localHead), vp.queue);
        MirroredAt(t);
        vp.localHead := t.next;
        if vp.localHead == null { vp.localTail := null; }
        SetNext(t, null);
        vp.localCount := vp.localCount - 1;
        vp.queue := vp.queue[1..];
      }
    }

    method SetVpId(t: Tcb, v: int)
      requires Mirrored() && Live(t)
      modifies t`vpId
      ensures t.vpId == v && VpIds() == Stamp(old(VpIds()), [t.id], v)
    {
      assert forall u | u in tcbs :: tcbs[u].id == u;
      t.vpId := v;
    }

    /** A chain in transit. */
    ghost predicate ChainOf(head: Tcb?, tail: Tcb?, chain: seq<int>)
      reads this`tcbs, this`nx
    {
      Live(head) && Live(tail) && Linked(nx, chain) && Ptr(head) == First(chain) && Ptr(tail) == Last(chain)
    }

    /** The victim's list while its front is being taken: the tail is only corrected at the end. */
    ghost predicate Plundered(vp: Vp, rest: seq<int>)
      reads this`tcbs, this`nx, vp
    {
      Live(vp.localHead) && Linked(nx, rest) && Ptr(vp.localHead) == First(rest) && vp.localCount == |rest|
    }

    /** One round of the two-pointer loop: the first element of the victim goes to the end of the chain. */
    method TakeOne(thief: Vp, victim: Vp, head: Tcb?, tail: Tcb?, ghost chain: seq<int>, ghost rest: seq<int>)
      returns (head': Tcb?, tail': Tcb?)
      requires Mirrored() && ChainOf(head, tail, chain) && Plundered(victim, rest)
      requires rest != [] && NoDup(chain + rest) && thief != victim
      modifies victim`localHead, victim`localCount, this`nx, tcbs.Values`next, tcbs.Values`vpId
      ensures Mirrored() && ChainOf(head', tail', chain + [rest[0]]) && Plundered(victim, rest[1..])
      ensures OutsideSame(old(nx), nx, chain + rest) && VpIds() == Stamp(old(VpIds()), [rest[0]], thief.id)
    {
      hide Linked, NoDup, Mirrored, OutsideSame;
      var t := victim.localHead;
      TakeFacts(nx, chain, rest);
      MirroredAt(t);
      victim.localHead := t.next;
      victim.localCount := victim.localCount - 1;
      SetNext(t, null);
      SetVpId(t, thief.id);
      head' := head;
      if tail != null { SetNext(tail, t); } else { head' := t; }
      tail' := t;
    }

    /** The two-pointer loop. The early break is never taken. */
    method TakeChain(thief: Vp, victim: Vp, count: int, ghost q: seq<int>) returns (head: Tcb?, tail: Tcb?)
      requires Mirrored() && Plundered(victim, q) && NoDup(q) && thief != victim && 0 <= count <= |q| && Linked(nx, [])
      modifies victim`localHead, victim`localCount, this`nx, tcbs.Values`next, tcbs.Values`vpId
      ensures Mirrored() && ChainOf(head, tail, q[..count]) && Plundered(victim, q[count..])
      ensures OutsideSame(old(nx), nx, q) && VpIds() == Stamp(old(VpIds()), q[..count], thief.id)
    {
      hide Linked, NoDup, Mirrored, OutsideSame, Plundered;
      head, tail := null, null;
      EmptySlices(nx, q);
      StampNone(VpIds(), thief.id);
      var j := 0;
      while j < count
        invariant 0 <= j <= count && Mirrored() && ChainOf(head, tail, q[..j]) && Plundered(victim, q[j..])
        invariant OutsideSame(old(nx), nx, q) && tcbs == old(tcbs)
        invariant VpIds() == Stamp(old(VpIds()), q[..j], thief.id)
      {
        Slices(q, j);
        StampMore(old(VpIds()), q[..j], q[j], thief.id);
        PlunderedHead(victim, q[j..]);
        if victim.localHead == null { break; }
        ghost var was := nx;
        head, tail := TakeOne(thief, victim, head, tail, q[..j], q[j..]);
        StillOutside(old(nx), was, nx, q);
        j := j + 1;
      }
    }

    lemma PlunderedHead(vp: Vp, rest: seq<int>)
      requires Plundered(vp, rest)
      ensures vp.localHead == null <==> rest == []
    {
    }

    /** The victim's section of try_steal: half of its queue, from the front and in order, becomes a chain,
        the rest stays, in order, with the right tail and count. The threads of the chain get the thief's number. */
    method TakeHalf(thief: Vp, victim: Vp) returns (head: Tcb?, tail: Tcb?, count: int)
      requires Mirrored() && VpOk(victim) && thief != victim
      modifies victim, this`nx, tcbs.Values`next, tcbs.Values`vpId
      ensures Mirrored() && VpOk(victim)
      ensures var (q, n) := (old(victim.queue), if |old(victim.queue)| <= 1 then 0 else |old(victim.queue)| / 2);
        count == n && ChainOf(head, tail, q[..n]) && victim.queue == q[n..] && (q != [] ==> victim.queue != [])
      ensures OutsideSame(old(nx), nx, old(victim.queue)) && VpIds() == Stamp(old(VpIds()), old(victim.queue)[..count], thief.id)
    {
      hide Linked, NoDup, Mirrored, OutsideSame;
      head, tail, count := null, null, 0;
      ghost var q := victim.queue;
      EmptyLinked(nx, q);
      StampNone(VpIds(), thief.id);
      if victim.localCount <= 1 { return; }
      count := victim.localCount / 2;
      head, tail := TakeChain(thief, victim, count, q);
      victim.localTail := if victim.localHead == null then null else victim.localTail;
      victim.queue := q[count..];
    }

    /** The thief's section: the chain goes to the end of its queue. */
    method AppendChain(thief: Vp, head: Tcb, tail: Tcb, count: int, ghost chain: seq<int>)
      requires Mirrored() && VpOk(thief) && ChainOf(head, tail, chain) && count == |chain| && NoDup(thief.queue + chain)
      modifies thief, this`nx, tcbs.Values`next
      ensures Mirrored() && VpOk(thief) && thief.queue == old(thief.queue) + chain
      ensures OutsideSame(old(nx), nx, old(thief.queue) + chain)
    {
      hide Linked, NoDup, Mirrored;
      JoinFacts(nx, thief.queue, chain);
      JoinOutside(nx, thief.queue, chain);
      if thief.localTail != null { SetNext(thief.localTail, head); } else { thief.localHead := head; }
      thief.localTail := tail;
      thief.localCount := thief.localCount + count;
      thief.queue := thief.queue + chain;
    }

    /** try_steal on one victim, when nobody interferes between its sections: nothing happens to a victim with
        fewer than two threads; otherwise the first half of its queue follows the thief's own threads, in order,
        and the first of all these is returned. */
    method StealFrom(thief: Vp, victim: Vp) returns (t: Tcb?)
      requires Mirrored() && VpOk(thief) && VpOk(victim) && thief != victim && Apart(thief.queue, victim.queue)
      modifies thief, victim, this`nx, tcbs.Values`next, tcbs.Values`vpId
      ensures Mirrored() && VpOk(thief) && VpOk(victim) && Live(t)
      ensures var (q, n) := (old(victim.queue), if |old(victim.queue)| <= 1 then 0 else |old(victim.queue)| / 2);
        && victim.queue == q[n..] && VpIds() == Stamp(old(VpIds()), q[..n], thief.id)
        && (if n == 0 then t == null && thief.queue == old(thief.queue)
            else t != null && [t.id] + thief.queue == old(thief.queue) + q[..n])
      ensures OutsideSame(old(nx), nx, old(thief.queue) + old(victim.queue))
    {
      hide Linked, NoDup, Mirrored, OutsideSame, Apart;
      t := null;
      ghost var (p, q, nx0) := (thief.queue, victim.queue, nx);
      var head, tail, count := TakeHalf(thief, victim);
      TheftApart(nx0, nx, p, q, count);
      if head != null {
        ghost var nx1 := nx;
        AppendChain(thief, head, tail, count, q[..count]);
        LeftoverApart(nx0, nx1, nx, p, q, count);
        ghost var nx2 := nx;
        t := VpDequeue(thief);
        LeftoverStays(nx0, nx2, nx, p, q, count);
      }
    }
  }

  /** One round's answers. */
  datatype Report = Report(events: seq<Tcb>, now: nat)

  function Worlds(reports: seq<Report>): (r: seq<K.World>)
    ensures |r| == |reports|
  {
    seq(|reports|, i requires 0 <= i < |reports| => K.World(Ids(reports[i].events), reports[i].now))
  }

  lemma WorldsNext(reports: seq<Report>, i: nat)
    requires i < |reports|
    ensures var r := Worlds(reports[i..]);
      r != [] && r[0] == K.World(Ids(reports[i].events), reports[i].now) && r[1..] == Worlds(reports[i + 1..])
  {
    assert reports[i..][1..] == reports[i + 1..];
  }

  function Ids(events: seq<Tcb>): (r: seq<int>)
    ensures |r| == |events|
  {
    seq(|events|, i requires 0 <= i < |events| => events[i].id)
  }

  predicate Stays(p: Tcb?, keep: set<int>) { p != null ==> p.id in keep }

  /** Nothing is before a: a has the smallest priority number, and the smallest creation number of these. */
  predicate Precedes(a: Tcb, b: Tcb) {
    a.priority < b.priority || (a.priority == b.priority && a.order <= b.order)
  }

  /** The control block shows what the model's thread record says. */
  ghost predicate Shows(t: Tcb, x: K.Thread)
    reads t`state, t`sleepUntil
  {
    && t.state == x.state && t.priority == x.priority && t.order == x.order
    && (x.place.InSleep? ==> t.sleepUntil == x.due)
  }
}
