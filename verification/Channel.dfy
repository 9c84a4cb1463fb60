/** The channel protocol: a circular buffer guarded by two semaphores and a mutex, used by any number
    of senders and receivers. Semaphore and mutex calls are atomic sections; between any two steps of
    one thread any other thread may run. */
module Channel {
  import opened Basics
  import opened WaitObjects

  const MAX_CAPACITY := 64

  /** Where a thread is in its channel call. A Queued thread is on a wait list. */
  datatype Pc =
    | Idle | Returned(v: int)
    | SendWait(v: int) | SendQueued(v: int) | SendLock(v: int) | SendLockQueued(v: int)
    | SendStore(v: int) | SendAdvance(v: int) | SendUnlock | SendPost
    | RecvWait | RecvQueued | RecvLock | RecvLockQueued
    | RecvLoad | RecvAdvance(v: int) | RecvUnlock(v: int) | RecvPost(v: int)

  /** written and taken are history: the messages stored and the messages read, in the order of the
      mutex sections. */
  datatype Chan = Chan(capacity: int, buffer: seq<int>, head: int, tail: int, space: Sem<int>, messages: Sem<int>,
                       mutex: Mutex<int>, pc: seq<Pc>, written: seq<int>, taken: seq<int>)

  predicate Sizes(c: Chan) {
    0 < c.capacity <= |c.buffer| && 0 <= c.head < c.capacity && 0 <= c.tail < c.capacity
  }

  /** uthread_channel_init: an empty channel of the capacity asked for, or of the maximum if that is less. The
      buffer holds whatever it held. */
  function Init(capacity: int, buffer: seq<int>, threads: nat): (c: Chan)
    requires 0 < capacity && |buffer| == MAX_CAPACITY
    ensures Sizes(c) && c.capacity == (if capacity > MAX_CAPACITY then MAX_CAPACITY else capacity)
    ensures c.space.count == c.capacity && c.messages.count == 0 && !c.mutex.locked && c.written == [] == c.taken
    ensures c.space.waiters == c.messages.waiters == c.mutex.waiters == [] && c.head == 0 == c.tail
  {
    var n := if capacity > MAX_CAPACITY then MAX_CAPACITY else capacity;
    Fresh(n, buffer, threads)
  }

  function Fresh(capacity: nat, buffer: seq<int>, threads: nat): (c: Chan)
    requires 0 < capacity <= |buffer|
    ensures Sizes(c)
  {
    Chan(capacity, buffer, 0, 0, NewSem(capacity), NewSem(0), NewMutex(), seq(threads, _ => Idle), [], [])
  }

  predicate Resting(p: Pc) { p.Idle? || p.Returned? }
  predicate Queued(p: Pc) { p.SendQueued? || p.SendLockQueued? || p.RecvQueued? || p.RecvLockQueued? }
  predicate InSection(p: Pc) {
    p.SendStore? || p.SendAdvance? || p.SendUnlock? || p.RecvLoad? || p.RecvAdvance? || p.RecvUnlock?
  }

  predicate CanStep(c: Chan, t: int) {
    0 <= t < |c.pc| && !Resting(c.pc[t]) && !Queued(c.pc[t])
  }

  /** Where a thread continues when it is taken off a wait list: it has its token or the lock. */
  function Resumed(p: Pc): Pc {
    match p
    case SendQueued(v) => SendLock(v)
    case SendLockQueued(v) => SendStore(v)
    case RecvQueued => RecvLock
    case RecvLockQueued => RecvLoad
    case _ => p
  }

  /** The head of the wait list q, if any, resumes. */
  function ResumeHead(pc: seq<Pc>, q: seq<int>): (r: seq<Pc>)
    ensures |r| == |pc|
  {
    if q != [] && 0 <= q[0] < |pc| then pc[q[0] := Resumed(pc[q[0]])] else pc
  }

  /** The next atomic step of thread t in its call. */
  function Step(c: Chan, t: int): (r: Chan)
    requires Sizes(c) && CanStep(c, t)
    ensures Sizes(r) && |r.pc| == |c.pc|
  {
    var pc := c.pc;
    match pc[t]
    case SendWait(v) =>
      c.(space := WaitSem(c.space, t), pc := pc[t := if c.space.count > 0 then SendLock(v) else SendQueued(v)])
    case SendLock(v) =>
      c.(mutex := LockMutex(c.mutex, t), pc := pc[t := if c.mutex.locked then SendLockQueued(v) else SendStore(v)])
    case SendStore(v) => c.(buffer := c.buffer[c.tail := v], pc := pc[t := SendAdvance(v)])
    case SendAdvance(v) =>
      c.(tail := (c.tail + 1) % c.capacity, written := c.written + [v], pc := pc[t := SendUnlock])
    case SendUnlock =>
      c.(mutex := UnlockMutex(c.mutex), pc := ResumeHead(pc, c.mutex.waiters)[t := SendPost])
    case SendPost =>
      c.(messages := PostSem(c.messages), pc := ResumeHead(pc, c.messages.waiters)[t := Idle])
    case RecvWait =>
      c.(messages := WaitSem(c.messages, t), pc := pc[t := if c.messages.count > 0 then RecvLock else RecvQueued])
    case RecvLock =>
      c.(mutex := LockMutex(c.mutex, t), pc := pc[t := if c.mutex.locked then RecvLockQueued else RecvLoad])
    case RecvLoad => c.(pc := pc[t := RecvAdvance(c.buffer[c.head])])
    case RecvAdvance(v) =>
      c.(head := (c.head + 1) % c.capacity, taken := c.taken + [v], pc := pc[t := RecvUnlock(v)])
    case RecvUnlock(v) =>
      c.(mutex := UnlockMutex(c.mutex), pc := ResumeHead(pc, c.mutex.waiters)[t := RecvPost(v)])
    case RecvPost(v) =>
      c.(space := PostSem(c.space), pc := ResumeHead(pc, c.space.waiters)[t := Returned(v)])
  }

  /** A thread that is in no call begins one, or puts a received message away. */
  function Begin(c: Chan, t: int, p: Pc): Chan
    requires 0 <= t < |c.pc|
  {
    c.(pc := c.pc[t := p])
  }

  predicate MayBegin(c: Chan, t: int, p: Pc) {
    0 <= t < |c.pc| && Resting(c.pc[t]) && (p.Idle? || p.SendWait? || p.RecvWait?)
  }

  // ----- the invariant -----

  /** A token of `space` is spent on every thread that may still store, and on every thread that has
      read and not yet posted. */
  function SpaceDebt(p: Pc): int {
    if p.SendLock? || p.SendLockQueued? || p.SendStore? || p.SendAdvance? || p.RecvUnlock? || p.RecvPost? then 1 else 0
  }

  /** A token of `messages` is owed by every thread that has stored and not yet posted, and spent on
      every thread that may still read. */
  function MessageDebt(p: Pc): int {
    if p.SendUnlock? || p.SendPost? || p.RecvLock? || p.RecvLockQueued? || p.RecvLoad? || p.RecvAdvance? then 1 else 0
  }

  /** q lists, without duplicates, exactly the threads whose program counter is in the given state. */
  ghost predicate Lists(pc: seq<Pc>, q: seq<int>, f: Pc -> bool) {
    && NoDup(q)
    && (forall i | 0 <= i < |q| :: 0 <= q[i] < |pc| && f(pc[q[i]]))
    && (forall t | 0 <= t < |pc| && f(pc[t]) :: t in q)
  }

  predicate OnSpace(p: Pc) { p.SendQueued? }
  predicate OnMessages(p: Pc) { p.RecvQueued? }
  predicate OnMutex(p: Pc) { p.SendLockQueued? || p.RecvLockQueued? }

  ghost predicate WaitersOk(pc: seq<Pc>, space: Sem<int>, messages: Sem<int>, mutex: Mutex<int>) {
    && SemInv(space) && SemInv(messages) && MutexInv(mutex)
    && Lists(pc, space.waiters, OnSpace)
    && Lists(pc, messages.waiters, OnMessages)
    && Lists(pc, mutex.waiters, OnMutex)
  }

  ghost predicate OwnerOk(pc: seq<Pc>, m: Mutex<int>) {
    && (forall t | 0 <= t < |pc| && InSection(pc[t]) :: m.Owner() == Some(t))
    && (m.locked ==> m.Owner().Some? && 0 <= m.Owner().value < |pc| && InSection(pc[m.Owner().value]))
  }

  /** Every slot and every message is accounted for. */
  ghost predicate BalanceOk(c: Chan) {
    && c.space.count + SumF(c.pc, SpaceDebt) + |c.written| - |c.taken| == c.capacity
    && c.messages.count + SumF(c.pc, MessageDebt) == |c.written| - |c.taken|
  }

  /** The buffer holds the messages written and not yet taken, oldest at head. */
  ghost predicate FifoOk(c: Chan)
    requires Sizes(c)
  {
    && c.taken <= c.written && |c.written| - |c.taken| <= c.capacity
    && c.head == |c.taken| % c.capacity && c.tail == |c.written| % c.capacity
    && (forall i | |c.taken| <= i < |c.written| :: c.buffer[i % c.capacity] == c.written[i])
    && (forall t | 0 <= t < |c.pc| && c.pc[t].SendAdvance? :: c.buffer[c.tail] == c.pc[t].v)
    && (forall t | 0 <= t < |c.pc| && c.pc[t].RecvAdvance? ::
          |c.taken| < |c.written| && c.pc[t].v == c.written[|c.taken|])
  }

  ghost predicate Inv(c: Chan) {
    Sizes(c) && WaitersOk(c.pc, c.space, c.messages, c.mutex) && OwnerOk(c.pc, c.mutex) && BalanceOk(c) && FifoOk(c)
  }

  // ----- wait lists -----

  lemma ListsSame(pc: seq<Pc>, q: seq<int>, f: Pc -> bool, t: int, x: Pc)
    requires Lists(pc, q, f) && 0 <= t < |pc| && !f(pc[t]) && !f(x)
    ensures Lists(pc[t := x], q, f)
  {
  }

  lemma ListsMore(pc: seq<Pc>, q: seq<int>, f: Pc -> bool, t: int, x: Pc)
    requires Lists(pc, q, f) && 0 <= t < |pc| && !f(pc[t]) && f(x)
    ensures Lists(pc[t := x], q + [t], f)
  {
    forall u | 0 <= u < |pc| && f(pc[t := x][u]) ensures u in q + [t] {
      if u != t { assert u in q; }
    }
  }

  lemma ListsLess(pc: seq<Pc>, q: seq<int>, f: Pc -> bool, x: Pc)
    requires Lists(pc, q, f) && q != [] && !f(x)
    ensures 0 <= q[0] < |pc| && f(pc[q[0]]) && Lists(pc[q[0] := x], q[1..], f)
  {
    var u := q[0];
    forall v | 0 <= v < |pc| && f(pc[u := x][v]) ensures v in q[1..] { assert v in q; }
  }

  /** A change at t that is not about waiting. */
  lemma QuietWaiters(c: Chan, t: int, x: Pc)
    requires WaitersOk(c.pc, c.space, c.messages, c.mutex) && 0 <= t < |c.pc| && !Queued(c.pc[t]) && !Queued(x)
    ensures WaitersOk(c.pc[t := x], c.space, c.messages, c.mutex)
  {
    hide SemInv, MutexInv, Lists;
    ListsSame(c.pc, c.space.waiters, OnSpace, t, x);
    ListsSame(c.pc, c.messages.waiters, OnMessages, t, x);
    ListsSame(c.pc, c.mutex.waiters, OnMutex, t, x);
  }

  lemma SpaceWaiters(c: Chan, t: int, x: Pc)
    requires WaitersOk(c.pc, c.space, c.messages, c.mutex) && 0 <= t < |c.pc| && !Queued(c.pc[t])
    requires if c.space.count > 0 then !Queued(x) else OnSpace(x)
    ensures WaitersOk(c.pc[t := x], WaitSem(c.space, t), c.messages, c.mutex)
  {
    hide MutexInv, Lists;
    if c.space.count > 0 {
      ListsSame(c.pc, c.space.waiters, OnSpace, t, x);
    } else {
      ListsMore(c.pc, c.space.waiters, OnSpace, t, x);
    }
    ListsSame(c.pc, c.messages.waiters, OnMessages, t, x);
    ListsSame(c.pc, c.mutex.waiters, OnMutex, t, x);
  }

  lemma MessageWaiters(c: Chan, t: int, x: Pc)
    requires WaitersOk(c.pc, c.space, c.messages, c.mutex) && 0 <= t < |c.pc| && !Queued(c.pc[t])
    requires if c.messages.count > 0 then !Queued(x) else OnMessages(x)
    ensures WaitersOk(c.pc[t := x], c.space, WaitSem(c.messages, t), c.mutex)
  {
    hide MutexInv, Lists;
    if c.messages.count > 0 {
      ListsSame(c.pc, c.messages.waiters, OnMessages, t, x);
    } else {
      ListsMore(c.pc, c.messages.waiters, OnMessages, t, x);
    }
    ListsSame(c.pc, c.space.waiters, OnSpace, t, x);
    ListsSame(c.pc, c.mutex.waiters, OnMutex, t, x);
  }

  lemma LockWaiters(c: Chan, t: int, x: Pc)
    requires WaitersOk(c.pc, c.space, c.messages, c.mutex) && 0 <= t < |c.pc| && !Queued(c.pc[t])
    requires if c.mutex.locked then OnMutex(x) else !Queued(x)
    ensures WaitersOk(c.pc[t := x], c.space, c.messages, LockMutex(c.mutex, t))
  {
    assert t !in c.mutex.waiters;
    assert MutexInv(LockMutex(c.mutex, t)) by { hide Lists, SemInv; }
    hide SemInv, MutexInv, Lists;
    if c.mutex.locked {
      ListsMore(c.pc, c.mutex.waiters, OnMutex, t, x);
    } else {
      ListsSame(c.pc, c.mutex.waiters, OnMutex, t, x);
    }
    ListsSame(c.pc, c.space.waiters, OnSpace, t, x);
    ListsSame(c.pc, c.messages.waiters, OnMessages, t, x);
  }

  lemma UnlockWaiters(c: Chan, t: int, x: Pc)
    requires WaitersOk(c.pc, c.space, c.messages, c.mutex) && 0 <= t < |c.pc| && !Queued(c.pc[t]) && !Queued(x)
    requires c.mutex.Owner().Some? && c.mutex.Owner().value !in c.mutex.waiters
    ensures WaitersOk(ResumeHead(c.pc, c.mutex.waiters)[t := x], c.space, c.messages, UnlockMutex(c.mutex))
  {
    assert MutexInv(UnlockMutex(c.mutex)) by { hide Lists, SemInv; }
    hide SemInv, MutexInv, Lists;
    var q := c.mutex.waiters;
    if q == [] {
      QuietWaiters(c, t, x);
    } else {
      ListsLess(c.pc, q, OnMutex, if 0 <= q[0] < |c.pc| then Resumed(c.pc[q[0]]) else Idle);
      var (u, y) := (q[0], Resumed(c.pc[q[0]]));
      ListsSame(c.pc, c.space.waiters, OnSpace, u, y);
      ListsSame(c.pc, c.messages.waiters, OnMessages, u, y);
      QuietWaiters(c.(pc := c.pc[u := y], mutex := UnlockMutex(c.mutex)), t, x);
    }
  }

  lemma PostSpaceWaiters(c: Chan, t: int, x: Pc)
    requires WaitersOk(c.pc, c.space, c.messages, c.mutex) && 0 <= t < |c.pc| && !Queued(c.pc[t]) && !Queued(x)
    ensures WaitersOk(ResumeHead(c.pc, c.space.waiters)[t := x], PostSem(c.space), c.messages, c.mutex)
  {
    assert SemInv(PostSem(c.space)) by { hide Lists, MutexInv; }
    hide SemInv, MutexInv, Lists;
    var q := c.space.waiters;
    if q == [] {
      QuietWaiters(c, t, x);
    } else {
      ListsLess(c.pc, q, OnSpace, if 0 <= q[0] < |c.pc| then Resumed(c.pc[q[0]]) else Idle);
      var (u, y) := (q[0], Resumed(c.pc[q[0]]));
      ListsSame(c.pc, c.messages.waiters, OnMessages, u, y);
      ListsSame(c.pc, c.mutex.waiters, OnMutex, u, y);
      QuietWaiters(c.(pc := c.pc[u := y], space := PostSem(c.space)), t, x);
    }
  }

  lemma PostMessageWaiters(c: Chan, t: int, x: Pc)
    requires WaitersOk(c.pc, c.space, c.messages, c.mutex) && 0 <= t < |c.pc| && !Queued(c.pc[t]) && !Queued(x)
    ensures WaitersOk(ResumeHead(c.pc, c.messages.waiters)[t := x], c.space, PostSem(c.messages), c.mutex)
  {
    assert SemInv(PostSem(c.messages)) by { hide Lists, MutexInv; }
    hide SemInv, MutexInv, Lists;
    var q := c.messages.waiters;
    if q == [] {
      QuietWaiters(c, t, x);
    } else {
      ListsLess(c.pc, q, OnMessages, if 0 <= q[0] < |c.pc| then Resumed(c.pc[q[0]]) else Idle);
      var (u, y) := (q[0], Resumed(c.pc[q[0]]));
      ListsSame(c.pc, c.space.waiters, OnSpace, u, y);
      ListsSame(c.pc, c.mutex.waiters, OnMutex, u, y);
      QuietWaiters(c.(pc := c.pc[u := y], messages := PostSem(c.messages)), t, x);
    }
  }

  lemma StepWaiters(c: Chan, t: int)
    requires Sizes(c) && CanStep(c, t) && WaitersOk(c.pc, c.space, c.messages, c.mutex) && OwnerOk(c.pc, c.mutex)
    ensures var r := Step(c, t); WaitersOk(r.pc, r.space, r.messages, r.mutex)
  {
    if InSection(c.pc[t]) { OwnerNotWaiting(c, t); }
    hide WaitersOk, OwnerOk;
    var x := Step(c, t).pc[t];
    match c.pc[t]
    case SendWait(v) => SpaceWaiters(c, t, x);
    case RecvWait => MessageWaiters(c, t, x);
    case SendLock(v) => LockWaiters(c, t, x);
    case RecvLock => LockWaiters(c, t, x);
    case SendUnlock => UnlockWaiters(c, t, x);
    case RecvUnlock(v) => UnlockWaiters(c, t, x);
    case SendPost => PostMessageWaiters(c, t, x);
    case RecvPost(v) => PostSpaceWaiters(c, t, x);
    case _ => QuietWaiters(c, t, x);
  }

  lemma OwnerNotWaiting(c: Chan, t: int)
    requires WaitersOk(c.pc, c.space, c.messages, c.mutex) && OwnerOk(c.pc, c.mutex)
    requires 0 <= t < |c.pc| && InSection(c.pc[t])
    ensures c.mutex.Owner() == Some(t) && t !in c.mutex.waiters
  {
  }

  // ----- the lock -----

  /** A resumed thread enters the section only if it was waiting for the lock. */
  lemma QuietOwner(pc: seq<Pc>, m: Mutex<int>, t: int, x: Pc)
    requires OwnerOk(pc, m) && 0 <= t < |pc| && (InSection(x) <==> InSection(pc[t]))
    ensures OwnerOk(pc[t := x], m)
  {
  }

  lemma ResumeOwner(c: Chan, q: seq<int>)
    requires OwnerOk(c.pc, c.mutex) && forall i | 0 <= i < |q| :: 0 <= q[i] < |c.pc| && !OnMutex(c.pc[q[i]])
    ensures OwnerOk(ResumeHead(c.pc, q), c.mutex)
  {
    if q != [] { QuietOwner(c.pc, c.mutex, q[0], Resumed(c.pc[q[0]])); }
  }

  lemma UnlockOwner(c: Chan, t: int, x: Pc)
    requires WaitersOk(c.pc, c.space, c.messages, c.mutex) && OwnerOk(c.pc, c.mutex)
    requires 0 <= t < |c.pc| && InSection(c.pc[t]) && !InSection(x)
    ensures OwnerOk(ResumeHead(c.pc, c.mutex.waiters)[t := x], UnlockMutex(c.mutex))
  {
    OwnerNotWaiting(c, t);
    hide SemInv;
  }

  lemma LockOwner(c: Chan, t: int, x: Pc)
    requires OwnerOk(c.pc, c.mutex) && 0 <= t < |c.pc| && !InSection(c.pc[t])
    requires InSection(x) <==> !c.mutex.locked
    ensures OwnerOk(c.pc[t := x], LockMutex(c.mutex, t))
  {
  }

  lemma StepOwner(c: Chan, t: int)
    requires Sizes(c) && CanStep(c, t) && WaitersOk(c.pc, c.space, c.messages, c.mutex) && OwnerOk(c.pc, c.mutex)
    ensures OwnerOk(Step(c, t).pc, Step(c, t).mutex)
  {
    hide OwnerOk, SemInv, MutexInv;
    var x := Step(c, t).pc[t];
    match c.pc[t]
    case SendLock(v) => LockOwner(c, t, x);
    case RecvLock => LockOwner(c, t, x);
    case SendUnlock => UnlockOwner(c, t, x);
    case RecvUnlock(v) => UnlockOwner(c, t, x);
    case SendPost =>
      ResumeOwner(c, c.messages.waiters);
      QuietOwner(ResumeHead(c.pc, c.messages.waiters), c.mutex, t, x);
    case RecvPost(v) =>
      ResumeOwner(c, c.space.waiters);
      QuietOwner(ResumeHead(c.pc, c.space.waiters), c.mutex, t, x);
    case _ => QuietOwner(c.pc, c.mutex, t, x);
  }

  // ----- the books -----

  lemma ResumeSum(pc: seq<Pc>, q: seq<int>, t: int, x: Pc, f: Pc -> int)
    requires 0 <= t < |pc| && (q != [] ==> 0 <= q[0] < |pc| && q[0] != t)
    ensures SumF(ResumeHead(pc, q)[t := x], f)
      == SumF(pc, f) - f(pc[t]) + f(x) + if q == [] then 0 else f(Resumed(pc[q[0]])) - f(pc[q[0]])
  {
    if q != [] { SumFUpdate(pc, f, q[0], Resumed(pc[q[0]])); }
    SumFUpdate(ResumeHead(pc, q), f, t, x);
  }

  /** Only its own list's threads resume, so the head of a list is not the thread that is stepping. */
  lemma Heads(c: Chan, t: int)
    requires WaitersOk(c.pc, c.space, c.messages, c.mutex) && 0 <= t < |c.pc| && !Queued(c.pc[t])
    ensures c.space.waiters != [] ==> var u := c.space.waiters[0]; 0 <= u < |c.pc| && u != t && c.pc[u].SendQueued?
    ensures c.messages.waiters != [] ==> var u := c.messages.waiters[0]; 0 <= u < |c.pc| && u != t && c.pc[u].RecvQueued?
    ensures c.mutex.waiters != [] ==> var u := c.mutex.waiters[0]; 0 <= u < |c.pc| && u != t && OnMutex(c.pc[u])
    ensures c.space.count >= 0 && c.messages.count >= 0
    ensures c.space.waiters != [] ==> c.space.count == 0
    ensures c.messages.waiters != [] ==> c.messages.count == 0
  {
  }

  predicate Wakes(p: Pc) { p.SendUnlock? || p.RecvUnlock? || p.SendPost? || p.RecvPost? }

  lemma PlainBalance(c: Chan, t: int)
    requires Sizes(c) && CanStep(c, t) && BalanceOk(c) && !Wakes(c.pc[t])
    ensures BalanceOk(Step(c, t))
  {
    var x := Step(c, t).pc[t];
    SumFUpdate(c.pc, SpaceDebt, t, x);
    SumFUpdate(c.pc, MessageDebt, t, x);
  }

  /** Handing the lock over settles nothing. */
  lemma UnlockSums(pc: seq<Pc>, q: seq<int>, t: int, x: Pc)
    requires 0 <= t < |pc| && (q != [] ==> 0 <= q[0] < |pc| && q[0] != t && OnMutex(pc[q[0]]))
    requires (pc[t].SendUnlock? && x.SendPost?) || (pc[t].RecvUnlock? && x.RecvPost?)
    ensures SumF(ResumeHead(pc, q)[t := x], SpaceDebt) == SumF(pc, SpaceDebt)
    ensures SumF(ResumeHead(pc, q)[t := x], MessageDebt) == SumF(pc, MessageDebt)
  {
    ResumeSum(pc, q, t, x, SpaceDebt);
    ResumeSum(pc, q, t, x, MessageDebt);
  }

  lemma UnlockBalance(c: Chan, t: int)
    requires Sizes(c) && CanStep(c, t) && WaitersOk(c.pc, c.space, c.messages, c.mutex) && BalanceOk(c)
    requires c.pc[t].SendUnlock? || c.pc[t].RecvUnlock?
    ensures BalanceOk(Step(c, t))
  {
    hide WaitersOk, ResumeHead;
    Heads(c, t);
    UnlockSums(c.pc, c.mutex.waiters, t, if c.pc[t].SendUnlock? then SendPost else RecvPost(c.pc[t].v));
  }

  /** A sender's post settles its debt of a message, or passes it on to the receiver it wakes. */
  lemma SendPostSums(pc: seq<Pc>, q: seq<int>, t: int)
    requires 0 <= t < |pc| && (q != [] ==> 0 <= q[0] < |pc| && q[0] != t && pc[q[0]].RecvQueued?) && pc[t].SendPost?
    ensures SumF(ResumeHead(pc, q)[t := Idle], SpaceDebt) == SumF(pc, SpaceDebt)
    ensures SumF(ResumeHead(pc, q)[t := Idle], MessageDebt) == SumF(pc, MessageDebt) - (if q == [] then 1 else 0)
  {
    ResumeSum(pc, q, t, Idle, SpaceDebt);
    ResumeSum(pc, q, t, Idle, MessageDebt);
  }

  /** A receiver's post settles its debt of a slot, or passes it on to the sender it wakes. */
  lemma RecvPostSums(pc: seq<Pc>, q: seq<int>, t: int, x: Pc)
    requires 0 <= t < |pc| && (q != [] ==> 0 <= q[0] < |pc| && q[0] != t && pc[q[0]].SendQueued?) && pc[t].RecvPost?
    requires x.Returned?
    ensures SumF(ResumeHead(pc, q)[t := x], SpaceDebt) == SumF(pc, SpaceDebt) - (if q == [] then 1 else 0)
    ensures SumF(ResumeHead(pc, q)[t := x], MessageDebt) == SumF(pc, MessageDebt)
  {
    ResumeSum(pc, q, t, x, SpaceDebt);
    ResumeSum(pc, q, t, x, MessageDebt);
  }

  lemma PostBalance(c: Chan, t: int)
    requires Sizes(c) && CanStep(c, t) && WaitersOk(c.pc, c.space, c.messages, c.mutex) && BalanceOk(c)
    requires c.pc[t].SendPost? || c.pc[t].RecvPost?
    ensures BalanceOk(Step(c, t))
  {
    hide WaitersOk, ResumeHead;
    Heads(c, t);
    match c.pc[t]
    case SendPost => SendPostSums(c.pc, c.messages.waiters, t);
    case RecvPost(v) => RecvPostSums(c.pc, c.space.waiters, t, Returned(v));
  }

  lemma StepBalance(c: Chan, t: int)
    requires Sizes(c) && CanStep(c, t) && WaitersOk(c.pc, c.space, c.messages, c.mutex) && BalanceOk(c)
    ensures BalanceOk(Step(c, t))
  {
    hide WaitersOk, BalanceOk, Step;
    if !Wakes(c.pc[t]) {
      PlainBalance(c, t);
    } else if c.pc[t].SendUnlock? || c.pc[t].RecvUnlock? {
      UnlockBalance(c, t);
    } else {
      PostBalance(c, t);
    }
  }

  /** Who may store finds room, who may read finds a message. */
  lemma Room(c: Chan, t: int)
    requires WaitersOk(c.pc, c.space, c.messages, c.mutex) && BalanceOk(c) && 0 <= t < |c.pc|
    ensures 0 <= |c.written| - |c.taken| <= c.capacity
    ensures SpaceDebt(c.pc[t]) == 1 && !c.pc[t].RecvUnlock? && !c.pc[t].RecvPost? ==>
      |c.written| - |c.taken| < c.capacity
    ensures MessageDebt(c.pc[t]) == 1 ==> |c.taken| < |c.written|
  {
    SumFBound(c.pc, SpaceDebt);
    SumFBound(c.pc, MessageDebt);
    assert SpaceDebt(c.pc[t]) <= SumF(c.pc, SpaceDebt) && MessageDebt(c.pc[t]) <= SumF(c.pc, MessageDebt);
    assert c.space.count >= 0 && c.messages.count >= 0 by { hide MutexInv, Lists; }
  }

  // ----- the circular buffer -----

  /** Storing into the tail slot overwrites no message that has not been taken. */
  lemma StoreFifo(c: Chan, t: int)
    requires Sizes(c) && CanStep(c, t) && FifoOk(c) && c.pc[t].SendStore? && |c.written| - |c.taken| < c.capacity
    requires forall u | 0 <= u < |c.pc| && InSection(c.pc[u]) :: u == t
    ensures FifoOk(Step(c, t))
  {
    var r := Step(c, t);
    forall i | |c.taken| <= i < |c.written| ensures r.buffer[i % c.capacity] == c.written[i] {
      ModDistinct(i, |c.written|, c.capacity);
    }
  }

  lemma PublishFifo(c: Chan, t: int)
    requires Sizes(c) && CanStep(c, t) && FifoOk(c) && c.pc[t].SendAdvance? && |c.written| - |c.taken| < c.capacity
    requires forall u | 0 <= u < |c.pc| && InSection(c.pc[u]) :: u == t
    ensures FifoOk(Step(c, t))
  {
    ModSucc(|c.written|, c.capacity);
  }

  lemma TakeFifo(c: Chan, t: int)
    requires Sizes(c) && CanStep(c, t) && FifoOk(c) && |c.taken| < |c.written|
    requires c.pc[t].RecvLoad? || c.pc[t].RecvAdvance?
    requires forall u | 0 <= u < |c.pc| && InSection(c.pc[u]) :: u == t
    ensures FifoOk(Step(c, t))
  {
    ModSucc(|c.taken|, c.capacity);
    if c.pc[t].RecvAdvance? { assert c.taken + [c.pc[t].v] <= c.written; }
  }

  lemma OtherFifo(c: Chan, t: int)
    requires Sizes(c) && CanStep(c, t) && FifoOk(c)
    requires !c.pc[t].SendStore? && !c.pc[t].SendAdvance? && !c.pc[t].RecvLoad? && !c.pc[t].RecvAdvance?
    ensures FifoOk(Step(c, t))
  {
    hide Sizes;
    var r := Step(c, t);
    assert r.buffer == c.buffer && r.written == c.written && r.taken == c.taken && r.head == c.head && r.tail == c.tail;
    forall u | 0 <= u < |r.pc| && (r.pc[u].SendAdvance? || r.pc[u].RecvAdvance?) ensures r.pc[u] == c.pc[u] {
    }
    hide Step;
  }

  lemma StepFifo(c: Chan, t: int)
    requires Inv(c) && CanStep(c, t)
    ensures FifoOk(Step(c, t))
  {
    hide WaitersOk, OwnerOk, BalanceOk, FifoOk, Step;
    Room(c, t);
    match c.pc[t]
    case SendStore(v) => Alone(c, t); StoreFifo(c, t);
    case SendAdvance(v) => Alone(c, t); PublishFifo(c, t);
    case RecvLoad => Alone(c, t); TakeFifo(c, t);
    case RecvAdvance(v) => Alone(c, t); TakeFifo(c, t);
    case _ => OtherFifo(c, t);
  }

  /** Inside the section a thread is alone. */
  lemma Alone(c: Chan, t: int)
    requires OwnerOk(c.pc, c.mutex) && 0 <= t < |c.pc| && InSection(c.pc[t])
    ensures forall u | 0 <= u < |c.pc| && InSection(c.pc[u]) :: u == t
  {
  }

  /** Every step of every thread keeps the invariant, in every interleaving. */
  lemma StepKeeps(c: Chan, t: int)
    requires Inv(c) && CanStep(c, t)
    ensures Inv(Step(c, t))
  {
    hide WaitersOk, OwnerOk, BalanceOk, FifoOk, Step;
    StepWaiters(c, t);
    StepOwner(c, t);
    StepBalance(c, t);
    StepFifo(c, t);
  }

  lemma BeginKeeps(c: Chan, t: int, p: Pc)
    requires Inv(c) && MayBegin(c, t, p)
    ensures Inv(Begin(c, t, p))
  {
    assert FifoOk(Begin(c, t, p)) by { hide WaitersOk, OwnerOk, BalanceOk; }
    hide WaitersOk, OwnerOk, FifoOk;
    QuietWaiters(c, t, p);
    QuietOwner(c.pc, c.mutex, t, p);
    SumFUpdate(c.pc, SpaceDebt, t, p);
    SumFUpdate(c.pc, MessageDebt, t, p);
  }

  lemma FreshOk(capacity: nat, buffer: seq<int>, threads: nat)
    requires 0 < capacity <= |buffer|
    ensures Inv(Fresh(capacity, buffer, threads))
  {
    SumFConst(Fresh(capacity, buffer, threads).pc, SpaceDebt, 0);
    SumFConst(Fresh(capacity, buffer, threads).pc, MessageDebt, 0);
  }

  // ----- runs -----

  /** One event of a run: thread t steps in its call, or begins a call or puts a message away. */
  ghost predicate Next(c: Chan, c': Chan) {
    || (exists t :: CanStep(c, t) && Sizes(c) && c' == Step(c, t))
    || (exists t, p :: MayBegin(c, t, p) && c' == Begin(c, t, p))
  }

  ghost predicate Run(cs: seq<Chan>) {
    && |cs| > 0 && 0 < cs[0].capacity <= |cs[0].buffer|
    && cs[0] == Fresh(cs[0].capacity, cs[0].buffer, |cs[0].pc|)
    && forall i, j | 0 <= i && j == i + 1 < |cs| :: Next(cs[i], cs[j])
  }

  lemma {:induction false} RunKeeps(cs: seq<Chan>, i: nat)
    requires Run(cs) && i < |cs|
    ensures Inv(cs[i])
    decreases i
  {
    hide Inv, Step, Begin;
    if i == 0 {
      FreshOk(cs[0].capacity, cs[0].buffer, |cs[0].pc|);
    } else {
      RunKeeps(cs, i - 1);
      var c := cs[i - 1];
      assert Next(c, cs[i]);
      if t :| CanStep(c, t) && Sizes(c) && cs[i] == Step(c, t) {
        StepKeeps(c, t);
      } else {
        var t, p :| MayBegin(c, t, p) && cs[i] == Begin(c, t, p);
        BeginKeeps(c, t, p);
      }
    }
  }

  /** The abstract bounded queue. */
  function Queue(c: Chan): seq<int>
    requires |c.taken| <= |c.written|
  {
    c.written[|c.taken|..]
  }

  /** In every state of every run: at most `capacity` messages are under way, the messages read are a
      prefix of the messages written, tail and head are the counts modulo the capacity, and the slots
      from head on hold the queue in order. */
  lemma BoundedFifo(cs: seq<Chan>, i: nat)
    requires Run(cs) && i < |cs|
    ensures var c := cs[i];
      && 0 < c.capacity && c.taken <= c.written && |Queue(c)| <= c.capacity
      && c.head == |c.taken| % c.capacity && c.tail == |c.written| % c.capacity
      && forall k | 0 <= k < |Queue(c)| ::
           (|c.taken| + k) % c.capacity < |c.buffer| && c.buffer[(|c.taken| + k) % c.capacity] == Queue(c)[k]
  {
    RunKeeps(cs, i);
    hide WaitersOk, OwnerOk, BalanceOk, Run;
  }

  /** Every step refines the bounded FIFO queue: a send's effect happens at one step and only when
      there is room, a receive's effect happens at one step and takes the oldest message, and no other
      step changes the queue. */
  lemma Refines(c: Chan, t: int)
    requires Inv(c) && CanStep(c, t)
    ensures |c.taken| <= |c.written| && |Step(c, t).taken| <= |Step(c, t).written|
    ensures var (q, q') := (Queue(c), Queue(Step(c, t)));
      match c.pc[t]
      case SendAdvance(v) => |q| < c.capacity && q' == q + [v]
      case RecvAdvance(v) => q != [] && v == q[0] && q' == q[1..]
      case _ => q' == q
  {
    Room(c, t);
    StepFifo(c, t);
    hide WaitersOk, OwnerOk, BalanceOk;
    if c.pc[t].RecvAdvance? { assert c.taken + [c.pc[t].v] <= c.written; }
  }

  /** When no thread can step, nobody holds the lock or a debt: whoever is in a call waits for a slot,
      and then the channel is full, or for a message, and then it is empty. */
  lemma Standstill(c: Chan)
    requires Inv(c) && forall t :: !CanStep(c, t)
    ensures forall t | 0 <= t < |c.pc| :: Resting(c.pc[t]) || c.pc[t].SendQueued? || c.pc[t].RecvQueued?
    ensures forall t | 0 <= t < |c.pc| && c.pc[t].SendQueued? :: |c.written| - |c.taken| == c.capacity
    ensures forall t | 0 <= t < |c.pc| && c.pc[t].RecvQueued? :: |c.written| == |c.taken|
    ensures |c.taken| <= |c.written| <= |c.taken| + c.capacity
  {
    NoLockHeld(c);
    hide OwnerOk, FifoOk, MutexInv;
    forall t | 0 <= t < |c.pc| ensures Resting(c.pc[t]) || c.pc[t].SendQueued? || c.pc[t].RecvQueued? {
      assert !CanStep(c, t);
    }
    SumFConst(c.pc, SpaceDebt, 0);
    SumFConst(c.pc, MessageDebt, 0);
    forall t | 0 <= t < |c.pc| && c.pc[t].SendQueued? ensures |c.written| - |c.taken| == c.capacity {
      assert OnSpace(c.pc[t]) && t in c.space.waiters;
    }
    forall t | 0 <= t < |c.pc| && c.pc[t].RecvQueued? ensures |c.written| == |c.taken| {
      assert OnMessages(c.pc[t]) && t in c.messages.waiters;
    }
  }

  lemma NoLockHeld(c: Chan)
    requires Inv(c) && forall t :: !CanStep(c, t)
    ensures !c.mutex.locked && forall t | 0 <= t < |c.pc| :: !OnMutex(c.pc[t])
  {
    if c.mutex.locked { OwnerSteps(c); }
    hide BalanceOk, FifoOk, SemInv, OwnerOk, CanStep;
  }

  /** Whoever owns the lock can step. */
  lemma OwnerSteps(c: Chan)
    requires Inv(c) && c.mutex.locked
    ensures exists t :: CanStep(c, t)
  {
    hide WaitersOk, BalanceOk, FifoOk;
    assert CanStep(c, c.mutex.Owner().value);
  }

  // ----- progress -----

  /** How far a thread still is from the end of its call. */
  function Rank(p: Pc): int {
    match p
    case Idle => 0
    case Returned(v) => 1
    case SendWait(v) => 10
    case SendQueued(v) => 9
    case SendLock(v) => 8
    case SendLockQueued(v) => 7
    case SendStore(v) => 6
    case SendAdvance(v) => 5
    case SendUnlock => 4
    case SendPost => 3
    case RecvWait => 10
    case RecvQueued => 9
    case RecvLock => 8
    case RecvLockQueued => 7
    case RecvLoad => 6
    case RecvAdvance(v) => 5
    case RecvUnlock(v) => 4
    case RecvPost(v) => 3
  }

  /** The list whose head a step of t wakes. */
  function WakeList(c: Chan, t: int): seq<int>
    requires 0 <= t < |c.pc|
  {
    match c.pc[t]
    case SendUnlock => c.mutex.waiters
    case RecvUnlock(v) => c.mutex.waiters
    case SendPost => c.messages.waiters
    case RecvPost(v) => c.space.waiters
    case _ => []
  }

  lemma StepShape(c: Chan, t: int)
    requires Sizes(c) && CanStep(c, t)
    ensures Step(c, t).pc == ResumeHead(c.pc, WakeList(c, t))[t := Step(c, t).pc[t]]
    ensures Rank(Step(c, t).pc[t]) < Rank(c.pc[t])
  {
    hide Sizes, ResumeHead;
    assert ResumeHead(c.pc, []) == c.pc by { NobodyResumes(c.pc); }
  }

  lemma NobodyResumes(pc: seq<Pc>)
    ensures ResumeHead(pc, []) == pc
  {
  }

  lemma WakesOther(c: Chan, t: int)
    requires WaitersOk(c.pc, c.space, c.messages, c.mutex) && CanStep(c, t)
    ensures var q := WakeList(c, t); q != [] ==> 0 <= q[0] < |c.pc| && q[0] != t && Queued(c.pc[q[0]])
  {
    Heads(c, t);
    hide WaitersOk;
  }

  /** A step moves t, and the thread it wakes, towards the end of their calls, and nobody else. */
  lemma StepMoves(c: Chan, t: int)
    requires Inv(c) && CanStep(c, t)
    ensures Sizes(c)
    ensures var q := WakeList(c, t);
      && Step(c, t).pc == ResumeHead(c.pc, q)[t := Step(c, t).pc[t]]
      && Rank(Step(c, t).pc[t]) < Rank(c.pc[t])
      && (q != [] ==> 0 <= q[0] < |c.pc| && q[0] != t && Queued(c.pc[q[0]]))
  {
    hide WaitersOk, OwnerOk, BalanceOk, FifoOk, Step, Rank, WakeList, ResumeHead, CanStep;
    StepShape(c, t);
    WakesOther(c, t);
  }

  lemma RankFalls(pc: seq<Pc>, q: seq<int>, t: int, x: Pc)
    requires 0 <= t < |pc| && Rank(x) < Rank(pc[t])
    requires q != [] ==> 0 <= q[0] < |pc| && q[0] != t && Queued(pc[q[0]])
    ensures SumF(ResumeHead(pc, q)[t := x], Rank) < SumF(pc, Rank)
  {
    ResumeSum(pc, q, t, x, Rank);
    if q != [] { ResumedRank(pc[q[0]]); }
    hide ResumeHead, Rank, Queued, Resumed;
  }

  lemma ResumedRank(p: Pc)
    requires Queued(p)
    ensures Rank(Resumed(p)) < Rank(p)
  {
  }

  lemma StepRank(c: Chan, t: int)
    requires Inv(c) && CanStep(c, t)
    ensures Sizes(c) && SumF(Step(c, t).pc, Rank) < SumF(c.pc, Rank)
  {
    hide WaitersOk, OwnerOk, BalanceOk, FifoOk, Step, ResumeHead, WakeList, Rank, Queued;
    StepMoves(c, t);
    RankFalls(c.pc, WakeList(c, t), t, Step(c, t).pc[t]);
  }

  // ----- what the threads have in hand -----

  /** The message a sender has not stored yet. */
  function SendHold(p: Pc): seq<int> {
    if p.SendWait? || p.SendQueued? || p.SendLock? || p.SendLockQueued? || p.SendStore? || p.SendAdvance?
    then [p.v] else []
  }

  /** The message a receiver has taken and not put away. */
  function RecvHold(p: Pc): seq<int> {
    if p.RecvUnlock? || p.RecvPost? || p.Returned? then [p.v] else []
  }

  predicate IsSender(p: Pc) { p.Idle? || SendHold(p) != [] || p.SendUnlock? || p.SendPost? }
  predicate IsReceiver(p: Pc) { p.Idle? || RecvHold(p) != [] || Asking(p) == 1 }

  /** The receiver has begun a call and not taken its message. */
  function Asking(p: Pc): int {
    if p.RecvWait? || p.RecvQueued? || p.RecvLock? || p.RecvLockQueued? || p.RecvLoad? || p.RecvAdvance? then 1 else 0
  }

  predicate NoReceipt(p: Pc) { RecvHold(p) == [] && Asking(p) == 0 }

  lemma ResumedHolds(p: Pc)
    ensures var x := Resumed(p);
      && SendHold(x) == SendHold(p) && RecvHold(x) == RecvHold(p) && Asking(x) == Asking(p)
      && (IsSender(p) ==> IsSender(x)) && (IsReceiver(p) ==> IsReceiver(x)) && (p.Idle? ==> x.Idle?)
  {
  }

  /** What a step of another thread leaves of thread u. */
  lemma OtherHolds(c: Chan, t: int, u: int)
    requires Inv(c) && CanStep(c, t) && 0 <= u < |c.pc| && u != t
    ensures Sizes(c)
    ensures var (p, x) := (c.pc[u], Step(c, t).pc[u]);
      && SendHold(x) == SendHold(p) && RecvHold(x) == RecvHold(p) && Asking(x) == Asking(p)
      && (IsSender(p) ==> IsSender(x)) && (IsReceiver(p) ==> IsReceiver(x)) && (p.Idle? ==> x.Idle?)
  {
    hide WaitersOk, OwnerOk, BalanceOk, FifoOk, Step, WakeList, Rank, Queued, Resumed;
    hide SendHold, RecvHold, IsSender, IsReceiver, Asking;
    StepMoves(c, t);
    ResumedHolds(c.pc[u]);
  }

  /** A sender hands its message over in exactly one step. */
  lemma SenderHolds(c: Chan, t: int)
    requires Sizes(c) && CanStep(c, t) && IsSender(c.pc[t])
    ensures var (p, c') := (c.pc[t], Step(c, t));
      && IsSender(c'.pc[t]) && c'.taken == c.taken && !p.RecvAdvance? && NoReceipt(p) && NoReceipt(c'.pc[t])
      && SendHold(c'.pc[t]) == (if p.SendAdvance? then [] else SendHold(p))
      && c'.written == c.written + (if p.SendAdvance? then SendHold(p) else [])
  {
    hide ResumeHead, Sizes;
  }

  /** A receiver takes its message in exactly one step. */
  lemma ReceiverHolds(c: Chan, t: int)
    requires Sizes(c) && CanStep(c, t) && IsReceiver(c.pc[t])
    ensures var (p, c') := (c.pc[t], Step(c, t));
      && IsReceiver(c'.pc[t]) && c'.written == c.written && SendHold(p) == [] == SendHold(c'.pc[t]) && !p.SendAdvance?
      && RecvHold(c'.pc[t]) == (if p.RecvAdvance? then [p.v] else RecvHold(p))
      && c'.taken == c.taken + (if p.RecvAdvance? then [p.v] else [])
      && Asking(c'.pc[t]) == Asking(p) - (if p.RecvAdvance? then 1 else 0)
      && (p.RecvAdvance? ==> RecvHold(p) == [])
  {
    hide ResumeHead, Sizes;
  }

  function SendTokens(p: Pc): multiset<int> { multiset(SendHold(p)) }
  function RecvTokens(p: Pc): multiset<int> { multiset(RecvHold(p)) }
  function Sending(p: Pc): int { |SendHold(p)| }

  lemma ResumeUnion(pc: seq<Pc>, q: seq<int>, t: int, x: Pc, f: Pc -> multiset<int>)
    requires 0 <= t < |pc| && (q != [] ==> 0 <= q[0] < |pc| && q[0] != t && f(Resumed(pc[q[0]])) == f(pc[q[0]]))
    ensures UnionF(ResumeHead(pc, q)[t := x], f) + f(pc[t]) == UnionF(pc, f) + f(x)
  {
    if q != [] {
      UnionFUpdate(pc, f, q[0], Resumed(pc[q[0]]));
      Cancel(UnionF(ResumeHead(pc, q), f), UnionF(pc, f), f(pc[q[0]]));
    }
    UnionFUpdate(ResumeHead(pc, q), f, t, x);
  }

  lemma Cancel(a: multiset<int>, b: multiset<int>, c: multiset<int>)
    requires a + c == b + c
    ensures a == b
  {
    assert forall v :: a[v] + c[v] == (a + c)[v] == (b + c)[v] == b[v] + c[v];
  }

  /** What a step adds to written and taken, in the stepping thread's own terms. */
  lemma SelfHolds(c: Chan, t: int)
    requires Sizes(c) && CanStep(c, t)
    ensures var (p, c') := (c.pc[t], Step(c, t)); var x := c'.pc[t];
      var (w, k) := (if p.SendAdvance? then [p.v] else [], if p.RecvAdvance? then [p.v] else []);
      && c'.written == c.written + w && c'.taken == c.taken + k
      && SendHold(p) == SendHold(x) + w && RecvHold(x) == RecvHold(p) + k && Asking(x) + |k| == Asking(p)
  {
    var p := c.pc[t];
    assert p.SendAdvance? ==> SendHold(p) == [p.v];
    assert IsSender(p) || IsReceiver(p) by { hide Step; }
    if IsSender(p) { SenderHolds(c, t); } else { ReceiverHolds(c, t); }
    hide Step, IsSender, IsReceiver, CanStep, Sizes, SendHold, RecvHold, Asking;
  }

  lemma Regroup(a: multiset<int>, u: multiset<int>, u': multiset<int>, p: multiset<int>, x: multiset<int>, w: multiset<int>)
    requires u' + p == u + x && p == x + w
    ensures a + w + u' == a + u
  {
    assert forall v :: u'[v] + p[v] == (u' + p)[v] == (u + x)[v] == u[v] + x[v] && p[v] == x[v] + w[v];
  }

  lemma StepSends(c: Chan, t: int)
    requires Inv(c) && CanStep(c, t)
    ensures Sizes(c)
    ensures var c' := Step(c, t);
      && multiset(c'.written) + UnionF(c'.pc, SendTokens) == multiset(c.written) + UnionF(c.pc, SendTokens)
      && |c'.written| + SumF(c'.pc, Sending) == |c.written| + SumF(c.pc, Sending)
  {
    hide WaitersOk, OwnerOk, BalanceOk, FifoOk, Step, WakeList, Rank, Queued, Resumed, ResumeHead, SendHold, RecvHold, Asking;
    StepMoves(c, t);
    SelfHolds(c, t);
    var (p, x, q) := (c.pc[t], Step(c, t).pc[t], WakeList(c, t));
    var w := if p.SendAdvance? then [p.v] else [];
    if q != [] { ResumedHolds(c.pc[q[0]]); }
    ResumeUnion(c.pc, q, t, x, SendTokens);
    ResumeSum(c.pc, q, t, x, Sending);
    Regroup(multiset(c.written), UnionF(c.pc, SendTokens), UnionF(Step(c, t).pc, SendTokens), SendTokens(p), SendTokens(x),
            multiset(w));
  }

  lemma StepTakes(c: Chan, t: int)
    requires Inv(c) && CanStep(c, t)
    ensures Sizes(c)
    ensures var c' := Step(c, t);
      && multiset(c.taken) + UnionF(c'.pc, RecvTokens) == multiset(c'.taken) + UnionF(c.pc, RecvTokens)
      && |c'.taken| + SumF(c'.pc, Asking) == |c.taken| + SumF(c.pc, Asking)
  {
    hide WaitersOk, OwnerOk, BalanceOk, FifoOk, Step, WakeList, Rank, Queued, Resumed, ResumeHead, SendHold, RecvHold, Asking;
    StepMoves(c, t);
    SelfHolds(c, t);
    var (p, x, q) := (c.pc[t], Step(c, t).pc[t], WakeList(c, t));
    var k := if p.RecvAdvance? then [p.v] else [];
    if q != [] { ResumedHolds(c.pc[q[0]]); }
    ResumeUnion(c.pc, q, t, x, RecvTokens);
    ResumeSum(c.pc, q, t, x, Asking);
    Regroup(multiset(c.taken), UnionF(Step(c, t).pc, RecvTokens), UnionF(c.pc, RecvTokens), RecvTokens(x), RecvTokens(p),
            multiset(k));
  }

  // ----- the buffer itself -----

  /** The buffer part of uthread_channel_t, as the two mutex sections use it. */
  class Ring {
    const buffer: array<int>
    const capacity: nat
    var head: nat
    var tail: nat
    ghost var written: seq<int>
    ghost var taken: seq<int>

    ghost predicate Valid()
      reads this, buffer
    {
      && 0 < capacity <= buffer.Length && taken <= written && |written| - |taken| <= capacity
      && head == |taken| % capacity && tail == |written| % capacity
      && forall i | |taken| <= i < |written| :: buffer[i % capacity] == written[i]
    }

    constructor (capacity: nat)
      requires 0 < capacity
      ensures Valid() && fresh(buffer) && written == [] && taken == []
      ensures this.capacity == if capacity > MAX_CAPACITY then MAX_CAPACITY else capacity
    {
      buffer := new int[MAX_CAPACITY](_ => 0);
      this.capacity := if capacity > MAX_CAPACITY then MAX_CAPACITY else capacity;
      head, tail, written, taken := 0, 0, [], [];
    }

    /** The section of uthread_channel_send; the space semaphore has granted a slot. */
    method Store(msg: int)
      requires Valid() && |written| - |taken| < capacity
      modifies this`tail, this`written, buffer
      ensures Valid() && written == old(written) + [msg]
    {
      forall i | |taken| <= i < |written| ensures i % capacity != tail { ModDistinct(i, |written|, capacity); }
      ModSucc(|written|, capacity);
      buffer[tail] := msg;
      tail := (tail + 1) % capacity;
      written := written + [msg];
    }

    /** The section of uthread_channel_recv; the message semaphore has granted a message. */
    method Take() returns (msg: int)
      requires Valid() && |taken| < |written|
      modifies this`head, this`taken
      ensures Valid() && msg == written[|old(taken)|] && taken == old(taken) + [msg]
    {
      ModSucc(|taken|, capacity);
      msg := buffer[head];
      head := (head + 1) % capacity;
      taken := taken + [msg];
    }
  }
}
