/** uthread_mutex_t and uthread_sem_t as values: what one signal-blocked API section does to them,
    and what therefore holds over every run of calls by any threads. */
module WaitObjects {
  import opened Basics

  /** locked and waiters are the struct's fields (the list wait_head..wait_tail); the rest is history:
      asked holds the threads that have called lock and have not unlocked since, grants lists the
      threads in the order in which the lock became theirs. */
  datatype Mutex<T> = Mutex(locked: bool, waiters: seq<T>, asked: set<T>, grants: seq<T>, unlocks: nat)
  {
    /** The thread that owns the lock, which may have been woken without having run yet. */
    function Owner(): (r: Option<T>) {
      if locked && grants != [] then Some(grants[|grants| - 1]) else None
    }

    /** Everybody who ever asked for the lock, in the order of asking. */
    function Arrivals(): seq<T> { grants + waiters }
  }

  ghost predicate MutexInv<T>(m: Mutex<T>) {
    && |m.grants| == m.unlocks + (if m.locked then 1 else 0)
    && (m.waiters != [] ==> m.locked)
    && NoDup(m.waiters)
    && (forall t | t in m.asked :: t in m.waiters || m.Owner() == Some(t))
    && (forall t | t in m.waiters :: t in m.asked)
    && (m.Owner().Some? ==> m.Owner().value in m.asked)
  }

  function NewMutex<T>(): Mutex<T> { Mutex(false, [], {}, [], 0) }

  function LockMutex<T>(m: Mutex<T>, t: T): Mutex<T> {
    if !m.locked then m.(locked := true, asked := m.asked + {t}, grants := m.grants + [t])
    else m.(waiters := m.waiters + [t], asked := m.asked + {t})
  }

  function UnlockMutex<T>(m: Mutex<T>): Mutex<T> {
    var asked := if m.Owner().Some? then m.asked - {m.Owner().value} else m.asked;
    if m.waiters != [] then
      m.(waiters := m.waiters[1..], asked := asked, grants := m.grants + [m.waiters[0]], unlocks := m.unlocks + 1)
    else
      m.(locked := false, asked := asked, unlocks := m.unlocks + 1)
  }

  /** One call by a thread that is not waiting, or a step that does not concern the mutex. Only the
      owner unlocks. */
  ghost predicate MutexStep<T(!new)>(m: Mutex<T>, m': Mutex<T>) {
    || m' == m
    || (exists t :: t !in m.waiters && m' == LockMutex(m, t))
    || (m.Owner().Some? && m.Owner().value !in m.waiters && m' == UnlockMutex(m))
  }

  ghost predicate MutexRun<T(!new)>(ms: seq<Mutex<T>>) {
    && |ms| > 0 && MutexInv(ms[0])
    && forall i, j | 0 <= i && j == i + 1 < |ms| :: MutexStep(ms[i], ms[j])
  }

  /** Over a run the invariant holds throughout and the order of asking is only ever appended to. */
  lemma {:induction false} MutexRunKeeps<T(!new)>(ms: seq<Mutex<T>>, i: nat, j: nat)
    requires MutexRun(ms) && i <= j < |ms|
    ensures MutexInv(ms[i]) && MutexInv(ms[j])
    ensures ms[i].Arrivals() <= ms[j].Arrivals()
    ensures ms[i].unlocks <= ms[j].unlocks
    decreases j
  {
    if j > 0 {
      var h := if i < j then i else j - 1;
      MutexRunKeeps(ms, h, j - 1);
      MutexStepKeeps(ms[j - 1], ms[j]);
    }
  }

  /** Mutual exclusion over a run: of the threads that have called lock and not unlocked since, at
      most one is not waiting, and it is the owner. */
  lemma MutualExclusion<T(!new)>(ms: seq<Mutex<T>>, j: nat, t: T, u: T)
    requires MutexRun(ms) && j < |ms|
    requires t in ms[j].asked && u in ms[j].asked && t !in ms[j].waiters && u !in ms[j].waiters
    ensures t == u && ms[j].locked && ms[j].Owner() == Some(t)
  {
    MutexRunKeeps(ms, j, j);
  }

  lemma MutexStepKeeps<T(!new)>(m: Mutex<T>, m': Mutex<T>)
    requires MutexInv(m) && MutexStep(m, m')
    ensures MutexInv(m') && m.Arrivals() <= m'.Arrivals() && m.unlocks <= m'.unlocks
  {
    if m' == UnlockMutex(m) && m.waiters != [] {
      assert m.Arrivals() == m'.Arrivals();
    }
  }

  /** FIFO hand-off without barging: the thread waiting at position k owns the lock in exactly
      those states of the run that k + 1 further unlocks have led to. */
  lemma MutexHandOff<T(!new)>(ms: seq<Mutex<T>>, i: nat, j: nat, k: nat)
    requires MutexRun(ms) && i <= j < |ms| && k < |ms[i].waiters|
    requires ms[j].unlocks == ms[i].unlocks + k + 1
    ensures ms[j].locked && ms[j].Owner() == Some(ms[i].waiters[k])
  {
    MutexRunKeeps(ms, i, j);
    var n := |ms[i].grants| + k;
    assert ms[i].Arrivals()[n] == ms[i].waiters[k];
    assert ms[j].Arrivals()[n] == ms[i].waiters[k];
  }

  /** While fewer unlocks have happened, the thread still waits, exactly that many places further up. */
  lemma MutexStillWaiting<T(!new)>(ms: seq<Mutex<T>>, i: nat, j: nat, k: nat)
    requires MutexRun(ms) && i <= j < |ms| && k < |ms[i].waiters|
    requires ms[j].unlocks <= ms[i].unlocks + k
    ensures var d := ms[j].unlocks - ms[i].unlocks;
      k - d < |ms[j].waiters| && ms[j].waiters[k - d] == ms[i].waiters[k]
  {
    MutexRunKeeps(ms, i, j);
    var n := |ms[i].grants| + k;
    assert ms[j].Arrivals()[n] == ms[i].Arrivals()[n] == ms[i].waiters[k];
  }

  /** count and waiters are the struct's fields; initial, posts and grants are history. */
  datatype Sem<T> = Sem(count: int, waiters: seq<T>, initial: nat, posts: nat, grants: seq<T>)
  {
    function Arrivals(): seq<T> { grants + waiters }
  }

  ghost predicate SemInv<T>(s: Sem<T>) {
    && s.count >= 0
    && |s.grants| + s.count == s.initial + s.posts
    && (s.waiters != [] ==> s.count == 0)
  }

  function NewSem<T>(initial: nat): Sem<T> { Sem(initial, [], initial, 0, []) }

  function WaitSem<T>(s: Sem<T>, t: T): Sem<T> {
    if s.count > 0 then s.(count := s.count - 1, grants := s.grants + [t]) else s.(waiters := s.waiters + [t])
  }

  function PostSem<T>(s: Sem<T>): Sem<T> {
    if s.waiters != [] then
      s.(waiters := s.waiters[1..], grants := s.grants + [s.waiters[0]], posts := s.posts + 1)
    else
      s.(count := s.count + 1, posts := s.posts + 1)
  }

  ghost predicate SemStep<T(!new)>(s: Sem<T>, s': Sem<T>) {
    || s' == s
    || (exists t :: s' == WaitSem(s, t))
    || s' == PostSem(s)
  }

  ghost predicate SemRun<T(!new)>(ss: seq<Sem<T>>) {
    && |ss| > 0 && SemInv(ss[0])
    && forall i, j | 0 <= i && j == i + 1 < |ss| :: SemStep(ss[i], ss[j])
  }

  /** Over a run: granted waits + count = initial count + posts, the count is never negative, a
      waiting thread means count 0, and grants follow the order of asking. */
  lemma {:induction false} SemRunKeeps<T(!new)>(ss: seq<Sem<T>>, i: nat, j: nat)
    requires SemRun(ss) && i <= j < |ss|
    ensures SemInv(ss[i]) && SemInv(ss[j])
    ensures ss[i].Arrivals() <= ss[j].Arrivals()
    ensures ss[i].posts <= ss[j].posts && ss[i].initial == ss[j].initial
    decreases j
  {
    if j > 0 {
      var h := if i < j then i else j - 1;
      SemRunKeeps(ss, h, j - 1);
      SemStepKeeps(ss[j - 1], ss[j]);
    }
  }

  lemma SemStepKeeps<T(!new)>(s: Sem<T>, s': Sem<T>)
    requires SemInv(s) && SemStep(s, s')
    ensures SemInv(s') && s.Arrivals() <= s'.Arrivals()
    ensures s.posts <= s'.posts && s.initial == s'.initial
  {
    if s' == PostSem(s) && s.waiters != [] {
      assert s.Arrivals() == s'.Arrivals();
    }
  }

  /** No lost wakeup and no overtaking: the thread waiting at position k has its token if and only
      if at least k + 1 posts have happened since. */
  lemma SemHandOff<T(!new)>(ss: seq<Sem<T>>, i: nat, j: nat, k: nat)
    requires SemRun(ss) && i <= j < |ss| && k < |ss[i].waiters|
    ensures var n := |ss[i].grants| + k;
      && n < |ss[j].Arrivals()| && ss[j].Arrivals()[n] == ss[i].waiters[k]
      && (n < |ss[j].grants| <==> ss[j].posts >= ss[i].posts + k + 1)
  {
    SemRunKeeps(ss, i, j);
    var n := |ss[i].grants| + k;
    assert ss[j].Arrivals()[n] == ss[i].Arrivals()[n] == ss[i].waiters[k];
  }
}
