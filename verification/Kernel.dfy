/** The 1:N scheduler of src/uthread.c as a state machine. Every API section that runs with SIGALRM
    blocked is one operation, so a preempting yield may stand between any two operations. */
module Kernel {
  import opened Basics
  import opened WaitObjects
  import Trace

  type Tid = int
  type Wid = int

  datatype State = Ready | Running | Blocked | IoBlocked | Finished

  /** The one intrusive list that a thread control block is in, or InEpoll: it waits in uthread_read or uthread_write.
      A registration that epoll has refused is one that no report ever names. */
  datatype Place = Nowhere | InReady | InWait(w: Wid) | InSleep | InEpoll

  /** due is the last wake-up time the thread asked for; the other fields are the TCB's. */
  datatype Thread = Thread(state: State, place: Place, due: nat, priority: int, order: nat)

  datatype WaitObject = Lock(m: Mutex<Tid>) | Semaphore(s: Sem<Tid>)

  function Waiters(x: WaitObject): seq<Tid> {
    if x.Lock? then x.m.waiters else x.s.waiters
  }

  /** User: the current thread runs user code. Switching: inside uthread_yield or uthread_exit, SIGALRM
      blocked. Idle: the polling loop, nobody is ready. Halted: the process called exit(0). */
  datatype Phase = User | Switching | Idle | Halted
  datatype Policy = RoundRobin | Priority

  datatype Event = Event(tid: Tid, kind: Trace.EventType)

  /** One stay on the CPU, as the positions of its first and last event in the trace. */
  datatype Stay = Stay(tid: Tid, from: nat, to: nat)

  /** What has happened so far; no operation reads it. since is the trace position at which the running thread was
      dispatched, None when it was already running when the trace began. */
  datatype History = History(created: set<Tid>, exited: set<Tid>, dispatches: seq<Tid>,
                                   trace: seq<Event>, since: Option<nat>, stays: seq<Stay>)

  datatype Kernel = Kernel(
    phase: Phase, current: Tid, threads: map<Tid, Thread>,
    ready: seq<Tid>, sleepers: seq<Tid>, epoll: set<Tid>, waits: map<Wid, WaitObject>,
    clock: nat, policy: Policy, counter: nat, epollOpen: bool, h: History)

  /** What the outside world decides during a scheduling pass: the threads whose descriptors epoll
      reports, in its order, and the time check_sleep_list reads. */
  datatype World = World(events: seq<Tid>, now: nat)

  // ----- the system invariant -----

  /** Every list member is a thread of the global list. */
  ghost predicate Domain(k: Kernel) {
    && k.current in k.threads
    && Within(k.threads, k.ready) && Within(k.threads, k.sleepers)
    && (forall t | t in k.epoll :: t in k.threads)
    && (forall w | w in k.waits :: Within(k.threads, Waiters(k.waits[w])))
  }

  ghost predicate Within(threads: map<Tid, Thread>, q: seq<Tid>) {
    forall i | 0 <= i < |q| :: q[i] in threads
  }

  /** q is duplicate-free and holds exactly the threads whose place is p. */
  ghost predicate ListedAs(threads: map<Tid, Thread>, q: seq<Tid>, p: Place) {
    && NoDup(q)
    && (forall i | 0 <= i < |q| :: q[i] in threads && threads[q[i]].place == p)
    && (forall t | t in threads && threads[t].place == p :: t in q)
  }

  ghost predicate EpollOk(threads: map<Tid, Thread>, epoll: set<Tid>) {
    && (forall t | t in epoll :: t in threads && threads[t].place == InEpoll)
    && (forall t | t in threads && threads[t].place == InEpoll :: t in epoll)
  }

  ghost predicate WaitsOk(threads: map<Tid, Thread>, waits: map<Wid, WaitObject>) {
    forall w | w in waits :: WaitObjectOk(waits[w]) && ListedAs(threads, Waiters(waits[w]), InWait(w))
  }

  ghost predicate WaitObjectOk(x: WaitObject) {
    match x
    case Semaphore(s) => SemInv(s)
    case Lock(m) => MutexInv(m)
  }

  ghost predicate ListsOk(threads: map<Tid, Thread>, ready: seq<Tid>, sleepers: seq<Tid>, epoll: set<Tid>,
                                waits: map<Wid, WaitObject>) {
    && ListedAs(threads, ready, InReady)
    && ListedAs(threads, sleepers, InSleep)
    && EpollOk(threads, epoll)
    && WaitsOk(threads, waits)
  }

  ghost predicate Lists(k: Kernel) {
    ListsOk(k.threads, k.ready, k.sleepers, k.epoll, k.waits)
  }

  ghost predicate StateFits(x: Thread, mayRun: bool, waits: set<Wid>) {
    && (x.state.Ready? ==> x.place.InReady?)
    && (x.state.Running? ==> x.place.Nowhere? && mayRun)
    && (x.state.Blocked? ==> x.place.InWait? && x.place.w in waits)
    && (x.state.IoBlocked? ==> x.place.InSleep? || x.place.InEpoll?)
    && (x.state.Finished? ==> x.place.Nowhere?)
  }

  /** The current thread is on the global list; nobody else runs; sleepers excepted, every wake-up
      time asked for has passed. */
  ghost predicate ThreadsOk(k: Kernel) {
    && k.current in k.threads
    && (forall t | t in k.threads ::
          StateFits(k.threads[t], t == k.current && k.phase in {User, Switching}, k.waits.Keys))
    && (forall t | t in k.threads && k.threads[t].place != InSleep :: k.threads[t].due <= k.clock)
    && (k.phase == User ==> k.threads[k.current].state == Running)
    && (k.phase == Idle ==> k.ready == [])
  }

  ghost predicate OrdersOk(threads: map<Tid, Thread>, counter: nat) {
    && (forall t | t in threads :: threads[t].order < counter)
    && (forall t, u | t in threads && u in threads && t != u :: threads[t].order != threads[u].order)
  }

  /** Threads leave the global list only after they have exited. */
  ghost predicate LivesOk(threads: map<Tid, Thread>, created: set<Tid>, exited: set<Tid>) {
    && (forall t | t in created :: t in threads || t in exited)
    && (forall t | t in threads :: t in created)
    && exited <= created
    && (forall t | t in threads :: threads[t].state == Finished <==> t in exited)
  }

  ghost predicate Inv(k: Kernel) {
    Domain(k) && Lists(k) && ThreadsOk(k) && OrdersOk(k.threads, k.counter) && LivesOk(k.threads, k.h.created, k.h.exited)
  }

  // ----- building blocks of the operations -----

  function Emit(k: Kernel, t: Tid, e: Trace.EventType): Kernel {
    k.(h := k.h.(trace := k.h.trace + [Event(t, e)]))
  }

  /** A waiting thread leaves the list it is in and is appended to the ready queue. */
  function Admit(k: Kernel, t: Tid, e: Trace.EventType): (r: Kernel)
    requires Domain(k) && t in k.threads
    ensures Domain(r) && r.threads.Keys == k.threads.Keys
  {
    Emit(k.(threads := k.threads[t := k.threads[t].(state := Ready, place := InReady)],
            ready := k.ready + [t], sleepers := Without(k.sleepers, t), epoll := k.epoll - {t}), t, e)
  }

  function AdmitAll(k: Kernel, ts: seq<Tid>, e: Trace.EventType): (r: Kernel)
    requires Domain(k) && Within(k.threads, ts)
    ensures Domain(r) && r.threads.Keys == k.threads.Keys
  {
    if ts == [] then k else Admit(AdmitAll(k, ts[..|ts| - 1], e), ts[|ts| - 1], e)
  }

  /** The members of q whose wake-up time has come (or, with expired false, has not), in order. */
  function Due(k: Kernel, q: seq<Tid>, now: nat, expired: bool): (r: seq<Tid>)
    requires forall i | 0 <= i < |q| :: q[i] in k.threads
    ensures forall i | 0 <= i < |r| :: r[i] in q
  {
    if q == [] then []
    else
      var n := |q| - 1;
      var r := Due(k, q[..n], now, expired);
      if (k.threads[q[n]].due <= now) == expired then r + [q[n]] else r
  }

  /** check_sleep_list */
  function CheckSleep(k: Kernel, now: nat): (r: Kernel)
    requires Domain(k)
    ensures Domain(r) && r.threads.Keys == k.threads.Keys
  {
    AdmitAll(k.(clock := now), Due(k, k.sleepers, now, true), Trace.Wakeup)
  }

  /** What the outside world may do: epoll reports registered threads, each at most once, and
      nothing when there is no epoll descriptor; time does not run backwards. */
  ghost predicate Fits(k: Kernel, e: World) {
    && NoDup(e.events) && (forall i | 0 <= i < |e.events| :: e.events[i] in k.epoll) && Within(k.threads, e.events)
    && (!k.epollOpen ==> e.events == []) && k.clock <= e.now
  }

  /** check_io_events, then check_sleep_list */
  function Pass(k: Kernel, e: World): (r: Kernel)
    requires Domain(k) && Fits(k, e)
    ensures Domain(r) && r.threads.Keys == k.threads.Keys
  {
    CheckSleep(AdmitAll(k, e.events, Trace.IoUnblock), e.now)
  }

  /** gc_finished_threads: FINISHED threads other than the current one leave the global list. */
  function Gc(k: Kernel): Kernel {
    k.(threads := map t | t in k.threads && (k.threads[t].state != Finished || t == k.current) :: k.threads[t])
  }

  ghost predicate Alive(k: Kernel) {
    exists t :: t in k.threads && k.threads[t].state != Finished
  }

  /** The running thread stops running: it gets a new state and place, and its stay ends. */
  function Leave(k: Kernel, s: State, p: Place, e: Trace.EventType): (r: Kernel)
    requires k.current in k.threads
    ensures r.threads.Keys == k.threads.Keys
  {
    var stays := if k.h.since.Some? then k.h.stays + [Stay(k.current, k.h.since.value, |k.h.trace|)] else k.h.stays;
    Emit(k.(phase := Switching, threads := k.threads[k.current := k.threads[k.current].(state := s, place := p)],
            h := k.h.(since := None, stays := stays)), k.current, e)
  }

  function Before(a: Thread, b: Thread): bool {
    a.priority < b.priority || (a.priority == b.priority && a.order < b.order)
  }

  /** The scan of priority_next. */
  function Best(threads: map<Tid, Thread>, q: seq<Tid>): (b: Tid)
    requires q != [] && forall i | 0 <= i < |q| :: q[i] in threads
    ensures b in q
  {
    var last := q[|q| - 1];
    if |q| == 1 then last
    else
      var b := Best(threads, q[..|q| - 1]);
      if Before(threads[last], threads[b]) then last else b
  }

  /** schedule_next for the built-in policies. */
  function Next(k: Kernel): (t: Tid)
    requires Domain(k) && k.ready != []
    ensures t in k.ready
  {
    match k.policy
    case RoundRobin => k.ready[0]
    case Priority => Best(k.threads, k.ready)
  }

  function Dispatch(k: Kernel, t: Tid): Kernel
    requires t in k.threads
  {
    Emit(k.(phase := User, current := t, ready := Without(k.ready, t),
            threads := k.threads[t := k.threads[t].(state := Running, place := Nowhere)],
            h := k.h.(dispatches := k.h.dispatches + [t], since := Some(|k.h.trace|))), t, Trace.Run)
  }
}
