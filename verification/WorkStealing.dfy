/** The M:N run loop of src/uthread.c: virtual processors with local queues that steal from each other,
    a shared ready queue and the global thread list. Taking and releasing a spinlock are steps of their
    own; a locked section works only on what its lock protects. */
module WorkStealing {
  import opened Basics

  type Tid = int

  datatype State = Ready | Running | Finished

  /** ready_lock, global_list_lock, and queue_lock of virtual processor u. */
  datatype LockId = ReadyLock | ListLock | QueueLock(u: int)

  /** Where a virtual processor is. Acquire spins on a lock, Release is about to give one back, both
      with what comes next. The section bodies and loops hold the lock that LockOf says. `stolen` marks
      the vp_dequeue at the end of try_steal; u is the victim, n is steal_count, chain is the stolen
      chain in transit, was is the victim's queue before the theft (history); c is the running thread
      while it creates thread t. */
  datatype At =
    | Acquire(l: LockId, next: At) | Release(l: LockId, next: At)
    | Top
    | DeqBody(stolen: bool) | ReadyBody
    | StealStart | StealNext(start: nat, i: nat)
    | VictimBody(start: nat, i: nat, u: nat)
    | VictimLoop(start: nat, i: nat, u: nat, n: nat, chain: seq<Tid>, was: seq<Tid>)
    | AppendBody(n: nat, chain: seq<Tid>, was: seq<Tid>)
    | ScanBody | ScanAt(rest: seq<Tid>)
    | Dispatch(t: Tid) | Run(t: Tid) | PutBody(t: Tid)
    | GcBody(c: Tid) | Make(c: Tid) | AddBody(c: Tid, t: Tid) | PubBody(c: Tid, t: Tid)
    | Gone | Stop(i: nat) | Join(i: nat) | Returned

  /** queue, count and running are virtual_processor_t's local list, local_count and running. */
  datatype Vp = Vp(queue: seq<Tid>, count: int, running: bool, at: At)

  /** locks maps each lock that is 1 to its holder; state[t] is the state of the t-th thread created. */
  datatype World = World(ready: seq<Tid>, list: seq<Tid>, locks: map<LockId, int>, vps: seq<Vp>, state: seq<State>)

  /** What the outside decides: where a thief starts, what the running thread does next, and whether
      memory is available. */
  datatype Action = Yield | Exit | Create
  datatype Choice = Choice(start: nat, action: Action, memory: bool)

  /** k threads created before uthread_mn_run starts n virtual processors. */
  function Init(n: nat, k: nat): World {
    World(seq(k, i => i), seq(k, i => k - 1 - i), map[], seq(n, _ => Vp([], 0, true, Top)), seq(k, _ => Ready))
  }

  /** gc_finished_threads on the list; freeing the memory is not part of the model. */
  function Sweep(list: seq<Tid>, state: seq<State>, keep: Tid): (r: seq<Tid>)
    ensures forall i | 0 <= i < |r| :: r[i] in list
  {
    if list == [] then []
    else
      var r := Sweep(list[1..], state, keep);
      if Over(state, list[0]) && list[0] != keep then r else [list[0]] + r
  }

  predicate Over(state: seq<State>, t: Tid) { 0 <= t < |state| && state[t] == Finished }

  /** The lock that a section body works under. */
  function LockOf(a: At, v: int): Option<LockId> {
    if a.DeqBody? || a.AppendBody? || a.PutBody? then Some(QueueLock(v))
    else if a.VictimBody? || a.VictimLoop? then Some(QueueLock(a.u))
    else if a.ReadyBody? || a.PubBody? then Some(ReadyLock)
    else if a.ScanBody? || a.ScanAt? || a.GcBody? || a.AddBody? then Some(ListLock)
    else None
  }

  /** v has a next step: it does not spin on a taken lock, and has not come to the end. The last two
      conditions hold in every reachable state. */
  predicate CanStep(w: World, v: int) {
    && 0 <= v < |w.vps|
    && var a := w.vps[v].at;
       (a.Acquire? ==> a.l !in w.locks)
       && !a.Returned? && (a.Gone? ==> v == 0)
       && (a.Join? ==> a.i < |w.vps| && w.vps[a.i].at.Gone?)
       && (a.Dispatch? || a.Run? ==> 0 <= a.t < |w.state|)
       && (a.VictimBody? || a.VictimLoop? ==> a.u < |w.vps| && a.u != v)
  }

  function Goes(w: World, v: int, a: At): World
    requires 0 <= v < |w.vps|
  {
    w.(vps := w.vps[v := w.vps[v].(at := a)])
  }

  /** v's next step. */
  function Step(w: World, v: int, k: Choice): World
    requires CanStep(w, v)
  {
    var a := w.vps[v].at;
    if a.Acquire? then Goes(w, v, a.next).(locks := w.locks[a.l := v])
    else if a.Release? then Goes(w, v, a.next).(locks := w.locks - {a.l})
    else if LockOf(a, v).Some? then Section(w, v)
    else Plain(w, v, k)
  }

  /** One step inside a locked section. */
  function Section(w: World, v: int): World
    requires CanStep(w, v)
  {
    var a := w.vps[v].at;
    if a.VictimBody? || a.VictimLoop? || a.AppendBody? then Steal(w, v) else Local(w, v)
  }

  /** The sections of try_steal. */
  function Steal(w: World, v: int): World
    requires CanStep(w, v)
  {
    var (vps, p) := (w.vps, w.vps[v]);
    match p.at
    case VictimBody(start, i, u) =>
      Goes(w, v, if vps[u].count <= 1 then Release(QueueLock(u), StealNext(start, i + 1))
                 else VictimLoop(start, i, u, vps[u].count / 2, [], vps[u].queue))
    case VictimLoop(start, i, u, n, chain, was) =>
      var q := vps[u];
      if |chain| < n && q.queue != [] then
        Goes(w.(vps := vps[u := q.(queue := q.queue[1..], count := q.count - 1)]), v,
             VictimLoop(start, i, u, n, chain + [q.queue[0]], was))
      else Goes(w, v, Release(QueueLock(u), if chain == [] then StealNext(start, i + 1)
                                            else Acquire(QueueLock(v), AppendBody(n, chain, was))))
    case AppendBody(n, chain, was) =>
      w.(vps := vps[v := p.(queue := p.queue + chain, count := p.count + n,
                            at := Release(QueueLock(v), Acquire(QueueLock(v), DeqBody(true))))])
    case _ => w
  }

  /** All other sections. */
  function Local(w: World, v: int): World
    requires CanStep(w, v)
  {
    var (vps, p) := (w.vps, w.vps[v]);
    match p.at
    case DeqBody(stolen) =>   // vp_dequeue
      if p.queue != [] then
        w.(vps := vps[v := p.(queue := p.queue[1..], count := p.count - 1,
                              at := Release(QueueLock(v), Dispatch(p.queue[0])))])
      else Goes(w, v, Release(QueueLock(v), if stolen then Acquire(ListLock, ScanBody) else Acquire(ReadyLock, ReadyBody)))
    case ReadyBody =>         // dequeue
      if w.ready != [] then Goes(w, v, Release(ReadyLock, Dispatch(w.ready[0]))).(ready := w.ready[1..])
      else Goes(w, v, Release(ReadyLock, StealStart))
    case ScanBody => Goes(w, v, ScanAt(w.list))
    case ScanAt(rest) =>
      Goes(w, v, if rest == [] then Release(ListLock, Gone)
                 else if Over(w.state, rest[0]) then ScanAt(rest[1..])
                 else Release(ListLock, Top))
    case PutBody(t) =>        // vp_enqueue
      w.(vps := vps[v := p.(queue := p.queue + [t], count := p.count + 1, at := Release(QueueLock(v), Top))])
    case GcBody(c) => Goes(w, v, Release(ListLock, Make(c))).(list := Sweep(w.list, w.state, c))
    case AddBody(c, t) =>
      Goes(w, v, Release(ListLock, Acquire(ReadyLock, PubBody(c, t)))).(list := [t] + w.list)
    case PubBody(c, t) => Goes(w, v, Release(ReadyLock, Run(c))).(ready := w.ready + [t])
    case _ => w
  }

  /** The i-th victim of a thief that starts at `start`. */
  function Target(start: nat, i: nat, n: nat): (u: nat)
    requires n > 0
    ensures u < n
  {
    (start + i) % n
  }

  /** One step outside all sections. Stop(i) tells virtual processor i to stop. */
  function Plain(w: World, v: int, k: Choice): World
    requires CanStep(w, v)
  {
    var a := w.vps[v].at;
    var w1 := if a.Stop? && 0 < a.i < |w.vps| then w.(vps := w.vps[a.i := w.vps[a.i].(running := false)]) else w;
    Goes(w1, v, Onward(w, v, k)).(state := States(w, v, k))
  }

  /** Where it leads. */
  function Onward(w: World, v: int, k: Choice): At
    requires CanStep(w, v)
  {
    var n := |w.vps|;
    match w.vps[v].at
    case Top => if w.vps[v].running then Acquire(QueueLock(v), DeqBody(false)) else Gone
    case StealStart => if n <= 1 then Acquire(ListLock, ScanBody) else StealNext(Target(k.start, 0, n), 0)
    case StealNext(start, i) =>
      if i >= n then Acquire(ListLock, ScanBody)
      else if Target(start, i, n) == v then StealNext(start, i + 1)
      else Acquire(QueueLock(Target(start, i, n)), VictimBody(start, i, Target(start, i, n)))
    case Dispatch(t) => Run(t)
    case Run(t) =>
      (match k.action
       case Yield => Acquire(QueueLock(v), PutBody(t))
       case Exit => Top
       case Create => Acquire(ListLock, GcBody(t)))
    case Make(c) => if k.memory then Acquire(ListLock, AddBody(c, |w.state|)) else Run(c)
    case Gone => Stop(1)   // uthread_mn_run, after virtual processor 0 has left the loop
    case Stop(i) => if 0 < i < n then Join(i) else Returned
    case Join(i) => Stop(i + 1)
    case a => a
  }

  /** What it does to the thread states. */
  function States(w: World, v: int, k: Choice): seq<State>
    requires CanStep(w, v)
  {
    var a := w.vps[v].at;
    if a.Dispatch? then w.state[a.t := Running]
    else if a.Run? && k.action.Yield? then w.state[a.t := Ready]
    else if a.Run? && k.action.Exit? then w.state[a.t := Finished]
    else if a.Make? && k.memory then w.state + [Ready]   // the new control block
    else w.state
  }

  // ----- the locks -----

  /** The lock v holds. */
  function Held(a: At, v: int): Option<LockId> { if a.Release? then Some(a.l) else LockOf(a, v) }

  /** Each lock is taken for the section that follows, and given back before anything else is taken. */
  predicate Nested(a: At, v: int) {
    var b := if a.Release? then a.next else a;
    && (a.Release? ==> LockOf(b, v) == None && !b.Release? && !b.Stop? && !b.Join? && !b.Returned?)
    && (b.Acquire? ==> LockOf(b.next, v) == Some(b.l) && !b.next.VictimLoop? && !b.next.ScanAt?)
  }

  ghost predicate Locks(vps: seq<Vp>, locks: map<LockId, int>) {
    && (forall v | 0 <= v < |vps| :: Nested(vps[v].at, v))
    && (forall v | 0 <= v < |vps| && Held(vps[v].at, v).Some? ::
          Held(vps[v].at, v).value in locks && locks[Held(vps[v].at, v).value] == v)
    && (forall l | l in locks :: 0 <= locks[l] < |vps| && Held(vps[locks[l]].at, locks[l]) == Some(l))
  }

  lemma LocksTake(vps: seq<Vp>, locks: map<LockId, int>, v: int, p: Vp)
    requires Locks(vps, locks) && 0 <= v < |vps| && vps[v].at.Acquire? && vps[v].at.l !in locks && p.at == vps[v].at.next
    ensures Locks(vps[v := p], locks[vps[v].at.l := v])
  {
  }

  lemma LocksGive(vps: seq<Vp>, locks: map<LockId, int>, v: int, p: Vp)
    requires Locks(vps, locks) && 0 <= v < |vps| && vps[v].at.Release? && p.at == vps[v].at.next
    ensures Locks(vps[v := p], locks - {vps[v].at.l})
  {
  }

  lemma LocksKeep(vps: seq<Vp>, locks: map<LockId, int>, v: int, p: Vp)
    requires Locks(vps, locks) && 0 <= v < |vps| && Held(p.at, v) == Held(vps[v].at, v) && Nested(p.at, v)
    ensures Locks(vps[v := p], locks)
  {
    hide Nested;
  }

  // ----- one virtual processor -----

  /** What a virtual processor is about once it has its lock, or has given it back. */
  function Core(a: At): At {
    var b := if a.Release? then a.next else a;
    if b.Acquire? then b.next else b
  }

  /** Between a failed vp_dequeue and the end of the next append the local queue stays empty: only its
      owner appends to it. */
  predicate Starved(c: At) {
    c.ReadyBody? || c.StealStart? || c.StealNext? || c.VictimBody? || c.VictimLoop? || c.AppendBody?
  }

  /** From the append to the vp_dequeue that ends the theft it is not empty: thieves leave an element. */
  predicate Stocked(c: At) { c.DeqBody? && c.stolen }

  /** What a thief has taken so far is the front of what the victim had, and will be half of it. */
  predicate ChainOk(c: At) {
    && (c.VictimLoop? ==> |c.was| >= 2 && c.n == |c.was| / 2 && |c.chain| <= c.n && c.chain == c.was[..|c.chain|])
    && (c.AppendBody? ==> |c.was| >= 2 && c.n == |c.was| / 2 && c.chain == c.was[..c.n])
  }

  predicate Places(c: At, v: int, n: int) {
    && (c.VictimBody? || c.VictimLoop? ==> c.u < n && c.u != v)
    && (c.Join? ==> 0 < c.i < n) && (c.Stop? ==> 0 < c.i) && (c.Stop? || c.Join? || c.Returned? ==> v == 0)
  }

  predicate VpOk(queue: seq<Tid>, count: int, c: At, v: int, n: int) {
    && count == |queue| && (Starved(c) ==> queue == []) && (Stocked(c) ==> queue != [])
    && ChainOk(c) && Places(c, v, n)
  }

  ghost predicate AllOk(vps: seq<Vp>) {
    forall v | 0 <= v < |vps| :: VpOk(vps[v].queue, vps[v].count, Core(vps[v].at), v, |vps|)
  }

  /** While v holds its victim's lock: the victim, and what the theft so far leaves it. */
  function Victim(a: At): Option<(int, seq<Tid>)> {
    if a.VictimLoop? then (if |a.chain| <= |a.was| then Some((a.u, a.was[|a.chain|..])) else None)
    else if a.Release? && a.l.QueueLock? && Core(a).AppendBody? then
      (if Core(a).n <= |Core(a).was| then Some((a.l.u, Core(a).was[Core(a).n..])) else None)
    else None
  }

  /** The victim's queue is just that. */
  ghost predicate Loot(vps: seq<Vp>) {
    forall v | 0 <= v < |vps| :: LootAt(vps, vps[v].at)
  }

  ghost predicate LootAt(vps: seq<Vp>, a: At) {
    Victim(a).Some? && 0 <= Victim(a).value.0 < |vps| ==> vps[Victim(a).value.0].queue == Victim(a).value.1
  }

  // ----- the shape of a step -----

  /** The change that v's next step makes to another virtual processor, if any. */
  function Aside(vps: seq<Vp>, v: int): (r: Option<(nat, Vp)>)
    requires 0 <= v < |vps|
    ensures r.Some? ==> r.value.0 < |vps| && r.value.1.at == vps[r.value.0].at
  {
    var a := vps[v].at;
    if a.VictimLoop? && a.u < |vps| && |a.chain| < a.n && vps[a.u].queue != [] then
      Some((a.u, vps[a.u].(queue := vps[a.u].queue[1..], count := vps[a.u].count - 1)))
    else if a.Stop? && 0 < a.i < |vps| then Some((a.i, vps[a.i].(running := false)))
    else None
  }

  function Beside(vps: seq<Vp>, v: int): (r: seq<Vp>)
    requires 0 <= v < |vps|
    ensures |r| == |vps|
  {
    var x := Aside(vps, v);
    if x.Some? then vps[x.value.0 := x.value.1] else vps
  }

  /** v's step changes v and at most one other. */
  ghost predicate Shaped(vps: seq<Vp>, vps': seq<Vp>, v: int)
    requires 0 <= v < |vps|
  {
    && |vps'| == |vps| && vps' == Beside(vps, v)[v := vps'[v]]
    && (Aside(vps, v).Some? ==> Aside(vps, v).value.0 != v)
  }

  lemma StepShape(w: World, v: int, k: Choice)
    requires CanStep(w, v) && VpOk(w.vps[v].queue, w.vps[v].count, Core(w.vps[v].at), v, |w.vps|)
    ensures Shaped(w.vps, Step(w, v, k).vps, v)
  {
    if LockOf(w.vps[v].at, v).Some? { SectionShape(w, v); } else { PlainShape(w, v, k); }
  }

  lemma SectionShape(w: World, v: int)
    requires CanStep(w, v) && LockOf(w.vps[v].at, v).Some?
    ensures Shaped(w.vps, Section(w, v).vps, v)
  {
  }

  lemma PlainShape(w: World, v: int, k: Choice)
    requires CanStep(w, v) && LockOf(w.vps[v].at, v).None? && Places(Core(w.vps[v].at), v, |w.vps|)
    ensures Shaped(w.vps, Step(w, v, k).vps, v)
  {
  }

  // ----- locks are kept -----

  lemma AsideLocks(vps: seq<Vp>, locks: map<LockId, int>, v: int)
    requires Locks(vps, locks) && 0 <= v < |vps|
    ensures Locks(Beside(vps, v), locks)
  {
    hide Nested;
  }

  /** Inside a section v keeps the lock, outside it has none. */
  lemma OwnLock(w: World, v: int, k: Choice)
    requires CanStep(w, v) && !w.vps[v].at.Acquire? && !w.vps[v].at.Release?
    requires Places(Core(w.vps[v].at), v, |w.vps|)
    ensures var (a, r) := (w.vps[v].at, Step(w, v, k));
      r.locks == w.locks && |r.vps| == |w.vps| && Held(r.vps[v].at, v) == Held(a, v) && Nested(r.vps[v].at, v)
  {
    if LockOf(w.vps[v].at, v).Some? { SectionLock(w, v); } else { PlainLock(w, v, k); }
    hide Section, Plain, CanStep, Places, Nested, LockOf;
  }

  predicate Stealing(a: At) { a.VictimBody? || a.VictimLoop? || a.AppendBody? }

  lemma StealLock(w: World, v: int)
    requires CanStep(w, v) && Stealing(w.vps[v].at)
    ensures var (a, r) := (w.vps[v].at, Steal(w, v));
      r.locks == w.locks && |r.vps| == |w.vps| && Held(r.vps[v].at, v) == Held(a, v) && Nested(r.vps[v].at, v)
  {
  }

  lemma LocalLock(w: World, v: int)
    requires CanStep(w, v) && LockOf(w.vps[v].at, v).Some? && !Stealing(w.vps[v].at)
    ensures var (a, r) := (w.vps[v].at, Local(w, v));
      r.locks == w.locks && |r.vps| == |w.vps| && Held(r.vps[v].at, v) == Held(a, v) && Nested(r.vps[v].at, v)
  {
    hide Over, Sweep;
  }

  lemma SectionLock(w: World, v: int)
    requires CanStep(w, v) && LockOf(w.vps[v].at, v).Some?
    ensures var (a, r) := (w.vps[v].at, Section(w, v));
      r.locks == w.locks && |r.vps| == |w.vps| && Held(r.vps[v].at, v) == Held(a, v) && Nested(r.vps[v].at, v)
  {
    if Stealing(w.vps[v].at) { StealLock(w, v); } else { LocalLock(w, v); }
    hide Steal, Local, Nested, LockOf, CanStep;
  }

  lemma PlainLock(w: World, v: int, k: Choice)
    requires CanStep(w, v) && LockOf(w.vps[v].at, v).None? && !w.vps[v].at.Acquire? && !w.vps[v].at.Release?
    requires Places(Core(w.vps[v].at), v, |w.vps|)
    ensures var (a, r) := (w.vps[v].at, Plain(w, v, k));
      r.locks == w.locks && |r.vps| == |w.vps| && Held(r.vps[v].at, v) == None && Nested(r.vps[v].at, v)
  {
    hide Target;
  }

  lemma StepLocks(w: World, v: int, k: Choice)
    requires CanStep(w, v) && Locks(w.vps, w.locks) && AllOk(w.vps)
    ensures Locks(Step(w, v, k).vps, Step(w, v, k).locks)
  {
    var (a, r) := (w.vps[v].at, Step(w, v, k));
    assert VpOk(w.vps[v].queue, w.vps[v].count, Core(a), v, |w.vps|);
    hide AllOk, Starved, Stocked, ChainOk, Section, Plain, Nested;
    if a.Acquire? {
      LocksTake(w.vps, w.locks, v, r.vps[v]);
    } else if a.Release? {
      LocksGive(w.vps, w.locks, v, r.vps[v]);
    } else {
      StepShape(w, v, k);
      OwnLock(w, v, k);
      AsideLocks(w.vps, w.locks, v);
      hide Step, Locks, CanStep, Beside, Places;
      LocksKeep(Beside(w.vps, v), w.locks, v, r.vps[v]);
    }
  }

  // ----- the virtual processors are kept -----

  lemma OwnOk(w: World, v: int, k: Choice)
    requires CanStep(w, v) && VpOk(w.vps[v].queue, w.vps[v].count, Core(w.vps[v].at), v, |w.vps|)
    requires Loot(w.vps) && AllOk(w.vps) && Nested(w.vps[v].at, v)
    ensures var r := Step(w, v, k);
      |r.vps| == |w.vps| && VpOk(r.vps[v].queue, r.vps[v].count, Core(r.vps[v].at), v, |w.vps|)
  {
    var a := w.vps[v].at;
    if LockOf(a, v).Some? {
      SectionOk(w, v);
    } else if !a.Acquire? && !a.Release? {
      PlainOk(w, v, k);
    }
    hide Section, Plain, VpOk, Loot, LockOf;
  }

  lemma SectionOk(w: World, v: int)
    requires CanStep(w, v) && LockOf(w.vps[v].at, v).Some? && Loot(w.vps) && AllOk(w.vps)
    ensures var r := Section(w, v);
      |r.vps| == |w.vps| && VpOk(r.vps[v].queue, r.vps[v].count, Core(r.vps[v].at), v, |w.vps|)
  {
    assert VpOk(w.vps[v].queue, w.vps[v].count, Core(w.vps[v].at), v, |w.vps|);
    if Stealing(w.vps[v].at) { StealOk(w, v); } else { LocalOk(w, v); }
    hide Steal, Local, VpOk, LockOf, CanStep;
  }

  lemma StealOk(w: World, v: int)
    requires CanStep(w, v) && Stealing(w.vps[v].at) && Loot(w.vps) && AllOk(w.vps)
    ensures var r := Steal(w, v);
      |r.vps| == |w.vps| && VpOk(r.vps[v].queue, r.vps[v].count, Core(r.vps[v].at), v, |w.vps|)
  {
    var a := w.vps[v].at;
    assert VpOk(w.vps[v].queue, w.vps[v].count, Core(a), v, |w.vps|);
    if !a.AppendBody? {
      assert VpOk(w.vps[a.u].queue, w.vps[a.u].count, Core(w.vps[a.u].at), a.u, |w.vps|);
      assert LootAt(w.vps, a);
    }
    hide AllOk, Loot;
  }

  lemma LocalOk(w: World, v: int)
    requires CanStep(w, v) && LockOf(w.vps[v].at, v).Some? && !Stealing(w.vps[v].at)
    requires VpOk(w.vps[v].queue, w.vps[v].count, Core(w.vps[v].at), v, |w.vps|)
    ensures var r := Local(w, v);
      |r.vps| == |w.vps| && VpOk(r.vps[v].queue, r.vps[v].count, Core(r.vps[v].at), v, |w.vps|)
  {
    hide Over, Sweep;
  }

  /** Where a step outside all sections leads. */
  lemma OnwardPlaces(w: World, v: int, k: Choice)
    requires CanStep(w, v) && LockOf(w.vps[v].at, v).None? && !w.vps[v].at.Acquire? && !w.vps[v].at.Release?
    requires Places(w.vps[v].at, v, |w.vps|)
    ensures var (a, c) := (w.vps[v].at, Core(Onward(w, v, k)));
      ChainOk(c) && Places(c, v, |w.vps|) && (Starved(c) ==> Starved(a)) && !Stocked(c)
  {
    hide Target;
  }

  lemma PlainOk(w: World, v: int, k: Choice)
    requires CanStep(w, v) && LockOf(w.vps[v].at, v).None? && !w.vps[v].at.Acquire? && !w.vps[v].at.Release?
    requires VpOk(w.vps[v].queue, w.vps[v].count, Core(w.vps[v].at), v, |w.vps|)
    ensures var r := Plain(w, v, k);
      |r.vps| == |w.vps| && VpOk(r.vps[v].queue, r.vps[v].count, Core(r.vps[v].at), v, |w.vps|)
  {
    CoreBody(w.vps[v].at);
    hide Onward, States, Core, ChainOk, Places, Starved, Stocked, CanStep, LockOf;
    OnwardPlaces(w, v, k);
    StopOther(w, v);
  }

  lemma StopOther(w: World, v: int)
    requires CanStep(w, v) && Places(Core(w.vps[v].at), v, |w.vps|)
    ensures w.vps[v].at.Stop? ==> w.vps[v].at.i != v
  {
  }

  /** A thief that takes an element leaves the victim at least one more. */
  lemma AsideOk(vps: seq<Vp>, v: int)
    requires AllOk(vps) && Loot(vps) && 0 <= v < |vps|
    ensures AllOk(Beside(vps, v))
  {
    var x := Aside(vps, v);
    if x.Some? && vps[v].at.VictimLoop? {
      assert ChainOk(vps[v].at);
      var u := x.value.0;
      assert LootAt(vps, vps[v].at);
      assert VpOk(x.value.1.queue, x.value.1.count, Core(x.value.1.at), u, |vps|);
      hide VpOk;
    }
  }

  lemma StepOk(w: World, v: int, k: Choice)
    requires CanStep(w, v) && AllOk(w.vps) && Loot(w.vps) && Locks(w.vps, w.locks)
    ensures AllOk(Step(w, v, k).vps)
  {
    var r := Step(w, v, k);
    assert Nested(w.vps[v].at, v);
    StepShape(w, v, k);
    OwnOk(w, v, k);
    AsideOk(w.vps, v);
    hide Step, VpOk, CanStep, Beside, Aside, Loot, Locks, Nested;
    assert r.vps == Beside(w.vps, v)[v := r.vps[v]];
  }

  /** Who changes a queue holds its lock. */
  lemma QueueOwner(w: World, v: int, k: Choice, y: int)
    requires CanStep(w, v) && VpOk(w.vps[v].queue, w.vps[v].count, Core(w.vps[v].at), v, |w.vps|) && 0 <= y < |w.vps|
    ensures |Step(w, v, k).vps| == |w.vps|
    ensures Step(w, v, k).vps[y].queue == w.vps[y].queue || Held(w.vps[v].at, v) == Some(QueueLock(y))
  {
    StepShape(w, v, k);
    if LockOf(w.vps[v].at, v).Some? {
      SectionQueue(w, v, y);
    } else if !w.vps[v].at.Acquire? && !w.vps[v].at.Release? {
      PlainQueue(w, v, k, y);
    }
    hide Section, Plain;
  }

  lemma SectionQueue(w: World, v: int, y: int)
    requires CanStep(w, v) && LockOf(w.vps[v].at, v).Some? && 0 <= y < |w.vps|
    ensures |Section(w, v).vps| == |w.vps|
    ensures Section(w, v).vps[y].queue == w.vps[y].queue || LockOf(w.vps[v].at, v) == Some(QueueLock(y))
  {
  }

  lemma PlainQueue(w: World, v: int, k: Choice, y: int)
    requires CanStep(w, v) && LockOf(w.vps[v].at, v).None? && 0 <= y < |w.vps|
    ensures |Plain(w, v, k).vps| == |w.vps| && Plain(w, v, k).vps[y].queue == w.vps[y].queue
  {
  }

  lemma OwnLoot(w: World, v: int, k: Choice)
    requires CanStep(w, v) && VpOk(w.vps[v].queue, w.vps[v].count, Core(w.vps[v].at), v, |w.vps|)
    requires Loot(w.vps) && Nested(w.vps[v].at, v)
    ensures var r := Step(w, v, k); |r.vps| == |w.vps| && LootAt(r.vps, r.vps[v].at)
  {
    var a := w.vps[v].at;
    assert LootAt(w.vps, a);
    if LockOf(a, v).Some? {
      if Stealing(a) { StealLoot(w, v); } else { LocalLoot(w, v); }
      hide Plain, Loot, Steal, Local, Victim;
    } else {
      hide Section, Loot;
    }
  }

  lemma StealLoot(w: World, v: int)
    requires CanStep(w, v) && VpOk(w.vps[v].queue, w.vps[v].count, Core(w.vps[v].at), v, |w.vps|)
    requires Stealing(w.vps[v].at) && LootAt(w.vps, w.vps[v].at)
    ensures var r := Steal(w, v); |r.vps| == |w.vps| && LootAt(r.vps, r.vps[v].at)
  {
    hide Steal;
    if w.vps[v].at.VictimLoop? { LoopLoot(w, v); } else { BodyLoot(w, v); }
  }

  lemma BodyLoot(w: World, v: int)
    requires CanStep(w, v) && (w.vps[v].at.VictimBody? || w.vps[v].at.AppendBody?)
    ensures var r := Steal(w, v); |r.vps| == |w.vps| && LootAt(r.vps, r.vps[v].at)
  {
    hide Starved, Stocked;
  }

  lemma LoopLoot(w: World, v: int)
    requires CanStep(w, v) && w.vps[v].at.VictimLoop? && ChainOk(Core(w.vps[v].at)) && LootAt(w.vps, w.vps[v].at)
    ensures var r := Steal(w, v); |r.vps| == |w.vps| && LootAt(r.vps, r.vps[v].at)
  {
    var a := w.vps[v].at;
    CoreBody(a);
    assert w.vps[a.u].queue == a.was[|a.chain|..];
    assert |a.chain| < a.n ==> w.vps[a.u].queue[1..] == a.was[|a.chain| + 1..];
  }

  lemma LocalLoot(w: World, v: int)
    requires CanStep(w, v) && LockOf(w.vps[v].at, v).Some? && !Stealing(w.vps[v].at)
    ensures |Local(w, v).vps| == |w.vps| && Victim(Local(w, v).vps[v].at) == None
  {
    hide Over, Sweep;
  }

  lemma VictimHeld(a: At, v: int)
    ensures Victim(a).Some? ==> Held(a, v) == Some(QueueLock(Victim(a).value.0))
  {
  }

  /** While a thief holds the victim's lock nobody else touches the victim's queue. */
  lemma StepLoot(w: World, v: int, k: Choice)
    requires CanStep(w, v) && AllOk(w.vps) && Loot(w.vps) && Locks(w.vps, w.locks)
    ensures Loot(Step(w, v, k).vps)
  {
    var r := Step(w, v, k);
    assert VpOk(w.vps[v].queue, w.vps[v].count, Core(w.vps[v].at), v, |w.vps|) && Nested(w.vps[v].at, v);
    hide Step, VpOk, CanStep, Nested, AllOk, Victim, Held;
    StepShape(w, v, k);
    forall x | 0 <= x < |r.vps| ensures LootAt(r.vps, r.vps[x].at) {
      if x == v {
        OwnLoot(w, v, k);
      } else {
        assert r.vps[x].at == w.vps[x].at && LootAt(w.vps, w.vps[x].at);
        VictimHeld(w.vps[x].at, x);
        if Victim(r.vps[x].at).Some? && 0 <= Victim(r.vps[x].at).value.0 < |w.vps| {
          QueueOwner(w, v, k, Victim(r.vps[x].at).value.0);
        }
      }
    }
  }

  // ----- tokens -----

  /** The threads that v has in hand and has published, ready to run. */
  function InHand(c: At): multiset<Tid> {
    if c.Dispatch? || c.PutBody? || c.PubBody? then multiset{c.t}
    else if c.VictimLoop? || c.AppendBody? then multiset(c.chain)
    else multiset{}
  }

  /** The thread that v has just made and not yet put on the global list. */
  function Unlisted(c: At): multiset<Tid> { if c.AddBody? then multiset{c.t} else multiset{} }

  /** The thread that v runs. */
  function OnCpu(c: At): multiset<Tid> {
    if c.Run? then multiset{c.t} else if c.GcBody? || c.Make? || c.AddBody? || c.PubBody? then multiset{c.c} else multiset{}
  }

  function ReadyTokens(p: Vp): multiset<Tid> { multiset(p.queue) + InHand(Core(p.at)) + Unlisted(Core(p.at)) }
  function RunTokens(p: Vp): multiset<Tid> { OnCpu(Core(p.at)) }

  /** The threads in state s, once each. */
  ghost function Of(state: seq<State>, s: State): multiset<Tid> {
    if state == [] then multiset{}
    else
      var n := |state| - 1;
      Of(state[..n], s) + if state[n] == s then multiset{n} else multiset{}
  }

  lemma {:induction false} OfOnce(state: seq<State>, s: State, t: Tid)
    ensures Of(state, s)[t] == if 0 <= t < |state| && state[t] == s then 1 else 0
  {
    if state != [] { OfOnce(state[..|state| - 1], s, t); }
  }

  lemma OfUpdate(state: seq<State>, t: Tid, new': State, s: State)
    requires 0 <= t < |state|
    ensures Of(state[t := new'], s) + (if state[t] == s then multiset{t} else multiset{})
      == Of(state, s) + if new' == s then multiset{t} else multiset{}
  {
    hide Of;
    forall x ensures Of(state[t := new'], s)[x] + (if state[t] == s && x == t then 1 else 0)
        == Of(state, s)[x] + if new' == s && x == t then 1 else 0 {
      OfOnce(state, s, x);
      OfOnce(state[t := new'], s, x);
    }
  }

  /** Every READY thread is in exactly one place: the shared queue, one local queue, one chain in
      transit, or one virtual processor's hands; every RUNNING thread is on one virtual processor. */
  ghost predicate ReadyBook(ready: seq<Tid>, vps: seq<Vp>, state: seq<State>) {
    multiset(ready) + UnionF(vps, ReadyTokens) == Of(state, Ready)
  }

  ghost predicate RunBook(vps: seq<Vp>, state: seq<State>) {
    UnionF(vps, RunTokens) == Of(state, Running)
  }

  /** What a step moves between its own hands, the shared queue, the queue of a victim, and the states. */
  ghost function AsideLoss(vps: seq<Vp>, v: int): multiset<Tid>
    requires 0 <= v < |vps|
  {
    var x := Aside(vps, v);
    if x.Some? && vps[v].at.VictimLoop? then multiset{vps[x.value.0].queue[0]} else multiset{}
  }

  lemma QueueHead(q: seq<Tid>)
    requires q != []
    ensures multiset(q) == multiset(q[1..]) + multiset{q[0]}
  {
    assert q == [q[0]] + q[1..];
  }

  lemma Drop(u: multiset<Tid>, u': multiset<Tid>, p: multiset<Tid>, q: multiset<Tid>, d: multiset<Tid>)
    requires u' + p == u + q && p == q + d
    ensures u' + d == u
  {
    forall x ensures u'[x] + d[x] == u[x] {
      assert u'[x] + p[x] == (u' + p)[x] == u[x] + q[x];
    }
  }

  lemma AsideReady(vps: seq<Vp>, v: int)
    requires 0 <= v < |vps|
    ensures UnionF(Beside(vps, v), ReadyTokens) + AsideLoss(vps, v) == UnionF(vps, ReadyTokens)
    ensures UnionF(Beside(vps, v), RunTokens) == UnionF(vps, RunTokens)
  {
    var x := Aside(vps, v);
    if x.Some? {
      var (u, q) := x.value;
      AsideTokens(vps, v);
      hide UnionF, ReadyTokens, RunTokens, Aside, AsideLoss;
      UnionFUpdate(vps, ReadyTokens, u, q);
      UnionFUpdate(vps, RunTokens, u, q);
      Drop(UnionF(vps, ReadyTokens), UnionF(Beside(vps, v), ReadyTokens), ReadyTokens(vps[u]), ReadyTokens(q), AsideLoss(vps, v));
      Drop(UnionF(vps, RunTokens), UnionF(Beside(vps, v), RunTokens), RunTokens(vps[u]), RunTokens(q), multiset{});
    }
  }

  lemma AsideTokens(vps: seq<Vp>, v: int)
    requires 0 <= v < |vps| && Aside(vps, v).Some?
    ensures var (u, q) := Aside(vps, v).value; ReadyTokens(vps[u]) == ReadyTokens(q) + AsideLoss(vps, v)
    ensures var (u, q) := Aside(vps, v).value; RunTokens(vps[u]) == RunTokens(q)
  {
    var (u, q) := Aside(vps, v).value;
    if vps[v].at.VictimLoop? { QueueHead(vps[u].queue); }
    hide InHand, Unlisted, OnCpu, Core;
  }

  /** What becomes READY, stops being READY, becomes RUNNING and stops being RUNNING by a step. */
  ghost function Gain(w: World, v: int, k: Choice, s: State): multiset<Tid>
    requires CanStep(w, v)
  {
    var a := w.vps[v].at;
    if s == Ready && a.Run? && k.action.Yield? then multiset{a.t}
    else if s == Ready && a.Make? && k.memory then multiset{|w.state|}
    else if s == Running && a.Dispatch? then multiset{a.t}
    else multiset{}
  }

  ghost function Loss(w: World, v: int, k: Choice, s: State): multiset<Tid>
    requires CanStep(w, v)
  {
    var a := w.vps[v].at;
    if s == Ready && a.Dispatch? then multiset{a.t}
    else if s == Running && a.Run? && !k.action.Create? then multiset{a.t}
    else multiset{}
  }

  /** A dispatched thread was READY and a running one RUNNING. */
  predicate Ripe(w: World, v: int)
    requires CanStep(w, v)
  {
    var a := w.vps[v].at;
    (a.Dispatch? ==> w.state[a.t] == Ready) && (a.Run? ==> w.state[a.t] == Running)
  }

  lemma StateMoves(w: World, v: int, k: Choice, s: State)
    requires CanStep(w, v) && Ripe(w, v) && !s.Finished?
    ensures Of(Step(w, v, k).state, s) + Loss(w, v, k, s) == Of(w.state, s) + Gain(w, v, k, s)
  {
    var a := w.vps[v].at;
    StateChange(w, v, k);
    hide Step, Of;
    if a.Dispatch? {
      OfUpdate(w.state, a.t, Running, s);
    } else if a.Run? && !k.action.Create? {
      OfUpdate(w.state, a.t, if k.action.Yield? then Ready else Finished, s);
    } else if a.Make? && k.memory {
      OfMore(w.state, s);
    }
  }

  lemma OfMore(state: seq<State>, s: State)
    ensures Of(state + [Ready], s) == Of(state, s) + if s == Ready then multiset{|state|} else multiset{}
  {
    assert (state + [Ready])[..|state|] == state;
  }

  lemma StateChange(w: World, v: int, k: Choice)
    requires CanStep(w, v)
    ensures var (a, r) := (w.vps[v].at, Step(w, v, k));
      r.state == if a.Dispatch? then w.state[a.t := Running]
                 else if a.Run? && k.action.Yield? then w.state[a.t := Ready]
                 else if a.Run? && k.action.Exit? then w.state[a.t := Finished]
                 else if a.Make? && k.memory then w.state + [Ready] else w.state
  {
    hide Target, Over, Sweep;
  }

  /** What v has, with the shared queue, before and after a step; side is what the step took from another
      queue, g and l what became and ceased to be READY, g' and l' RUNNING. */
  ghost predicate Sums(ready: seq<Tid>, q: seq<Tid>, c: At, ready': seq<Tid>, q': seq<Tid>, c': At, side: multiset<Tid>,
                       g: multiset<Tid>, l: multiset<Tid>, g': multiset<Tid>, l': multiset<Tid>) {
    && multiset(ready') + (multiset(q') + InHand(c') + Unlisted(c')) + l
       == multiset(ready) + (multiset(q) + InHand(c) + Unlisted(c)) + side + g
    && OnCpu(c') + l' == OnCpu(c) + g'
  }

  /** v's own share of a step, from w to r, adds up. */
  ghost predicate Adds(w: World, r: World, v: int, k: Choice)
    requires CanStep(w, v)
  {
    && |r.vps| == |w.vps|
    && var (p, p') := (w.vps[v], r.vps[v]);
       Sums(w.ready, p.queue, Core(p.at), r.ready, p'.queue, Core(p'.at), AsideLoss(w.vps, v),
            Gain(w, v, k, Ready), Loss(w, v, k, Ready), Gain(w, v, k, Running), Loss(w, v, k, Running))
  }

  lemma CoreSame(a: At, v: int)
    requires Nested(a, v) && (a.Acquire? || a.Release?)
    ensures Core(a.next) == Core(a)
  {
  }

  lemma CoreBody(a: At)
    requires !a.Acquire? && !a.Release?
    ensures Core(a) == a
  {
  }

  /** Outside Run, Dispatch and Make no thread changes its state. */
  lemma NoChange(w: World, v: int, k: Choice, s: State)
    requires CanStep(w, v) && !w.vps[v].at.Run? && !w.vps[v].at.Dispatch? && !w.vps[v].at.Make?
    ensures Gain(w, v, k, s) == multiset{} == Loss(w, v, k, s)
  {
  }

  /** Only a thief in its loop takes from another queue. */
  lemma NoSide(vps: seq<Vp>, v: int)
    requires 0 <= v < |vps| && !vps[v].at.VictimLoop?
    ensures AsideLoss(vps, v) == multiset{}
  {
  }

  ghost predicate SameHands(c: At, c': At) {
    InHand(c') == InHand(c) && Unlisted(c') == Unlisted(c) && OnCpu(c') == OnCpu(c)
  }

  /** Nothing in hand at all. */
  predicate FreeHands(c: At) {
    && !c.Dispatch? && !c.PutBody? && !c.PubBody? && !c.AppendBody? && !c.AddBody? && !c.Run? && !c.GcBody? && !c.Make?
    && (c.VictimLoop? ==> c.chain == [])
  }

  lemma FreeNone(c: At)
    requires FreeHands(c)
    ensures InHand(c) == Unlisted(c) == OnCpu(c) == multiset{}
  {
  }

  lemma FreeSame(c: At, c': At)
    requires FreeHands(c) && FreeHands(c')
    ensures SameHands(c, c')
  {
    FreeNone(c);
    FreeNone(c');
    hide FreeHands, InHand, Unlisted, OnCpu;
  }

  lemma ChainSame(c: At, c': At)
    requires c.VictimLoop? && c'.AppendBody? && c'.chain == c.chain
    ensures SameHands(c, c')
  {
  }

  predicate CpuOnly(c: At, t: Tid) { c == Run(t) || c == GcBody(t) || c == Make(t) }

  lemma CpuOne(c: At, t: Tid)
    requires CpuOnly(c, t)
    ensures InHand(c) == Unlisted(c) == multiset{} && OnCpu(c) == multiset{t}
  {
  }

  lemma CpuSame(c: At, c': At, t: Tid)
    requires CpuOnly(c, t) && CpuOnly(c', t)
    ensures SameHands(c, c')
  {
    CpuOne(c, t);
    CpuOne(c', t);
    hide CpuOnly, InHand, Unlisted, OnCpu;
  }

  lemma SumsSame(ready: seq<Tid>, q: seq<Tid>, c: At, c': At)
    requires SameHands(c, c')
    ensures Sums(ready, q, c, ready, q, c', multiset{}, multiset{}, multiset{}, multiset{}, multiset{})
  {
  }

  lemma LockAdds(w: World, v: int, k: Choice)
    requires CanStep(w, v) && Nested(w.vps[v].at, v) && (w.vps[v].at.Acquire? || w.vps[v].at.Release?)
    ensures Adds(w, Step(w, v, k), v, k)
  {
    CoreSame(w.vps[v].at, v);
    NoChange(w, v, k, Ready);
    NoChange(w, v, k, Running);
    NoSide(w.vps, v);
    hide Sums, Core, Nested, Section, Plain, Gain, Loss, AsideLoss;
    SumsSame(w.ready, w.vps[v].queue, Core(w.vps[v].at), Core(w.vps[v].at));
  }

  lemma VictimAdds(w: World, v: int, k: Choice)
    requires CanStep(w, v) && w.vps[v].at.VictimBody?
    ensures Adds(w, Steal(w, v), v, k)
  {
    var (p, r) := (w.vps[v], Steal(w, v));
    NoChange(w, v, k, Ready);
    NoChange(w, v, k, Running);
    NoSide(w.vps, v);
    CoreBody(p.at);
    var c := Core(r.vps[v].at);
    assert r.ready == w.ready && r.vps[v].queue == p.queue && |r.vps| == |w.vps|;
    assert c.StealNext? || (c.VictimLoop? && c.chain == []);
    FreeSame(p.at, c);
    hide Steal, Gain, Loss, AsideLoss, Core, Sums, SameHands, FreeHands;
    SumsSame(w.ready, p.queue, p.at, c);
  }

  lemma LoopSums(ready: seq<Tid>, q: seq<Tid>, c: At, c': At, t: Tid)
    requires c.VictimLoop? && c'.VictimLoop? && c'.chain == c.chain + [t]
    ensures Sums(ready, q, c, ready, q, c', multiset{t}, multiset{}, multiset{}, multiset{}, multiset{})
  {
    assert multiset(c'.chain) == multiset(c.chain) + multiset{t};
  }

  lemma LoopAdds(w: World, v: int, k: Choice)
    requires CanStep(w, v) && w.vps[v].at.VictimLoop?
    ensures Adds(w, Steal(w, v), v, k)
  {
    var (p, r, a) := (w.vps[v], Steal(w, v), w.vps[v].at);
    NoChange(w, v, k, Ready);
    NoChange(w, v, k, Running);
    CoreBody(a);
    var c := Core(r.vps[v].at);
    assert r.ready == w.ready && r.vps[v].queue == p.queue && |r.vps| == |w.vps|;
    if Aside(w.vps, v).Some? {
      var t := w.vps[a.u].queue[0];
      assert c.VictimLoop? && c.chain == a.chain + [t] && AsideLoss(w.vps, v) == multiset{t};
      hide Steal, Gain, Loss, AsideLoss, Aside, Core, Sums;
      LoopSums(w.ready, p.queue, a, c, t);
    } else {
      assert (a.chain == [] && c.StealNext?) || (c.AppendBody? && c.chain == a.chain);
      assert AsideLoss(w.vps, v) == multiset{};
      if a.chain == [] { FreeSame(a, c); } else { ChainSame(a, c); }
      hide Steal, Gain, Loss, AsideLoss, Aside, Core, Sums, SameHands, FreeHands;
      SumsSame(w.ready, p.queue, a, c);
    }
  }

  lemma AppendSums(ready: seq<Tid>, q: seq<Tid>, c: At)
    requires c.AppendBody?
    ensures Sums(ready, q, c, ready, q + c.chain, DeqBody(true), multiset{}, multiset{}, multiset{}, multiset{}, multiset{})
  {
  }

  lemma AppendAdds(w: World, v: int, k: Choice)
    requires CanStep(w, v) && w.vps[v].at.AppendBody?
    ensures Adds(w, Steal(w, v), v, k)
  {
    var (p, r, a) := (w.vps[v], Steal(w, v), w.vps[v].at);
    NoChange(w, v, k, Ready);
    NoChange(w, v, k, Running);
    NoSide(w.vps, v);
    CoreBody(a);
    assert |r.vps| == |w.vps| && r.ready == w.ready && r.vps[v].queue == p.queue + a.chain && Core(r.vps[v].at) == DeqBody(true);
    hide Steal, Gain, Loss, AsideLoss, Aside, Core, Sums;
    AppendSums(w.ready, p.queue, a);
  }

  // The queues: a thread enters at the tail or leaves at the head.

  lemma HeadSums(ready: seq<Tid>, q: seq<Tid>, c: At)
    requires InHand(c) == Unlisted(c) == OnCpu(c) == multiset{}
    ensures q != [] ==> Sums(ready, q, c, ready, q[1..], Dispatch(q[0]), multiset{}, multiset{}, multiset{}, multiset{}, multiset{})
    ensures ready != [] ==>
      Sums(ready, q, c, ready[1..], q, Dispatch(ready[0]), multiset{}, multiset{}, multiset{}, multiset{}, multiset{})
  {
    if q != [] { QueueHead(q); }
    if ready != [] { QueueHead(ready); }
  }

  lemma PutSums(ready: seq<Tid>, q: seq<Tid>, t: Tid)
    ensures Sums(ready, q, PutBody(t), ready, q + [t], Top, multiset{}, multiset{}, multiset{}, multiset{}, multiset{})
  {
  }

  lemma CreateSums(ready: seq<Tid>, q: seq<Tid>, c: Tid, t: Tid)
    ensures Sums(ready, q, AddBody(c, t), ready, q, PubBody(c, t), multiset{}, multiset{}, multiset{}, multiset{}, multiset{})
    ensures Sums(ready, q, PubBody(c, t), ready + [t], q, Run(c), multiset{}, multiset{}, multiset{}, multiset{}, multiset{})
  {
  }

  /** Local steps with their shares of the books; none changes a state or another queue. */
  ghost predicate Evens(w: World, v: int)
    requires CanStep(w, v)
  {
    var (p, r) := (w.vps[v], Local(w, v));
    && |r.vps| == |w.vps|
    && Sums(w.ready, p.queue, p.at, r.ready, r.vps[v].queue, Core(r.vps[v].at), multiset{}, multiset{}, multiset{}, multiset{},
            multiset{})
  }

  lemma GetAdds(w: World, v: int)
    requires CanStep(w, v) && (w.vps[v].at.DeqBody? || w.vps[v].at.ReadyBody?)
    ensures Evens(w, v)
  {
    var (p, r) := (w.vps[v], Local(w, v));
    var c := Core(r.vps[v].at);
    assert |r.vps| == |w.vps| && FreeHands(p.at);
    hide Sums, InHand, Unlisted, OnCpu;
    FreeNone(p.at);
    if c.Dispatch? {
      HeadSums(w.ready, p.queue, p.at);
    } else {
      assert FreeHands(c) && r.ready == w.ready && r.vps[v].queue == p.queue;
      hide Local;
      FreeSame(p.at, c);
      SumsSame(w.ready, p.queue, p.at, c);
    }
  }

  lemma PutAdds(w: World, v: int)
    requires CanStep(w, v) && w.vps[v].at.PutBody?
    ensures Evens(w, v)
  {
    hide Sums;
    PutSums(w.ready, w.vps[v].queue, w.vps[v].at.t);
  }

  lemma CreateAdds(w: World, v: int)
    requires CanStep(w, v) && (w.vps[v].at.AddBody? || w.vps[v].at.PubBody?)
    ensures Evens(w, v)
  {
    hide Sums;
    CreateSums(w.ready, w.vps[v].queue, w.vps[v].at.c, w.vps[v].at.t);
  }

  lemma LookAdds(w: World, v: int)
    requires CanStep(w, v) && (w.vps[v].at.ScanBody? || w.vps[v].at.ScanAt? || w.vps[v].at.GcBody?)
    ensures Evens(w, v)
  {
    var (p, a, r) := (w.vps[v], w.vps[v].at, Local(w, v));
    var c := Core(r.vps[v].at);
    assert |r.vps| == |w.vps| && r.ready == w.ready && r.vps[v].queue == p.queue;
    assert (FreeHands(a) && FreeHands(c)) || (a.GcBody? && CpuOnly(a, a.c) && CpuOnly(c, a.c));
    hide Local, Core, Sums, FreeHands, CpuOnly, SameHands;
    if a.GcBody? { CpuSame(a, c, a.c); } else { FreeSame(a, c); }
    SumsSame(w.ready, p.queue, a, c);
  }

  lemma LocalAdds(w: World, v: int, k: Choice)
    requires CanStep(w, v) && LockOf(w.vps[v].at, v).Some? && !Stealing(w.vps[v].at)
    ensures Adds(w, Local(w, v), v, k)
  {
    var a := w.vps[v].at;
    NoChange(w, v, k, Ready);
    NoChange(w, v, k, Running);
    NoSide(w.vps, v);
    CoreBody(a);
    hide Gain, Loss, AsideLoss, Aside, Sums, Local, CanStep, Core;
    if a.DeqBody? || a.ReadyBody? {
      GetAdds(w, v);
    } else if a.PutBody? {
      PutAdds(w, v);
    } else if a.AddBody? || a.PubBody? {
      CreateAdds(w, v);
    } else {
      LookAdds(w, v);
    }
  }

  lemma DispatchSums(ready: seq<Tid>, q: seq<Tid>, t: Tid)
    ensures Sums(ready, q, Dispatch(t), ready, q, Run(t), multiset{}, multiset{}, multiset{t}, multiset{t}, multiset{})
  {
  }

  lemma YieldSums(ready: seq<Tid>, q: seq<Tid>, t: Tid)
    ensures Sums(ready, q, Run(t), ready, q, PutBody(t), multiset{}, multiset{t}, multiset{}, multiset{}, multiset{t})
  {
  }

  lemma ExitSums(ready: seq<Tid>, q: seq<Tid>, t: Tid)
    ensures Sums(ready, q, Run(t), ready, q, Top, multiset{}, multiset{}, multiset{}, multiset{}, multiset{t})
  {
  }

  lemma MakeSums(ready: seq<Tid>, q: seq<Tid>, c: Tid, t: Tid)
    ensures Sums(ready, q, Make(c), ready, q, AddBody(c, t), multiset{}, multiset{t}, multiset{}, multiset{}, multiset{})
  {
  }

  lemma MakeAdds(w: World, v: int, k: Choice)
    requires CanStep(w, v) && w.vps[v].at.Make?
    ensures Adds(w, Plain(w, v, k), v, k)
  {
    var (p, a, r) := (w.vps[v], w.vps[v].at, Plain(w, v, k));
    NoSide(w.vps, v);
    CoreBody(a);
    assert |r.vps| == |w.vps| && r.ready == w.ready && r.vps[v].queue == p.queue;
    assert Core(r.vps[v].at) == if k.memory then AddBody(a.c, |w.state|) else Run(a.c);
    hide Sums, Core, AsideLoss, Plain, SameHands;
    if k.memory {
      MakeSums(w.ready, p.queue, a.c, |w.state|);
    } else {
      CpuSame(a, Run(a.c), a.c);
      SumsSame(w.ready, p.queue, a, Run(a.c));
    }
  }

  lemma DispatchAdds(w: World, v: int, k: Choice)
    requires CanStep(w, v) && w.vps[v].at.Dispatch?
    ensures Adds(w, Plain(w, v, k), v, k)
  {
    var (p, a, r) := (w.vps[v], w.vps[v].at, Plain(w, v, k));
    NoSide(w.vps, v);
    CoreBody(a);
    assert |r.vps| == |w.vps| && r.ready == w.ready && r.vps[v].queue == p.queue && Core(r.vps[v].at) == Run(a.t);
    hide Sums, Core, AsideLoss, Plain;
    DispatchSums(w.ready, p.queue, a.t);
  }

  lemma RunAdds(w: World, v: int, k: Choice)
    requires CanStep(w, v) && w.vps[v].at.Run?
    ensures Adds(w, Plain(w, v, k), v, k)
  {
    var (p, a, r) := (w.vps[v], w.vps[v].at, Plain(w, v, k));
    NoSide(w.vps, v);
    CoreBody(a);
    assert |r.vps| == |w.vps| && r.ready == w.ready && r.vps[v].queue == p.queue;
    assert Core(r.vps[v].at) == if k.action.Yield? then PutBody(a.t) else if k.action.Exit? then Top else GcBody(a.t);
    hide Sums, Core, AsideLoss, Plain, SameHands;
    if k.action.Create? {
      CpuSame(a, GcBody(a.t), a.t);
      SumsSame(w.ready, p.queue, a, GcBody(a.t));
    } else if k.action.Yield? {
      YieldSums(w.ready, p.queue, a.t);
    } else {
      ExitSums(w.ready, p.queue, a.t);
    }
  }

  lemma IdleAdds(w: World, v: int, k: Choice)
    requires CanStep(w, v) && LockOf(w.vps[v].at, v).None? && !w.vps[v].at.Acquire? && !w.vps[v].at.Release?
    requires !w.vps[v].at.Dispatch? && !w.vps[v].at.Run? && !w.vps[v].at.Make?
    requires Places(Core(w.vps[v].at), v, |w.vps|)
    ensures Adds(w, Plain(w, v, k), v, k)
  {
    var (p, a, r) := (w.vps[v], w.vps[v].at, Plain(w, v, k));
    NoChange(w, v, k, Ready);
    NoChange(w, v, k, Running);
    NoSide(w.vps, v);
    CoreBody(a);
    assert |r.vps| == |w.vps| && r.ready == w.ready && r.vps[v].queue == p.queue && FreeHands(a) && FreeHands(Core(r.vps[v].at)) by {
      hide Target;
    }
    hide Plain, Sums, Core, AsideLoss, Gain, Loss, SameHands, FreeHands, Places;
    FreeSame(a, Core(r.vps[v].at));
    SumsSame(w.ready, p.queue, a, Core(r.vps[v].at));
  }

  lemma StepAdds(w: World, v: int, k: Choice)
    requires CanStep(w, v) && Nested(w.vps[v].at, v) && Places(Core(w.vps[v].at), v, |w.vps|)
    ensures Adds(w, Step(w, v, k), v, k)
  {
    var a := w.vps[v].at;
    hide Plain, Steal, Local, Adds, Places, Nested, CanStep, LockOf;
    if a.Acquire? || a.Release? {
      LockAdds(w, v, k);
    } else if LockOf(a, v).None? {
      if a.Make? { MakeAdds(w, v, k); } else if a.Dispatch? { DispatchAdds(w, v, k); } else if a.Run? { RunAdds(w, v, k); }
      else { IdleAdds(w, v, k); }
    } else if a.VictimBody? {
      VictimAdds(w, v, k);
    } else if a.VictimLoop? {
      LoopAdds(w, v, k);
    } else if a.AppendBody? {
      AppendAdds(w, v, k);
    } else {
      LocalAdds(w, v, k);
    }
  }

  // ----- no token is lost or doubled -----

  lemma ReadyAlgebra(rd: multiset<Tid>, rd': multiset<Tid>, u: multiset<Tid>, b: multiset<Tid>, u': multiset<Tid>,
                     p: multiset<Tid>, p': multiset<Tid>, d: multiset<Tid>, g: multiset<Tid>, l: multiset<Tid>,
                     o: multiset<Tid>, o': multiset<Tid>)
    requires b + d == u && u' + p == b + p' && rd' + p' + l == rd + p + d + g
    requires rd + u == o && o' + l == o + g
    ensures rd' + u' == o'
  {
    forall x ensures rd'[x] + u'[x] == o'[x] {
      assert b[x] + d[x] == (b + d)[x] == u[x];
      assert u'[x] + p[x] == (u' + p)[x] == b[x] + p'[x];
      assert rd'[x] + p'[x] + l[x] == (rd' + p' + l)[x] == rd[x] + p[x] + d[x] + g[x];
      assert rd[x] + u[x] == (rd + u)[x] == o[x];
      assert o'[x] + l[x] == (o' + l)[x] == o[x] + g[x];
    }
  }

  lemma RunAlgebra(u: multiset<Tid>, u': multiset<Tid>, p: multiset<Tid>, p': multiset<Tid>, g: multiset<Tid>, l: multiset<Tid>,
                   o: multiset<Tid>, o': multiset<Tid>)
    requires u' + p == u + p' && p' + l == p + g && u == o && o' + l == o + g
    ensures u' == o'
  {
    forall x ensures u'[x] == o'[x] {
      assert u'[x] + p[x] == (u' + p)[x] == u[x] + p'[x];
      assert p'[x] + l[x] == (p' + l)[x] == p[x] + g[x];
      assert o'[x] + l[x] == (o' + l)[x] == o[x] + g[x];
    }
  }

  ghost predicate Books(w: World) {
    ReadyBook(w.ready, w.vps, w.state) && RunBook(w.vps, w.state)
  }

  lemma StepReadyBook(w: World, v: int, k: Choice)
    requires CanStep(w, v) && Nested(w.vps[v].at, v) && VpOk(w.vps[v].queue, w.vps[v].count, Core(w.vps[v].at), v, |w.vps|)
    requires Ripe(w, v) && ReadyBook(w.ready, w.vps, w.state)
    ensures var r := Step(w, v, k); ReadyBook(r.ready, r.vps, r.state)
  {
    var r := Step(w, v, k);
    StepShape(w, v, k);
    StepAdds(w, v, k);
    StateMoves(w, v, k, Ready);
    AsideReady(w.vps, v);
    hide Step, CanStep, Nested, VpOk, Ripe, UnionF, Of, InHand, Unlisted, OnCpu, Core, Gain, Loss, AsideLoss, Aside, Beside;
    UnionFUpdate(Beside(w.vps, v), ReadyTokens, v, r.vps[v]);
    BesideSelf(w.vps, v);
    ReadyAlgebra(multiset(w.ready), multiset(r.ready), UnionF(w.vps, ReadyTokens), UnionF(Beside(w.vps, v), ReadyTokens),
      UnionF(r.vps, ReadyTokens), ReadyTokens(w.vps[v]), ReadyTokens(r.vps[v]), AsideLoss(w.vps, v), Gain(w, v, k, Ready),
      Loss(w, v, k, Ready), Of(w.state, Ready), Of(r.state, Ready));
  }

  lemma BesideSelf(vps: seq<Vp>, v: int)
    requires 0 <= v < |vps| && (Aside(vps, v).Some? ==> Aside(vps, v).value.0 != v)
    ensures Beside(vps, v)[v] == vps[v]
  {
  }

  lemma StepRunBook(w: World, v: int, k: Choice)
    requires CanStep(w, v) && Nested(w.vps[v].at, v) && VpOk(w.vps[v].queue, w.vps[v].count, Core(w.vps[v].at), v, |w.vps|)
    requires Ripe(w, v) && RunBook(w.vps, w.state)
    ensures var r := Step(w, v, k); RunBook(r.vps, r.state)
  {
    var r := Step(w, v, k);
    StepShape(w, v, k);
    StepAdds(w, v, k);
    StateMoves(w, v, k, Running);
    AsideReady(w.vps, v);
    hide Step, CanStep, Nested, VpOk, Ripe, UnionF, Of, InHand, Unlisted, OnCpu, Core, Gain, Loss, AsideLoss, Aside, Beside;
    UnionFUpdate(Beside(w.vps, v), RunTokens, v, r.vps[v]);
    BesideSelf(w.vps, v);
    RunAlgebra(UnionF(w.vps, RunTokens), UnionF(r.vps, RunTokens), RunTokens(w.vps[v]), RunTokens(r.vps[v]),
      Gain(w, v, k, Running), Loss(w, v, k, Running), Of(w.state, Running), Of(r.state, Running));
  }

  /** The books say what a thread in hand is. */
  lemma BooksRipe(w: World, v: int)
    requires CanStep(w, v) && Books(w)
    ensures Ripe(w, v)
  {
    var a := w.vps[v].at;
    if a.Dispatch? {
      UnionFOne(w.vps, ReadyTokens, v, a.t);
      OfOnce(w.state, Ready, a.t);
      assert ReadyTokens(w.vps[v])[a.t] >= 1;
      assert (multiset(w.ready) + UnionF(w.vps, ReadyTokens))[a.t] >= 1;
    } else if a.Run? {
      UnionFOne(w.vps, RunTokens, v, a.t);
      OfOnce(w.state, Running, a.t);
      assert RunTokens(w.vps[v])[a.t] >= 1;
    }
  }

  // ----- the global list -----

  /** v has t in hand, not counting a thread it has made and not yet put on the global list. */
  predicate Has(c: At, t: Tid) {
    || ((c.Dispatch? || c.PutBody? || c.PubBody? || c.Run?) && t == c.t)
    || ((c.VictimLoop? || c.AppendBody?) && t in c.chain)
    || ((c.GcBody? || c.Make? || c.AddBody? || c.PubBody?) && t == c.c)
  }

  ghost predicate Within(q: seq<Tid>, list: seq<Tid>) { forall t | t in q :: t in list }

  ghost predicate HandsListed(c: At, list: seq<Tid>) { forall t | Has(c, t) :: t in list }

  /** Every thread that can be reached through a queue or in somebody's hands is on the global list. */
  ghost predicate Listed(ready: seq<Tid>, vps: seq<Vp>, list: seq<Tid>) {
    && Within(ready, list)
    && forall v | 0 <= v < |vps| :: Within(vps[v].queue, list) && HandsListed(Core(vps[v].at), list)
  }

  lemma HasToken(c: At, t: Tid)
    requires Has(c, t)
    ensures t in InHand(c) || t in OnCpu(c)
  {
  }

  /** No finished thread is in a queue or in anybody's hands. */
  lemma TokenLive(w: World, x: int, t: Tid)
    requires Books(w) && 0 <= x < |w.vps| && (t in w.vps[x].queue || Has(Core(w.vps[x].at), t))
    ensures 0 <= t < |w.state| && w.state[t] != Finished
  {
    var p := w.vps[x];
    if Has(Core(p.at), t) { HasToken(Core(p.at), t); }
    hide InHand, OnCpu, Core, Has, Of, UnionF;
    OfOnce(w.state, Ready, t);
    OfOnce(w.state, Running, t);
    UnionFOne(w.vps, ReadyTokens, x, t);
    UnionFOne(w.vps, RunTokens, x, t);
    assert t in RunTokens(p) || t in ReadyTokens(p);
    assert (multiset(w.ready) + UnionF(w.vps, ReadyTokens))[t] >= UnionF(w.vps, ReadyTokens)[t];
  }

  lemma ReadyLive(w: World, t: Tid)
    requires Books(w) && t in w.ready
    ensures 0 <= t < |w.state| && w.state[t] == Ready
  {
    hide InHand, OnCpu, Core, Of, UnionF;
    OfOnce(w.state, Ready, t);
    assert (multiset(w.ready) + UnionF(w.vps, ReadyTokens))[t] >= multiset(w.ready)[t] >= 1;
  }

  /** A list that has lost finished threads only still has everything that can be reached. */
  lemma ListedKeeps(w: World, list: seq<Tid>)
    requires Books(w) && Listed(w.ready, w.vps, w.list)
    requires forall t | t in w.list && !Over(w.state, t) :: t in list
    ensures Listed(w.ready, w.vps, list)
  {
    forall t | t in w.ready ensures t in list { ReadyLive(w, t); }
    forall v, t | 0 <= v < |w.vps| && (t in w.vps[v].queue || Has(Core(w.vps[v].at), t)) ensures t in list {
      TokenLive(w, v, t);
    }
    hide Has, Core, Books;
  }

  lemma {:induction false} SweepKeeps(list: seq<Tid>, state: seq<State>, keep: Tid, t: Tid)
    requires t in list && !Over(state, t)
    ensures t in Sweep(list, state, keep)
  {
    if list[0] != t { SweepKeeps(list[1..], state, keep, t); }
  }

  /** v's own part of Listed, for the list l. */
  ghost predicate OwnListed(r: World, v: int, l: seq<Tid>) {
    0 <= v < |r.vps| && Within(r.ready, l) && Within(r.vps[v].queue, l) && HandsListed(Core(r.vps[v].at), l)
  }

  lemma StealListed(w: World, v: int, l: seq<Tid>)
    requires CanStep(w, v) && Stealing(w.vps[v].at) && Listed(w.ready, w.vps, l)
    ensures OwnListed(Steal(w, v), v, l)
  {
    assert HandsListed(Core(w.vps[v].at), l) && Within(w.vps[v].queue, l);
    if w.vps[v].at.VictimLoop? { assert Within(w.vps[w.vps[v].at.u].queue, l); }
    hide Listed;
  }

  lemma GetListed(w: World, v: int, l: seq<Tid>)
    requires CanStep(w, v) && (w.vps[v].at.DeqBody? || w.vps[v].at.ReadyBody?) && OwnListed(w, v, l)
    ensures OwnListed(Local(w, v), v, l)
  {
  }

  lemma LocalListed(w: World, v: int, l: seq<Tid>)
    requires CanStep(w, v) && LockOf(w.vps[v].at, v).Some? && !Stealing(w.vps[v].at) && OwnListed(w, v, l)
    requires w.vps[v].at.AddBody? ==> w.vps[v].at.t in l
    ensures OwnListed(Local(w, v), v, l)
  {
    if w.vps[v].at.DeqBody? || w.vps[v].at.ReadyBody? {
      GetListed(w, v, l);
      hide Local, OwnListed, CanStep;
    } else {
      var (c, r) := (Core(w.vps[v].at), Local(w, v));
      var c' := Core(r.vps[v].at);
      assert |r.vps| == |w.vps|;
      assert forall t | t in r.ready :: t in w.ready || Has(c, t) by { hide Over, Sweep, OwnListed; }
      assert forall t | t in r.vps[v].queue :: t in w.vps[v].queue || Has(c, t) by { hide Over, Sweep, OwnListed; }
      assert forall t | Has(c', t) :: Has(c, t) || (c.AddBody? && t == c.t && c == w.vps[v].at) by { hide Over, Sweep, OwnListed; }
      hide Local, Core, Has;
    }
  }

  lemma PlainListed(w: World, v: int, k: Choice, l: seq<Tid>)
    requires CanStep(w, v) && LockOf(w.vps[v].at, v).None? && !w.vps[v].at.Acquire? && !w.vps[v].at.Release?
    requires OwnListed(w, v, l) && Places(Core(w.vps[v].at), v, |w.vps|)
    ensures OwnListed(Plain(w, v, k), v, l)
  {
    var (c, r) := (Core(w.vps[v].at), Plain(w, v, k));
    var c' := Core(r.vps[v].at);
    assert |r.vps| == |w.vps| && r.ready == w.ready && r.vps[v].queue == w.vps[v].queue by { hide OwnListed, Target; }
    assert forall t | Has(c', t) :: Has(c, t) by { hide OwnListed, Target; }
    hide Plain, Core, Has, Target;
  }

  /** Only a creator changes the list, under its lock; what leaves it has finished. */
  lemma ListChange(w: World, v: int, k: Choice)
    requires CanStep(w, v)
    ensures var (a, r) := (w.vps[v].at, Step(w, v, k));
      r.list == if a.GcBody? then Sweep(w.list, w.state, a.c) else if a.AddBody? then [a.t] + w.list else w.list
  {
    hide Target, Over, Sweep;
  }

  lemma ListKeeps(w: World, v: int, k: Choice)
    requires CanStep(w, v)
    ensures forall t | t in w.list && !Over(w.state, t) :: t in Step(w, v, k).list
    ensures w.vps[v].at.AddBody? ==> w.vps[v].at.t in Step(w, v, k).list
  {
    ListChange(w, v, k);
    hide Step, Over;
    if w.vps[v].at.GcBody? {
      forall t | t in w.list && !Over(w.state, t) ensures t in Step(w, v, k).list { SweepKeeps(w.list, w.state, w.vps[v].at.c, t); }
    }
  }

  lemma OwnKeepsListed(w: World, v: int, k: Choice, l: seq<Tid>)
    requires CanStep(w, v) && Listed(w.ready, w.vps, l) && Nested(w.vps[v].at, v) && Places(Core(w.vps[v].at), v, |w.vps|)
    requires w.vps[v].at.AddBody? ==> w.vps[v].at.t in l
    ensures OwnListed(Step(w, v, k), v, l)
  {
    var a := w.vps[v].at;
    assert OwnListed(w, v, l);
    if a.Acquire? || a.Release? {
      CoreSame(a, v);
      hide Core, Has, HandsListed;
    } else {
      hide Plain, Steal, Local, OwnListed, Places, Nested, CanStep, Listed;
      if LockOf(a, v).None? { PlainListed(w, v, k, l); } else if Stealing(a) { StealListed(w, v, l); } else { LocalListed(w, v, l); }
    }
  }

  lemma StepListed(w: World, v: int, k: Choice)
    requires CanStep(w, v) && Nested(w.vps[v].at, v) && VpOk(w.vps[v].queue, w.vps[v].count, Core(w.vps[v].at), v, |w.vps|)
    requires Books(w) && Listed(w.ready, w.vps, w.list)
    ensures var r := Step(w, v, k); Listed(r.ready, r.vps, r.list)
  {
    var r := Step(w, v, k);
    ListKeeps(w, v, k);
    ListedKeeps(w, r.list);
    StepShape(w, v, k);
    OwnKeepsListed(w, v, k, r.list);
    hide Step, CanStep, Nested, VpOk, Books, Core, HandsListed, Over;
    forall x | 0 <= x < |r.vps| ensures Within(r.vps[x].queue, r.list) && HandsListed(Core(r.vps[x].at), r.list) {
      if x != v {
        assert r.vps[x].at == w.vps[x].at;
        assert forall t | t in r.vps[x].queue :: t in w.vps[x].queue;
      }
    }
  }

  // ----- nobody is alive -----

  ghost predicate AllOver(state: seq<State>) { forall t | 0 <= t < |state| :: state[t] == Finished }

  /** What has been scanned has finished: FINISHED is stable, and the list cannot grow under the scan. */
  ghost predicate Scanned(vps: seq<Vp>, list: seq<Tid>, state: seq<State>) {
    forall v | 0 <= v < |vps| && vps[v].at.ScanAt? :: forall t | t in list :: t in vps[v].at.rest || Over(state, t)
  }

  predicate Left(c: At) { c.Gone? || c.Stop? || c.Join? || c.Returned? }

  /** Whoever has left the loop, or was told to, left a runtime in which everything had finished. */
  ghost predicate Quiet(vps: seq<Vp>, state: seq<State>) {
    forall v | 0 <= v < |vps| && (Left(Core(vps[v].at)) || !vps[v].running) :: AllOver(state)
  }

  lemma OverStable(w: World, v: int, k: Choice, t: Tid)
    requires CanStep(w, v) && Ripe(w, v) && Over(w.state, t)
    ensures Over(Step(w, v, k).state, t)
  {
    StateChange(w, v, k);
    hide Step;
  }

  lemma AllOverStable(w: World, v: int, k: Choice)
    requires CanStep(w, v) && Books(w) && AllOver(w.state)
    ensures Step(w, v, k).state == w.state
  {
    StateChange(w, v, k);
    var a := w.vps[v].at;
    hide Step;
    if a.Dispatch? || a.Run? || a.Make? {
      var t := if a.Make? then a.c else a.t;
      assert Has(Core(a), t);
      TokenLive(w, v, t);
      assert false;
    }
  }

  /** Everybody alive is listed: in somebody's hands before publication it has a live creator that is. */
  lemma AliveListed(w: World, t: Tid)
    requires Books(w) && Listed(w.ready, w.vps, w.list) && 0 <= t < |w.state| && w.state[t] != Finished
    ensures exists u :: u in w.list && 0 <= u < |w.state| && w.state[u] != Finished
  {
    hide Of, UnionF;
    OfOnce(w.state, Ready, t);
    OfOnce(w.state, Running, t);
    if t in UnionF(w.vps, RunTokens) {
      var v := UnionFWitness(w.vps, RunTokens, t);
      OnCpuHas(Core(w.vps[v].at), t);
    } else {
      assert t in multiset(w.ready) + UnionF(w.vps, ReadyTokens);
      if t !in w.ready {
        var v := UnionFWitness(w.vps, ReadyTokens, t);
        ReadyHas(w, v, t);
      }
    }
  }

  lemma OnCpuHas(c: At, t: Tid)
    requires t in OnCpu(c)
    ensures Has(c, t)
  {
  }

  lemma ReadyHas(w: World, v: int, t: Tid)
    requires Books(w) && Listed(w.ready, w.vps, w.list) && 0 <= v < |w.vps| && t in ReadyTokens(w.vps[v])
    ensures exists u :: (u == t || Has(Core(w.vps[v].at), u)) && u in w.list && 0 <= u < |w.state| && w.state[u] != Finished
  {
    var c := Core(w.vps[v].at);
    assert Within(w.vps[v].queue, w.list) && HandsListed(c, w.list);
    if t in w.vps[v].queue {
      TokenLive(w, v, t);
    } else if c.AddBody? {
      assert Has(c, c.c);
      TokenLive(w, v, c.c);
    } else {
      assert Has(c, t);
      TokenLive(w, v, t);
    }
  }

  /** Nothing but the scan itself leads into the scan. */
  lemma ScanFrom(w: World, v: int, k: Choice)
    requires CanStep(w, v) && Nested(w.vps[v].at, v)
    ensures |Step(w, v, k).vps| == |w.vps|
    ensures Step(w, v, k).vps[v].at.ScanAt? ==> w.vps[v].at.ScanBody? || w.vps[v].at.ScanAt?
  {
    var a := w.vps[v].at;
    hide Steal, Local, Plain, Target, Over, Sweep;
    if LockOf(a, v).Some? {
      if Stealing(a) { StealNoScan(w, v); } else { LocalNoScan(w, v); }
    } else if !a.Acquire? && !a.Release? {
      PlainNoScan(w, v, k);
    }
    hide CanStep, LockOf, Nested;
  }

  lemma StealNoScan(w: World, v: int)
    requires CanStep(w, v) && Stealing(w.vps[v].at)
    ensures |Steal(w, v).vps| == |w.vps| && !Steal(w, v).vps[v].at.ScanAt?
  {
  }

  lemma LocalNoScan(w: World, v: int)
    requires CanStep(w, v) && LockOf(w.vps[v].at, v).Some? && !Stealing(w.vps[v].at)
    ensures |Local(w, v).vps| == |w.vps|
    ensures Local(w, v).vps[v].at.ScanAt? ==> w.vps[v].at.ScanBody? || w.vps[v].at.ScanAt?
  {
    hide Over, Sweep;
  }

  lemma PlainNoScan(w: World, v: int, k: Choice)
    requires CanStep(w, v) && LockOf(w.vps[v].at, v).None? && !w.vps[v].at.Acquire? && !w.vps[v].at.Release?
    ensures |Plain(w, v, k).vps| == |w.vps| && !Plain(w, v, k).vps[v].at.ScanAt?
  {
    hide Target;
  }

  lemma OwnScan(w: World, v: int, k: Choice)
    requires CanStep(w, v) && Nested(w.vps[v].at, v) && Scanned(w.vps, w.list, w.state)
    ensures var r := Step(w, v, k);
      |r.vps| == |w.vps|
      && (r.vps[v].at.ScanAt? ==>
            r.list == w.list && r.state == w.state && forall t | t in w.list :: t in r.vps[v].at.rest || Over(w.state, t))
  {
    var a := w.vps[v].at;
    ScanFrom(w, v, k);
    if a.ScanBody? || a.ScanAt? {
      ScanRound(w, v);
    }
    hide Steal, Local, Plain, Scanned, Over, CanStep, Nested;
  }

  lemma ScanRound(w: World, v: int)
    requires CanStep(w, v) && (w.vps[v].at.ScanBody? || w.vps[v].at.ScanAt?) && Scanned(w.vps, w.list, w.state)
    ensures var r := Local(w, v);
      |r.vps| == |w.vps|
      && (r.vps[v].at.ScanAt? ==>
            r.list == w.list && r.state == w.state && forall t | t in w.list :: t in r.vps[v].at.rest || Over(w.state, t))
  {
    hide Over, Sweep;
    var (a, r) := (w.vps[v].at, Local(w, v));
    if a.ScanAt? && a.rest != [] {
      assert a.rest == [a.rest[0]] + a.rest[1..];
      forall t | t in w.list && r.vps[v].at.ScanAt? ensures t in r.vps[v].at.rest || Over(w.state, t) {
        assert t in a.rest || Over(w.state, t);
      }
    }
  }

  lemma StepScanned(w: World, v: int, k: Choice)
    requires CanStep(w, v) && Locks(w.vps, w.locks) && Ripe(w, v) && Scanned(w.vps, w.list, w.state)
    requires VpOk(w.vps[v].queue, w.vps[v].count, Core(w.vps[v].at), v, |w.vps|)
    ensures var r := Step(w, v, k); Scanned(r.vps, r.list, r.state)
  {
    var r := Step(w, v, k);
    assert Nested(w.vps[v].at, v);
    StepShape(w, v, k);
    OwnScan(w, v, k);
    ListChange(w, v, k);
    hide Step, VpOk, Nested, Over, CanStep, Ripe, Scanned;
    forall x, t | 0 <= x < |r.vps| && r.vps[x].at.ScanAt? && t in r.list ensures t in r.vps[x].at.rest || Over(r.state, t) {
      if x != v {
        assert r.vps[x].at == w.vps[x].at;
        assert Held(w.vps[x].at, x) == Some(ListLock);
        assert r.list == w.list;
        ScannedOf(w, x, t);
        if Over(w.state, t) { OverStable(w, v, k, t); }
      }
    }
    assert Scanned(r.vps, r.list, r.state) by { ScannedAll(r); }
  }

  lemma ScannedOf(w: World, x: int, t: Tid)
    requires Scanned(w.vps, w.list, w.state) && 0 <= x < |w.vps| && w.vps[x].at.ScanAt? && t in w.list
    ensures t in w.vps[x].at.rest || Over(w.state, t)
  {
  }

  lemma ScannedAll(r: World)
    requires forall x, t | 0 <= x < |r.vps| && r.vps[x].at.ScanAt? && t in r.list :: t in r.vps[x].at.rest || Over(r.state, t)
    ensures Scanned(r.vps, r.list, r.state)
  {
  }

  /** The last step of the scan: nothing on the list is alive, so nothing at all is. */
  lemma ScanEnds(w: World, v: int)
    requires CanStep(w, v) && Books(w) && Listed(w.ready, w.vps, w.list) && Scanned(w.vps, w.list, w.state)
    requires w.vps[v].at.ScanAt? && w.vps[v].at.rest == []
    ensures AllOver(w.state)
  {
    hide Books, Listed;
    forall t | 0 <= t < |w.state| ensures w.state[t] == Finished {
      if w.state[t] != Finished { AliveListed(w, t); }
    }
  }

  lemma LeavesHow(w: World, v: int, k: Choice)
    requires CanStep(w, v) && Nested(w.vps[v].at, v) && Left(Core(Step(w, v, k).vps[v].at))
    ensures || Left(Core(w.vps[v].at)) || (w.vps[v].at.Top? && !w.vps[v].running)
            || (w.vps[v].at.ScanAt? && w.vps[v].at.rest == [])
  {
    var a := w.vps[v].at;
    hide Plain, Steal, Local;
    if a.Acquire? || a.Release? {
      CoreSame(a, v);
    } else if LockOf(a, v).None? {
      PlainLeaves(w, v, k);
    } else if Stealing(a) {
      StealLeaves(w, v);
    } else {
      LocalLeaves(w, v);
    }
    hide Core, Left, Nested, CanStep;
  }

  lemma PlainLeaves(w: World, v: int, k: Choice)
    requires CanStep(w, v) && LockOf(w.vps[v].at, v).None? && !w.vps[v].at.Acquire? && !w.vps[v].at.Release?
    ensures |Plain(w, v, k).vps| == |w.vps|
    ensures Left(Core(Plain(w, v, k).vps[v].at)) ==> Left(Core(w.vps[v].at)) || (w.vps[v].at.Top? && !w.vps[v].running)
  {
    hide Target;
  }

  lemma StealLeaves(w: World, v: int)
    requires CanStep(w, v) && Stealing(w.vps[v].at)
    ensures |Steal(w, v).vps| == |w.vps| && !Left(Core(Steal(w, v).vps[v].at))
  {
  }

  lemma LocalLeaves(w: World, v: int)
    requires CanStep(w, v) && LockOf(w.vps[v].at, v).Some? && !Stealing(w.vps[v].at)
    ensures |Local(w, v).vps| == |w.vps|
    ensures Left(Core(Local(w, v).vps[v].at)) ==> w.vps[v].at.ScanAt? && w.vps[v].at.rest == []
  {
    hide Over, Sweep;
  }

  lemma StopsHow(w: World, v: int, k: Choice, x: int)
    requires CanStep(w, v) && Shaped(w.vps, Step(w, v, k).vps, v) && 0 <= x < |w.vps| && !Step(w, v, k).vps[x].running
    ensures !w.vps[x].running || Left(Core(w.vps[v].at))
  {
    if x == v {
      OwnRunning(w, v, k);
    } else {
      hide Step;
    }
  }

  lemma PlainRunning(w: World, v: int, k: Choice)
    requires CanStep(w, v) && LockOf(w.vps[v].at, v).None? && !w.vps[v].at.Acquire? && !w.vps[v].at.Release?
    ensures |Plain(w, v, k).vps| == |w.vps| && (Plain(w, v, k).vps[v].running == w.vps[v].running || w.vps[v].at.Stop?)
  {
    hide Target;
  }

  lemma SectionRunning(w: World, v: int)
    requires CanStep(w, v) && LockOf(w.vps[v].at, v).Some?
    ensures |Section(w, v).vps| == |w.vps| && Section(w, v).vps[v].running == w.vps[v].running
  {
    hide Over, Sweep;
  }

  lemma OwnRunning(w: World, v: int, k: Choice)
    requires CanStep(w, v)
    ensures |Step(w, v, k).vps| == |w.vps| && (Step(w, v, k).vps[v].running == w.vps[v].running || Left(Core(w.vps[v].at)))
  {
    var a := w.vps[v].at;
    hide Plain, Section;
    if !a.Acquire? && !a.Release? {
      CoreBody(a);
      if LockOf(a, v).Some? { SectionRunning(w, v); } else { PlainRunning(w, v, k); }
    }
    hide Core, CanStep, LockOf;
  }

  lemma StepQuiet(w: World, v: int, k: Choice)
    requires CanStep(w, v) && Books(w) && Nested(w.vps[v].at, v)
    requires VpOk(w.vps[v].queue, w.vps[v].count, Core(w.vps[v].at), v, |w.vps|)
    requires Listed(w.ready, w.vps, w.list) && Scanned(w.vps, w.list, w.state) && Quiet(w.vps, w.state)
    ensures var r := Step(w, v, k); Quiet(r.vps, r.state)
  {
    var r := Step(w, v, k);
    StepShape(w, v, k);
    forall x | 0 <= x < |r.vps| && (Left(Core(r.vps[x].at)) || !r.vps[x].running) ensures AllOver(r.state) {
      WasOver(w, v, k, x);
      AllOverStable(w, v, k);
    }
  }

  lemma WasOver(w: World, v: int, k: Choice, x: int)
    requires CanStep(w, v) && Books(w) && Nested(w.vps[v].at, v) && Shaped(w.vps, Step(w, v, k).vps, v)
    requires Listed(w.ready, w.vps, w.list) && Scanned(w.vps, w.list, w.state) && Quiet(w.vps, w.state)
    requires 0 <= x < |w.vps| && (Left(Core(Step(w, v, k).vps[x].at)) || !Step(w, v, k).vps[x].running)
    ensures AllOver(w.state)
  {
    if !Step(w, v, k).vps[x].running { StopsHow(w, v, k, x); }
    hide Books, Listed, Scanned, Nested, AllOver;
    if x == v {
      if Left(Core(Step(w, v, k).vps[v].at)) { LeavesHow(w, v, k); }
      if w.vps[v].at.ScanAt? && w.vps[v].at.rest == [] { ScanEnds(w, v); }
    }
    hide Step, CanStep, Core, Left;
    assert x != v ==> Step(w, v, k).vps[x].at == w.vps[x].at;
  }

  lemma {:induction false} SweepIs(list: seq<Tid>, state: seq<State>, keep: Tid, t: Tid)
    ensures t in Sweep(list, state, keep) <==> t in list && (!Over(state, t) || t == keep)
  {
    if list != [] {
      SweepIs(list[1..], state, keep, t);
      assert list == [list[0]] + list[1..];
    }
  }

  /** The collection of a creating thread takes exactly the finished threads other than itself off the list. */
  lemma CollectsFinished(w: World, v: int, k: Choice, t: Tid)
    requires CanStep(w, v) && w.vps[v].at.GcBody?
    ensures t in Step(w, v, k).list <==> t in w.list && (!Over(w.state, t) || t == w.vps[v].at.c)
  {
    ListChange(w, v, k);
    hide Step, CanStep, Sweep, Over;
    SweepIs(w.list, w.state, w.vps[v].at.c, t);
  }

  // ----- the list names threads, and everybody is joined -----

  /** Only threads that exist are on the global list and in a scan. */
  ghost predicate Ranged(vps: seq<Vp>, list: seq<Tid>, state: seq<State>) {
    && InRange(list, state)
    && forall v | 0 <= v < |vps| && vps[v].at.ScanAt? :: InRange(vps[v].at.rest, state)
  }

  ghost predicate InRange(list: seq<Tid>, state: seq<State>) { forall t | t in list :: 0 <= t < |state| }

  lemma MadeInRange(w: World, v: int)
    requires Books(w) && 0 <= v < |w.vps| && w.vps[v].at.AddBody?
    ensures 0 <= w.vps[v].at.t < |w.state|
  {
    var (p, t) := (w.vps[v], w.vps[v].at.t);
    CoreBody(p.at);
    assert t in ReadyTokens(p);
    hide Of, UnionF, ReadyTokens, RunTokens, Core;
    OfOnce(w.state, Ready, t);
    UnionFOne(w.vps, ReadyTokens, v, t);
    assert (multiset(w.ready) + UnionF(w.vps, ReadyTokens))[t] >= UnionF(w.vps, ReadyTokens)[t];
  }

  /** A step into or inside a scan changes no thread's state. */
  lemma ScanStays(w: World, v: int, k: Choice)
    requires CanStep(w, v) && (w.vps[v].at.ScanBody? || w.vps[v].at.ScanAt?)
    ensures Step(w, v, k) == Local(w, v)
  {
  }

  lemma ScanInRange(w: World, v: int)
    requires CanStep(w, v) && (w.vps[v].at.ScanBody? || w.vps[v].at.ScanAt?) && Ranged(w.vps, w.list, w.state)
    ensures var a := Local(w, v).vps[v].at; a.ScanAt? ==> InRange(a.rest, w.state)
  {
    hide Over, Sweep;
    var a := w.vps[v].at;
    if a.ScanAt? { assert forall t | a.rest != [] && t in a.rest[1..] :: t in a.rest; }
  }

  lemma ListInRange(w: World, v: int, k: Choice)
    requires CanStep(w, v) && Books(w) && InRange(w.list, w.state)
    ensures InRange(Step(w, v, k).list, Step(w, v, k).state) && |w.state| <= |Step(w, v, k).state|
  {
    ListChange(w, v, k);
    StateChange(w, v, k);
    if w.vps[v].at.AddBody? { MadeInRange(w, v); }
    hide Step, Books, Over, CanStep;
  }

  lemma StepRanged(w: World, v: int, k: Choice)
    requires CanStep(w, v) && Books(w) && Nested(w.vps[v].at, v) && Ranged(w.vps, w.list, w.state)
    requires VpOk(w.vps[v].queue, w.vps[v].count, Core(w.vps[v].at), v, |w.vps|)
    ensures var r := Step(w, v, k); Ranged(r.vps, r.list, r.state)
  {
    var (a, r) := (w.vps[v].at, Step(w, v, k));
    hide Steal, Local, Plain, Sweep, Over, Books, VpOk, Nested;
    StepShape(w, v, k);
    ListInRange(w, v, k);
    ScanFrom(w, v, k);
    if a.ScanBody? || a.ScanAt? { ScanInRange(w, v); }
    if r.vps[v].at.ScanAt? { ScanStays(w, v, k); }
    forall x | 0 <= x < |r.vps| && r.vps[x].at.ScanAt? ensures InRange(r.vps[x].at.rest, r.state) {
      if x != v { assert r.vps[x].at == w.vps[x].at && InRange(w.vps[x].at.rest, w.state); }
    }
  }

  /** How far uthread_mn_run has come in stopping and joining the other virtual processors. */
  ghost predicate Joined(vps: seq<Vp>) {
    vps != [] ==>
      && (vps[0].at.Stop? || vps[0].at.Join? ==> forall x | 0 < x < vps[0].at.i && x < |vps| :: vps[x].at.Gone? && !vps[x].running)
      && (vps[0].at.Join? && 0 < vps[0].at.i < |vps| ==> !vps[vps[0].at.i].running)
      && (vps[0].at.Returned? ==> forall x | 0 < x < |vps| :: vps[x].at.Gone? && !vps[x].running)
  }

  lemma RunningFalls(w: World, v: int, k: Choice, x: int)
    requires CanStep(w, v) && VpOk(w.vps[v].queue, w.vps[v].count, Core(w.vps[v].at), v, |w.vps|) && Nested(w.vps[v].at, v)
    requires 0 < x < |w.vps| && !w.vps[x].running
    ensures |Step(w, v, k).vps| == |w.vps| && !Step(w, v, k).vps[x].running
  {
    StepShape(w, v, k);
    var a := w.vps[v].at;
    if x == v {
      if a.Acquire? || a.Release? {
      } else if LockOf(a, v).Some? {
        SectionRunning(w, v);
      } else {
        CoreBody(a);
        PlainRunning(w, v, k);
      }
    }
    hide Section, Plain, VpOk, Nested, LockOf;
  }

  /** Who has left, and is not the first, makes no more step. */
  lemma GoneStays(w: World, v: int, k: Choice, x: int)
    requires CanStep(w, v) && VpOk(w.vps[v].queue, w.vps[v].count, Core(w.vps[v].at), v, |w.vps|)
    requires 0 < x < |w.vps| && w.vps[x].at.Gone?
    ensures |Step(w, v, k).vps| == |w.vps| && Step(w, v, k).vps[x].at.Gone?
  {
    StepShape(w, v, k);
    assert x != v;
    hide Step, CanStep, VpOk;
  }

  /** How the first virtual processor goes through the joining. */
  lemma FirstJoins(w: World, k: Choice)
    requires CanStep(w, 0) && Nested(w.vps[0].at, 0)
    ensures var (a, r) := (w.vps[0].at, Step(w, 0, k));
      && |r.vps| == |w.vps|
      && (r.vps[0].at.Stop? ==> (a.Gone? && r.vps[0].at.i == 1) || (a.Join? && r.vps[0].at.i == a.i + 1 && w.vps[a.i].at.Gone?))
      && (r.vps[0].at.Join? ==> a.Stop? && r.vps[0].at.i == a.i && 0 < a.i < |w.vps| && !r.vps[a.i].running)
      && (r.vps[0].at.Returned? ==> a.Stop? && !(0 < a.i < |w.vps|))
  {
    var a := w.vps[0].at;
    if LockOf(a, 0).Some? {
      if Stealing(a) { StealNoJoin(w, 0); } else { LocalNoJoin(w, 0); }
    }
    hide Steal, Local, Target, States;
  }

  lemma StealNoJoin(w: World, v: int)
    requires CanStep(w, v) && Stealing(w.vps[v].at)
    ensures |Steal(w, v).vps| == |w.vps|
    ensures var a := Steal(w, v).vps[v].at; !a.Stop? && !a.Join? && !a.Returned?
  {
  }

  lemma LocalNoJoin(w: World, v: int)
    requires CanStep(w, v) && LockOf(w.vps[v].at, v).Some? && !Stealing(w.vps[v].at)
    ensures |Local(w, v).vps| == |w.vps|
    ensures var a := Local(w, v).vps[v].at; !a.Stop? && !a.Join? && !a.Returned?
  {
    hide Over, Sweep;
  }

  lemma StepJoined(w: World, v: int, k: Choice)
    requires CanStep(w, v) && Nested(w.vps[v].at, v) && VpOk(w.vps[v].queue, w.vps[v].count, Core(w.vps[v].at), v, |w.vps|)
    requires Joined(w.vps)
    ensures Joined(Step(w, v, k).vps)
  {
    var (a, r) := (w.vps[v].at, Step(w, v, k));
    StepShape(w, v, k);
    forall x | 0 < x < |w.vps| && !w.vps[x].running ensures !r.vps[x].running { RunningFalls(w, v, k, x); }
    forall x | 0 < x < |w.vps| && w.vps[x].at.Gone? ensures r.vps[x].at.Gone? { GoneStays(w, v, k, x); }
    if a.Stop? { CoreBody(a); }
    if v == 0 { FirstJoins(w, k); } else { assert r.vps[0].at == w.vps[0].at; }
    hide Step, VpOk, Nested, CanStep, Beside;
  }

  // ----- every run -----

  ghost predicate Inv(w: World) {
    && Locks(w.vps, w.locks) && AllOk(w.vps) && Loot(w.vps) && Books(w) && Listed(w.ready, w.vps, w.list)
    && Scanned(w.vps, w.list, w.state) && Quiet(w.vps, w.state) && Ranged(w.vps, w.list, w.state) && Joined(w.vps)
  }

  /** Every step of every virtual processor, in every interleaving, keeps the invariant. */
  lemma StepKeeps(w: World, v: int, k: Choice)
    requires Inv(w) && CanStep(w, v)
    ensures Inv(Step(w, v, k))
  {
    assert Nested(w.vps[v].at, v) && VpOk(w.vps[v].queue, w.vps[v].count, Core(w.vps[v].at), v, |w.vps|);
    hide Step, CanStep, Nested, VpOk, Locks, AllOk, Loot, ReadyBook, RunBook, Listed, Scanned, Quiet, Ranged, Joined, Core;
    StepRanged(w, v, k);
    StepJoined(w, v, k);
    BooksRipe(w, v);
    StepLocks(w, v, k);
    StepOk(w, v, k);
    StepLoot(w, v, k);
    StepReadyBook(w, v, k);
    StepRunBook(w, v, k);
    StepListed(w, v, k);
    StepScanned(w, v, k);
    StepQuiet(w, v, k);
  }

  /** A virtual processor that has just been set up. */
  const IDLE := Vp([], 0, true, Top)

  lemma IdleTokens()
    ensures ReadyTokens(IDLE) == multiset{} == RunTokens(IDLE)
  {
    FreeNone(Top);
    hide InHand, Unlisted, OnCpu;
  }

  lemma InitBooks(w: World, k: nat)
    requires w.ready == seq(k, i => i) && w.state == seq(k, _ => Ready)
    requires forall v | 0 <= v < |w.vps| :: w.vps[v] == IDLE
    ensures Books(w)
  {
    hide UnionF, Of;
    IdleTokens();
    hide ReadyTokens, RunTokens;
    NoTokens(w.vps, ReadyTokens);
    NoTokens(w.vps, RunTokens);
    InitReady(k);
    InitRunning(k);
  }

  lemma InitLocal(w: World)
    requires forall v | 0 <= v < |w.vps| :: w.vps[v] == IDLE
    requires w.locks == map[] && Within(w.ready, w.list)
    ensures Locks(w.vps, w.locks) && AllOk(w.vps) && Loot(w.vps) && Listed(w.ready, w.vps, w.list)
    ensures Scanned(w.vps, w.list, w.state) && Quiet(w.vps, w.state) && Joined(w.vps)
  {
  }

  lemma {:induction false} NoTokens(q: seq<Vp>, f: Vp -> multiset<Tid>)
    requires forall i | 0 <= i < |q| :: f(q[i]) == multiset{}
    ensures UnionF(q, f) == multiset{}
  {
    if q != [] {
      forall i | 0 <= i < |q[1..]| ensures f(q[1..][i]) == multiset{} { assert q[1..][i] == q[i + 1]; }
      NoTokens(q[1..], f);
    }
  }

  lemma {:induction false} InitReady(k: nat)
    ensures multiset(seq(k, i => i)) == Of(seq(k, _ => Ready), Ready)
  {
    if k > 0 {
      InitReady(k - 1);
      assert seq(k, i => i) == seq(k - 1, i => i) + [k - 1];
      assert seq(k, _ => Ready)[..k - 1] == seq(k - 1, _ => Ready);
    }
  }

  lemma {:induction false} InitRunning(k: nat)
    ensures Of(seq(k, _ => Ready), Running) == multiset{}
  {
    if k > 0 {
      InitRunning(k - 1);
      assert seq(k, _ => Ready)[..k - 1] == seq(k - 1, _ => Ready);
    }
  }

  lemma InitKeeps(n: nat, k: nat)
    ensures Inv(Init(n, k))
  {
    hide Books, Locks, AllOk, Loot, Listed, Scanned, Quiet, Joined;
    var w := Init(n, k);
    forall t | t in w.ready ensures t in w.list { assert w.list[k - 1 - t] == t; }
    InitBooks(w, k);
    InitLocal(w);
    assert Ranged(w.vps, w.list, w.state) by {
      forall t | t in w.list ensures 0 <= t < |w.state| { }
    }
  }

  ghost predicate Next(w: World, w': World) { exists v, k :: CanStep(w, v) && w' == Step(w, v, k) }

  /** A run from any state that satisfies the invariant, with threads spread over the queues in any way. */
  ghost predicate IsRun(ws: seq<World>) {
    |ws| > 0 && Inv(ws[0]) && forall i, j | 0 <= i && j == i + 1 < |ws| :: Next(ws[i], ws[j])
  }

  /** One of the program's own runs: n virtual processors start over k threads created beforehand. */
  ghost predicate Started(ws: seq<World>, n: nat, k: nat) {
    |ws| > 0 && ws[0] == Init(n, k) && forall i, j | 0 <= i && j == i + 1 < |ws| :: Next(ws[i], ws[j])
  }

  lemma StartedRuns(ws: seq<World>, n: nat, k: nat)
    requires Started(ws, n, k)
    ensures IsRun(ws) && |ws[0].vps| == n
  {
    hide Inv, Next;
    InitKeeps(n, k);
  }

  lemma {:induction false} RunKeeps(ws: seq<World>, i: nat)
    requires IsRun(ws) && i < |ws|
    ensures Inv(ws[i])
    decreases i
  {
    hide Inv, CanStep, Step;
    if i > 0 {
      RunKeeps(ws, i - 1);
      assert Next(ws[i - 1], ws[i]);
      var v, c :| CanStep(ws[i - 1], v) && ws[i] == Step(ws[i - 1], v, c);
      StepKeeps(ws[i - 1], v, c);
    }
  }

  /** Token conservation: in every state of every run each thread that has not finished is in exactly one
      place (the shared queue, one local queue, one chain in transit, one virtual processor's hands), and a
      finished one in none. */
  lemma OnePlaceEach(ws: seq<World>, i: nat, t: Tid)
    requires IsRun(ws) && i < |ws|
    ensures var w := ws[i];
      multiset(w.ready)[t] + UnionF(w.vps, ReadyTokens)[t] + UnionF(w.vps, RunTokens)[t]
        == if 0 <= t < |w.state| && w.state[t] != Finished then 1 else 0
  {
    RunKeeps(ws, i);
    var w := ws[i];
    assert Books(w);
    hide Inv, IsRun, UnionF, Of, ReadyTokens, RunTokens;
    OfOnce(w.state, Ready, t);
    OfOnce(w.state, Running, t);
    assert (multiset(w.ready) + UnionF(w.vps, ReadyTokens))[t] == multiset(w.ready)[t] + UnionF(w.vps, ReadyTokens)[t];
  }

  /** A completed theft returns a thread: when the thief comes to the vp_dequeue that ends try_steal, its
      queue is not empty, whatever other thieves have done since the append. */
  lemma StealReturns(ws: seq<World>, i: nat, v: int, c: Choice)
    requires IsRun(ws) && i < |ws| && CanStep(ws[i], v) && ws[i].vps[v].at == DeqBody(true)
    ensures ws[i].vps[v].queue != []
    ensures Step(ws[i], v, c).vps[v].at == Release(QueueLock(v), Dispatch(ws[i].vps[v].queue[0]))
  {
    RunKeeps(ws, i);
    var p := ws[i].vps[v];
    assert VpOk(p.queue, p.count, Core(p.at), v, |ws[i].vps|);
    hide Inv, IsRun;
  }

  /** The two-pointer theft takes exactly the first half of the victim's queue, in order, and leaves the
      rest, in order and not empty; the early break is never taken; the victim has just the rest when its lock
      is given back; and the thief appends the chain to an empty queue. Both counts stay equal to the lengths. */
  lemma StealsHalf(ws: seq<World>, i: nat, v: int)
    requires IsRun(ws) && i < |ws| && 0 <= v < |ws[i].vps|
    ensures var (w, a) := (ws[i], ws[i].vps[v].at); var c := Core(a);
      && w.vps[v].count == |w.vps[v].queue|
      && (a.VictimLoop? ==>
            && a.u < |w.vps| && a.u != v && a.n == |a.was| / 2 && |a.chain| <= a.n < |a.was|
            && a.chain == a.was[..|a.chain|] && w.vps[a.u].queue == a.was[|a.chain|..] && w.vps[a.u].queue != [])
      && (c.AppendBody? ==> w.vps[v].queue == [] && |c.was| >= 2 && c.n == |c.was| / 2 && c.chain == c.was[..c.n])
      && (c.AppendBody? && a.Release? && a.l.QueueLock? && 0 <= a.l.u < |w.vps| ==> w.vps[a.l.u].queue == c.was[c.n..])
  {
    RunKeeps(ws, i);
    var (w, p, a) := (ws[i], ws[i].vps[v], ws[i].vps[v].at);
    assert VpOk(p.queue, p.count, Core(a), v, |w.vps|) && LootAt(w.vps, a);
    hide Inv, IsRun;
  }

  /** When the loop is through, the chain is the first half and the victim, whose lock is given back, has the rest. */
  lemma LoopEnds(ws: seq<World>, i: nat, v: int, k: Choice)
    requires IsRun(ws) && i < |ws| && CanStep(ws[i], v) && ws[i].vps[v].at.VictimLoop?
    requires |ws[i].vps[v].at.chain| == ws[i].vps[v].at.n
    ensures var (a, r) := (ws[i].vps[v].at, Step(ws[i], v, k)); var h := |a.was| / 2;
      && |r.vps| == |ws[i].vps| && r.vps[a.u].queue == a.was[h..] != []
      && r.vps[v].at == Release(QueueLock(a.u), Acquire(QueueLock(v), AppendBody(h, a.was[..h], a.was)))
  {
    StealsHalf(ws, i, v);
    assert ws[i].vps[v].at.n >= 1 by { LoopTwo(ws, i, v); }
    hide Inv, IsRun;
  }

  lemma LoopTwo(ws: seq<World>, i: nat, v: int)
    requires IsRun(ws) && i < |ws| && 0 <= v < |ws[i].vps| && ws[i].vps[v].at.VictimLoop?
    ensures |ws[i].vps[v].at.was| >= 2 && ws[i].vps[v].at.n == |ws[i].vps[v].at.was| / 2
  {
    RunKeeps(ws, i);
    var p := ws[i].vps[v];
    CoreBody(p.at);
    assert VpOk(p.queue, p.count, Core(p.at), v, |ws[i].vps|);
    hide Inv, IsRun, Core;
  }

  /** The append gives the thief exactly the first half, and the vp_dequeue after it comes to that queue with
      what other thieves have left of it. */
  lemma AppendsHalf(ws: seq<World>, i: nat, v: int, k: Choice)
    requires IsRun(ws) && i < |ws| && CanStep(ws[i], v) && ws[i].vps[v].at.AppendBody?
    ensures var (was, p) := (ws[i].vps[v].at.was, Step(ws[i], v, k).vps[v]);
      && p.queue == was[..|was| / 2] != [] && p.count == |was| / 2
      && p.at == Release(QueueLock(v), Acquire(QueueLock(v), DeqBody(true)))
  {
    StealsHalf(ws, i, v);
    hide Inv, IsRun;
  }

  /** Nobody holds two spinlocks, each lock has at most one holder, and the holder of a lock never waits
      for another: it has a next step. So no cycle of waiting virtual processors exists. */
  lemma NoLockCycle(ws: seq<World>, i: nat, l: LockId)
    requires IsRun(ws) && i < |ws| && l in ws[i].locks
    ensures var v := ws[i].locks[l];
      && CanStep(ws[i], v) && forall m | m in ws[i].locks && ws[i].locks[m] == v :: m == l
  {
    RunKeeps(ws, i);
    hide Inv, IsRun;
    HolderSteps(ws[i], l);
  }

  lemma HolderHas(vps: seq<Vp>, locks: map<LockId, int>, l: LockId)
    requires Locks(vps, locks) && l in locks
    ensures var v := locks[l];
      0 <= v < |vps| && Held(vps[v].at, v) == Some(l) && forall m | m in locks && locks[m] == v :: m == l
  {
    hide Nested, Held;
  }

  lemma HolderMoves(w: World, v: int)
    requires 0 <= v < |w.vps| && Held(w.vps[v].at, v).Some? && Places(Core(w.vps[v].at), v, |w.vps|)
    ensures CanStep(w, v)
  {
  }

  lemma HolderSteps(w: World, l: LockId)
    requires Inv(w) && l in w.locks
    ensures var v := w.locks[l]; CanStep(w, v) && forall m | m in w.locks && w.locks[m] == v :: m == l
  {
    HolderHas(w.vps, w.locks, l);
    var (v, p) := (w.locks[l], w.vps[w.locks[l]]);
    assert VpOk(p.queue, p.count, Core(p.at), v, |w.vps|);
    hide Locks, AllOk, Loot, Books, Listed, Scanned, Quiet, Core, ChainOk, Starved, Stocked, CanStep, Held, Places;
    HolderMoves(w, v);
  }

  /** uthread_mn_run returns only when everything is over: once virtual processor 0 has left its loop,
      every thread ever created, also by running threads, has finished, and the shared queue is empty. */
  lemma QuiescenceSound(ws: seq<World>, i: nat)
    requires IsRun(ws) && i < |ws| && 0 < |ws[0].vps|
    ensures |ws[i].vps| == |ws[0].vps|
    ensures Left(Core(ws[i].vps[0].at)) ==> AllOver(ws[i].state) && |ws[i].ready| == 0
  {
    RunKeeps(ws, i);
    RunSize(ws, i);
    var w := ws[i];
    if Left(Core(w.vps[0].at)) {
      hide IsRun, Locks, AllOk, Loot, Listed, Scanned;
      if w.ready != [] { ReadyLive(w, w.ready[0]); }
    }
  }

  /** And it stays so: once everything is over, no thread changes state and none is created any more. */
  lemma {:induction false} OverForGood(ws: seq<World>, i: nat, j: nat)
    requires IsRun(ws) && i <= j < |ws| && AllOver(ws[i].state)
    ensures ws[j].state == ws[i].state
    decreases j
  {
    hide Inv, AllOver, Next;
    if i < j {
      OverForGood(ws, i, j - 1);
      RunKeeps(ws, j - 1);
      OverStep(ws[j - 1], ws[j]);
    }
  }

  lemma OverStep(w: World, w': World)
    requires Inv(w) && Next(w, w') && AllOver(w.state)
    ensures w'.state == w.state
  {
    hide Locks, AllOk, Loot, ReadyBook, RunBook, Listed, Scanned, Quiet, AllOver, CanStep, Step;
    var v, c :| CanStep(w, v) && w' == Step(w, v, c);
    AllOverStable(w, v, c);
  }

  lemma {:induction false} RunSize(ws: seq<World>, i: nat)
    requires IsRun(ws) && i < |ws|
    ensures |ws[i].vps| == |ws[0].vps|
    decreases i
  {
    if i > 0 {
      RunSize(ws, i - 1);
      RunKeeps(ws, i - 1);
      assert Next(ws[i - 1], ws[i]);
      var v, c :| CanStep(ws[i - 1], v) && ws[i] == Step(ws[i - 1], v, c);
      var p := ws[i - 1].vps[v];
      assert VpOk(p.queue, p.count, Core(p.at), v, |ws[i - 1].vps|);
      hide Inv, Step, CanStep, VpOk;
      StepShape(ws[i - 1], v, c);
    }
  }

  /** A virtual processor without a next step spins on a lock that another one holds, or waits for one to
      return, or has returned. */
  lemma WhoWaits(ws: seq<World>, i: nat, v: int)
    requires IsRun(ws) && i < |ws| && 0 <= v < |ws[i].vps| && !CanStep(ws[i], v)
    ensures var (w, a) := (ws[i], ws[i].vps[v].at);
      || (a.Acquire? && a.l in w.locks && w.locks[a.l] != v)
      || (a.Join? && v == 0 && a.i < |w.vps| && !w.vps[a.i].at.Gone?) || (a.Gone? && v != 0) || a.Returned?
  {
    RunKeeps(ws, i);
    var (w, p, a) := (ws[i], ws[i].vps[v], ws[i].vps[v].at);
    assert VpOk(p.queue, p.count, Core(a), v, |w.vps|);
    assert Nested(a, v);
    CoreBody(if a.Acquire? || a.Release? then Top else a);
    if a.Dispatch? || a.Run? { TokenLive(w, v, a.t); }
    hide IsRun, AllOk, Loot, Books, Listed, Scanned, Quiet;
  }

  /** Going round from any start, a thief looks at every other virtual processor exactly once. */
  lemma VisitsOnce(start: nat, n: nat, u: nat)
    requires u < n
    ensures exists i: nat :: i < n && Target(start, i, n) == u && forall j: nat | j < n && Target(start, j, n) == u :: j == i
  {
    var (q, r) := (start / n, start % n);
    var i := if u >= r then u - r else u + n - r;
    assert start == n * q + r;
    if u >= r {
      DivUnique(start + i, n, q, u);
    } else {
      assert n * (q + 1) == n * q + n;
      DivUnique(start + i, n, q + 1, u);
    }
    assert Target(start, i, n) == u;
    forall j: nat | j < n && Target(start, j, n) == u ensures j == i {
      if j < i { ModDistinct(start + j, start + i, n); }
      if i < j { ModDistinct(start + i, start + j, n); }
    }
  }
}
