/** tests/test_semaphore.c for any number of producers, consumers, slots and items. The buffer with its
    two semaphores and its mutex is the channel protocol; the shared item counter and the consumption
    counter have a mutex each, and are read and written in separate steps. */
module BoundedBuffer {
  import opened Basics
  import opened WaitObjects
  import C = Channel

  /** What a worker is doing; made counts a producer's finished iterations. A producer is done at
      Produce(quota), a consumer when it is Gone. */
  datatype Work =
    | Produce(made: nat) | ItemQueued(made: nat) | ItemOwn(made: nat) | ItemRead(made: nat, x: int)
    | ItemHeld(made: nat, x: int) | Deliver(made: nat)
    | Ask | AskQueued | AskOwn | AskLoad | AskStore(x: int) | AskTaken | AskQuit
    | Taking | Posting(x: int) | Gone

  /** Workers 0 .. producers - 1 produce `quota` items each, the others consume. next is next_item,
      count is consume_count; consumed logs the stores into consumed[]. */
  datatype World = World(producers: nat, quota: nat, total: nat, chan: C.Chan, next: int, count: int,
                         items: Mutex<int>, counts: Mutex<int>, work: seq<Work>, consumed: seq<int>)

  function Init(producers: nat, consumers: nat, quota: nat, total: nat, slots: nat, buffer: seq<int>): World
    requires 0 < slots <= |buffer|
  {
    World(producers, quota, total, C.Fresh(slots, buffer, producers + consumers), 0, 0, NewMutex(), NewMutex(),
          seq(producers + consumers, i => if i < producers then Produce(0) else Ask), [])
  }

  function Woken(x: Work): Work {
    match x
    case ItemQueued(m) => ItemOwn(m)
    case AskQueued => AskOwn
    case _ => x
  }

  function WakeHead(work: seq<Work>, q: seq<int>): (r: seq<Work>)
    ensures |r| == |work|
  {
    if q != [] && 0 <= q[0] < |work| then work[q[0] := Woken(work[q[0]])] else work
  }

  ghost predicate Shape(w: World) { C.Sizes(w.chan) && |w.work| == |w.chan.pc| }

  /** Worker t has a next step. */
  ghost predicate CanStep(w: World, t: int) {
    && Shape(w) && 0 <= t < |w.work|
    && var (x, p) := (w.work[t], w.chan.pc[t]);
       !x.ItemQueued? && !x.AskQueued? && !x.Gone?
       && (x.Produce? ==> x.made < w.quota)
       && ((x.ItemHeld? || x.AskTaken?) ==> p.Idle?)
       && (x.Deliver? ==> p.Idle? || C.CanStep(w.chan, t))
       && (x.Taking? ==> C.CanStep(w.chan, t))
       && (x.Posting? ==> p.Returned? || C.CanStep(w.chan, t))
  }

  /** That step. */
  function Apply(w: World, t: int): World
    requires CanStep(w, t)
  {
    var (work, p) := (w.work, w.chan.pc[t]);
    match work[t]
    case Produce(m) =>
      w.(items := LockMutex(w.items, t), work := work[t := if w.items.locked then ItemQueued(m) else ItemOwn(m)])
    case ItemOwn(m) => w.(work := work[t := ItemRead(m, w.next)])
    case ItemRead(m, x) => w.(next := x + 1, work := work[t := ItemHeld(m, x)])
    case ItemHeld(m, x) =>
      w.(items := UnlockMutex(w.items), work := WakeHead(work, w.items.waiters)[t := Deliver(m)],
         chan := C.Begin(w.chan, t, C.SendWait(x)))
    case Deliver(m) =>
      if p.Idle? then w.(work := work[t := Produce(m + 1)]) else w.(chan := C.Step(w.chan, t))
    case Ask =>
      w.(counts := LockMutex(w.counts, t), work := work[t := if w.counts.locked then AskQueued else AskOwn])
    case AskOwn => w.(work := work[t := if w.count >= w.total then AskQuit else AskLoad])
    case AskLoad => w.(work := work[t := AskStore(w.count)])
    case AskStore(x) => w.(count := x + 1, work := work[t := AskTaken])
    case AskTaken =>
      w.(counts := UnlockMutex(w.counts), work := WakeHead(work, w.counts.waiters)[t := Taking],
         chan := C.Begin(w.chan, t, C.RecvWait))
    case AskQuit =>
      w.(counts := UnlockMutex(w.counts), work := WakeHead(work, w.counts.waiters)[t := Gone])
    case Taking =>
      if p.RecvPost? then w.(consumed := w.consumed + [p.v], work := work[t := Posting(p.v)])
      else w.(chan := C.Step(w.chan, t))
    case Posting(x) =>
      if p.Returned? then w.(chan := C.Begin(w.chan, t, C.Idle), work := work[t := Ask])
      else w.(chan := C.Step(w.chan, t))
  }

  // ----- the two counter locks -----

  predicate OnItems(x: Work) { x.ItemQueued? }
  predicate InItems(x: Work) { x.ItemOwn? || x.ItemRead? || x.ItemHeld? }
  predicate OnCounts(x: Work) { x.AskQueued? }
  predicate InCounts(x: Work) { x.AskOwn? || x.AskLoad? || x.AskStore? || x.AskTaken? || x.AskQuit? }

  /** q lists, without duplicates, exactly the workers whose state satisfies f. */
  ghost predicate Listed(work: seq<Work>, q: seq<int>, f: Work -> bool) {
    && NoDup(q)
    && (forall i | 0 <= i < |q| :: 0 <= q[i] < |work| && f(work[q[i]]))
    && (forall t | 0 <= t < |work| && f(work[t]) :: t in q)
  }

  /** The workers on m's wait list are in state f, and only the owner is in its section s. */
  ghost predicate LockOk(work: seq<Work>, m: Mutex<int>, f: Work -> bool, s: Work -> bool) {
    && MutexInv(m) && Listed(work, m.waiters, f)
    && (forall t | 0 <= t < |work| && s(work[t]) :: m.Owner() == Some(t))
    && (m.locked ==> m.Owner().Some? && 0 <= m.Owner().value < |work| && s(work[m.Owner().value]))
  }

  lemma LockSame(work: seq<Work>, m: Mutex<int>, f: Work -> bool, s: Work -> bool, t: int, x: Work)
    requires LockOk(work, m, f, s) && 0 <= t < |work| && !f(work[t]) && !f(x) && s(x) == s(work[t])
    ensures LockOk(work[t := x], m, f, s)
  {
    hide MutexInv;
  }

  lemma LockAsk(work: seq<Work>, m: Mutex<int>, f: Work -> bool, s: Work -> bool, t: int, x: Work)
    requires LockOk(work, m, f, s) && 0 <= t < |work| && !f(work[t]) && !s(work[t])
    requires f(x) == m.locked && s(x) == !m.locked
    ensures LockOk(work[t := x], LockMutex(m, t), f, s)
  {
    assert t !in m.waiters;
    forall u | 0 <= u < |work| && f(work[t := x][u]) ensures u in LockMutex(m, t).waiters {
      if u != t { assert u in m.waiters; }
    }
  }

  lemma OwnerOnly(work: seq<Work>, m: Mutex<int>, f: Work -> bool, s: Work -> bool, t: int)
    requires LockOk(work, m, f, s) && 0 <= t < |work| && s(work[t])
    ensures m.locked && m.Owner() == Some(t)
    ensures forall u | 0 <= u < |work| && s(work[u]) :: u == t
    ensures m.waiters != [] ==> 0 <= m.waiters[0] < |work| && f(work[m.waiters[0]])
  {
  }

  lemma LockLeave(work: seq<Work>, m: Mutex<int>, f: Work -> bool, s: Work -> bool, t: int, x: Work)
    requires LockOk(work, m, f, s) && 0 <= t < |work| && s(work[t]) && !f(work[t]) && !f(x) && !s(x)
    requires forall y :: f(y) ==> s(Woken(y)) && !f(Woken(y)) && !s(y)
    ensures LockOk(WakeHead(work, m.waiters)[t := x], UnlockMutex(m), f, s)
  {
    OwnerOnly(work, m, f, s, t);
    var (q, r) := (m.waiters, WakeHead(work, m.waiters)[t := x]);
    assert t !in q;
    assert MutexInv(UnlockMutex(m)) by { hide Listed; }
    hide MutexInv, Woken;
    if q != [] {
      forall u | 0 <= u < |r| && f(r[u]) ensures u in q[1..] { assert u in q; }
    }
  }

  predicate Foreign(y: Work, f: Work -> bool, s: Work -> bool) { !f(y) && !f(Woken(y)) && !s(y) && !s(Woken(y)) }

  /** The head of one lock's list changes nothing for the other lock. */
  lemma LockOther(work: seq<Work>, m: Mutex<int>, f: Work -> bool, s: Work -> bool, q: seq<int>, t: int, x: Work)
    requires LockOk(work, m, f, s) && 0 <= t < |work|
    requires q != [] ==> 0 <= q[0] < |work| && q[0] != t && Foreign(work[q[0]], f, s)
    requires !f(work[t]) && !f(x) && s(x) == s(work[t])
    ensures LockOk(WakeHead(work, q)[t := x], m, f, s)
  {
    hide MutexInv, Listed, Woken, LockOk;
    if q != [] { LockSame(work, m, f, s, q[0], Woken(work[q[0]])); }
    LockSame(WakeHead(work, q), m, f, s, t, x);
  }

  ghost predicate LocksOk(work: seq<Work>, items: Mutex<int>, counts: Mutex<int>) {
    LockOk(work, items, OnItems, InItems) && LockOk(work, counts, OnCounts, InCounts)
  }

  lemma LeaveItems(work: seq<Work>, items: Mutex<int>, counts: Mutex<int>, t: int, x: Work)
    requires LocksOk(work, items, counts) && 0 <= t < |work| && work[t].ItemHeld? && x.Deliver?
    ensures LocksOk(WakeHead(work, items.waiters)[t := x], UnlockMutex(items), counts)
  {
    hide LockOk;
    OwnerOnly(work, items, OnItems, InItems, t);
    LockLeave(work, items, OnItems, InItems, t, x);
    LockOther(work, counts, OnCounts, InCounts, items.waiters, t, x);
  }

  lemma LeaveCounts(work: seq<Work>, items: Mutex<int>, counts: Mutex<int>, t: int, x: Work)
    requires LocksOk(work, items, counts) && 0 <= t < |work|
    requires (work[t].AskTaken? && x.Taking?) || (work[t].AskQuit? && x.Gone?)
    ensures LocksOk(WakeHead(work, counts.waiters)[t := x], items, UnlockMutex(counts))
  {
    hide LockOk;
    OwnerOnly(work, counts, OnCounts, InCounts, t);
    LockLeave(work, counts, OnCounts, InCounts, t, x);
    LockOther(work, items, OnItems, InItems, counts.waiters, t, x);
  }

  lemma StayLocked(work: seq<Work>, items: Mutex<int>, counts: Mutex<int>, t: int, x: Work)
    requires LocksOk(work, items, counts) && 0 <= t < |work|
    requires !OnItems(work[t]) && !OnItems(x) && InItems(x) == InItems(work[t])
    requires !OnCounts(work[t]) && !OnCounts(x) && InCounts(x) == InCounts(work[t])
    ensures LocksOk(work[t := x], items, counts)
  {
    hide LockOk;
    LockSame(work, items, OnItems, InItems, t, x);
    LockSame(work, counts, OnCounts, InCounts, t, x);
  }

  lemma StepLocks(w: World, t: int)
    requires CanStep(w, t) && LocksOk(w.work, w.items, w.counts)
    ensures var r := Apply(w, t); LocksOk(r.work, r.items, r.counts)
  {
    hide LockOk, Shape, C.CanStep, MutexInv, C.Step;
    var work := w.work;
    var x := Apply(w, t).work[t];
    if work[t].Produce? {
      LockAsk(work, w.items, OnItems, InItems, t, x);
      LockSame(work, w.counts, OnCounts, InCounts, t, x);
    } else if work[t].Ask? {
      LockAsk(work, w.counts, OnCounts, InCounts, t, x);
      LockSame(work, w.items, OnItems, InItems, t, x);
    } else if work[t].ItemHeld? {
      LeaveItems(work, w.items, w.counts, t, x);
    } else if work[t].AskTaken? || work[t].AskQuit? {
      LeaveCounts(work, w.items, w.counts, t, x);
    } else {
      assert Apply(w, t).work == work[t := x];
      StayLocked(work, w.items, w.counts, t, x);
    }
  }

  // ----- worker and channel call -----

  /** How a worker's own state and its place in the channel call go together. */
  predicate Fit(x: Work, p: C.Pc) {
    if x.Deliver? then C.IsSender(p)
    else if x.Taking? then C.Asking(p) == 1 || p.RecvUnlock? || p.RecvPost?
    else if x.Posting? then (p.RecvPost? || p.Returned?) && p.v == x.x
    else p.Idle?
  }

  predicate IsProducer(x: Work) {
    x.Produce? || x.ItemQueued? || x.ItemOwn? || x.ItemRead? || x.ItemHeld? || x.Deliver?
  }

  predicate Kind(producer: bool, x: Work, quota: nat) {
    IsProducer(x) == producer && (producer ==> x.made <= quota && (x.Produce? || x.made < quota))
  }

  ghost predicate Fits(work: seq<Work>, pc: seq<C.Pc>, producers: nat, quota: nat) {
    && |work| == |pc|
    && forall t | 0 <= t < |work| :: Fit(work[t], pc[t]) && Kind(t < producers, work[t], quota)
  }

  lemma FitsBoth(work: seq<Work>, pc: seq<C.Pc>, producers: nat, quota: nat, t: int, x: Work, p: C.Pc)
    requires Fits(work, pc, producers, quota) && 0 <= t < |work| && Fit(x, p) && Kind(t < producers, x, quota)
    ensures Fits(work[t := x], pc[t := p], producers, quota)
  {
    hide Fit, Kind;
  }

  lemma WokenFits(work: seq<Work>, pc: seq<C.Pc>, producers: nat, quota: nat, q: seq<int>)
    requires Fits(work, pc, producers, quota)
    ensures Fits(WakeHead(work, q), pc, producers, quota)
  {
    if q != [] && 0 <= q[0] < |work| {
      assert pc[q[0] := pc[q[0]]] == pc;
      var y := work[q[0]];
      assert Fit(Woken(y), pc[q[0]]) && Kind(q[0] < producers, Woken(y), quota);
      hide Fit, Kind, Woken;
      FitsBoth(work, pc, producers, quota, q[0], Woken(y), pc[q[0]]);
    }
  }

  /** A step inside the call, by a worker that may make it. */
  lemma ChanFits(w: World, t: int)
    requires C.Inv(w.chan) && C.CanStep(w.chan, t) && Fits(w.work, w.chan.pc, w.producers, w.quota)
    requires w.work[t].Taking? ==> !w.chan.pc[t].RecvPost?
    ensures C.Sizes(w.chan) && Fits(w.work, C.Step(w.chan, t).pc, w.producers, w.quota)
  {
    var c := w.chan;
    SelfFits(w, t);
    forall u | 0 <= u < |w.work| ensures Fit(w.work[u], C.Step(c, t).pc[u]) {
      if u != t { OtherFits(w, t, u); }
    }
    hide C.Inv, Fit, Kind, C.Step;
  }

  lemma SelfFits(w: World, t: int)
    requires C.Inv(w.chan) && C.CanStep(w.chan, t) && Fits(w.work, w.chan.pc, w.producers, w.quota)
    requires w.work[t].Taking? ==> !w.chan.pc[t].RecvPost?
    ensures C.Sizes(w.chan) && Fit(w.work[t], C.Step(w.chan, t).pc[t])
  {
    assert C.Sizes(w.chan) && Fit(w.work[t], w.chan.pc[t]);
    hide C.Inv, C.Sizes, Fits, C.ResumeHead;
    if w.work[t].Deliver? { C.SenderHolds(w.chan, t); }
  }

  lemma OtherFits(w: World, t: int, u: int)
    requires C.Inv(w.chan) && C.CanStep(w.chan, t) && Fits(w.work, w.chan.pc, w.producers, w.quota)
    requires 0 <= u < |w.work| && u != t
    ensures C.Sizes(w.chan) && Fit(w.work[u], C.Step(w.chan, t).pc[u])
  {
    assert Fit(w.work[u], w.chan.pc[u]);
    C.StepMoves(w.chan, t);
    hide C.Inv, C.Step, C.WakeList, Fits, C.CanStep, C.Rank;
  }

  /** The next step of t is a step of its channel call; all others are the worker's own. */
  predicate InCall(x: Work, p: C.Pc) {
    (x.Deliver? && !p.Idle?) || (x.Taking? && !p.RecvPost?) || (x.Posting? && !p.Returned?)
  }

  lemma CallStep(w: World, t: int)
    requires CanStep(w, t) && InCall(w.work[t], w.chan.pc[t])
    ensures C.CanStep(w.chan, t) && Apply(w, t) == w.(chan := C.Step(w.chan, t))
  {
    hide C.CanStep, C.Step, C.Sizes;
  }

  /** Whom a worker's own step wakes. */
  function Wakes(w: World, t: int): seq<int>
    requires 0 <= t < |w.work|
  {
    var x := w.work[t];
    if x.ItemHeld? then w.items.waiters else if x.AskTaken? || x.AskQuit? then w.counts.waiters else []
  }

  lemma OwnStep(w: World, t: int)
    requires CanStep(w, t) && !InCall(w.work[t], w.chan.pc[t])
    ensures var r := Apply(w, t);
      && r.work == WakeHead(w.work, Wakes(w, t))[t := r.work[t]]
      && |r.chan.pc| == |w.chan.pc| && r.chan == w.chan.(pc := w.chan.pc[t := r.chan.pc[t]])
      && r.producers == w.producers && r.quota == w.quota && r.total == w.total
  {
    hide C.CanStep, C.Step, C.Sizes, Woken;
    assert WakeHead(w.work, []) == w.work;
    assert w.chan.pc[t := w.chan.pc[t]] == w.chan.pc;
    assert w.chan.(pc := w.chan.pc) == w.chan;
  }

  lemma OwnFit(w: World, t: int)
    requires CanStep(w, t) && !InCall(w.work[t], w.chan.pc[t])
    requires Fit(w.work[t], w.chan.pc[t]) && Kind(t < w.producers, w.work[t], w.quota)
    ensures |Apply(w, t).chan.pc| == |w.chan.pc| && Fit(Apply(w, t).work[t], Apply(w, t).chan.pc[t])
    ensures Kind(t < w.producers, Apply(w, t).work[t], w.quota)
  {
    hide C.CanStep, C.Step, C.Sizes, WakeHead;
  }

  lemma StepFits(w: World, t: int)
    requires CanStep(w, t) && C.Inv(w.chan) && Fits(w.work, w.chan.pc, w.producers, w.quota)
    ensures var r := Apply(w, t); Fits(r.work, r.chan.pc, w.producers, w.quota)
  {
    var (work, pc) := (w.work, w.chan.pc);
    assert Fit(work[t], pc[t]) && Kind(t < w.producers, work[t], w.quota);
    hide C.Inv, C.CanStep, C.Step, Apply, Fit, Kind, Fits;
    if InCall(work[t], pc[t]) {
      CallStep(w, t);
      ChanFits(w, t);
    } else {
      OwnStep(w, t);
      OwnFit(w, t);
      WokenFits(work, pc, w.producers, w.quota, Wakes(w, t));
      hide Shape, Wakes, InCall;
      FitsBoth(WakeHead(work, Wakes(w, t)), pc, w.producers, w.quota, t, Apply(w, t).work[t], Apply(w, t).chan.pc[t]);
    }
  }

  // ----- what the sections protect -----

  /** A value read inside a section is current until the section ends; who was turned away saw the
      final count. */
  predicate Current(x: Work, next: int, count: int, total: int) {
    && (x.ItemRead? ==> x.x == next)
    && (x.AskLoad? ==> count < total)
    && (x.AskStore? ==> x.x == count < total)
    && (x.AskQuit? || x.Gone? ==> count == total)
  }

  ghost predicate Values(work: seq<Work>, next: int, count: int, total: int) {
    && count <= total
    && forall t | 0 <= t < |work| :: Current(work[t], next, count, total)
  }

  lemma ValuesUpdate(work: seq<Work>, next: int, count: int, total: int, q: seq<int>, t: int, x: Work)
    requires Values(work, next, count, total) && 0 <= t < |work| && Current(x, next, count, total)
    ensures Values(WakeHead(work, q)[t := x], next, count, total)
  {
  }

  /** Only the owner of its lock changes a counter. */
  lemma StepValues(w: World, t: int)
    requires CanStep(w, t) && LocksOk(w.work, w.items, w.counts) && Values(w.work, w.next, w.count, w.total)
    ensures var r := Apply(w, t); Values(r.work, r.next, r.count, r.total)
  {
    var (work, r) := (w.work, Apply(w, t));
    if InCall(work[t], w.chan.pc[t]) {
      CallStep(w, t);
      hide C.CanStep, C.Step, Apply, LocksOk, Shape;
    } else if work[t].ItemRead? {
      OwnerOnly(work, w.items, OnItems, InItems, t);
      hide C.CanStep, C.Step, LocksOk, Shape;
    } else if work[t].AskStore? {
      OwnerOnly(work, w.counts, OnCounts, InCounts, t);
      hide C.CanStep, C.Step, LocksOk, Shape;
    } else {
      OwnStep(w, t);
      OwnValue(w, t);
      hide C.CanStep, C.Step, Apply, LocksOk, Shape;
      ValuesUpdate(work, w.next, w.count, w.total, Wakes(w, t), t, r.work[t]);
    }
  }

  lemma OwnValue(w: World, t: int)
    requires CanStep(w, t) && !InCall(w.work[t], w.chan.pc[t]) && !w.work[t].ItemRead? && !w.work[t].AskStore?
    requires w.count <= w.total && Current(w.work[t], w.next, w.count, w.total)
    ensures var r := Apply(w, t);
      && r.next == w.next && r.count == w.count && r.total == w.total && |r.work| == |w.work|
      && Current(r.work[t], r.next, r.count, r.total)
  {
    hide C.CanStep, C.Step, C.Sizes;
  }

  // ----- where the items are -----

  function ItemTokens(x: Work): multiset<int> { if x.ItemHeld? then multiset{x.x} else multiset{} }
  function PostTokens(x: Work): multiset<int> { if x.Posting? then multiset{x.x} else multiset{} }

  /** The items 0 .. n - 1, once each. */
  ghost function Upto(n: int): multiset<int> {
    if n <= 0 then multiset{} else Upto(n - 1) + multiset{n - 1}
  }

  lemma {:induction false} UptoOnce(n: int, v: int)
    ensures Upto(n)[v] == if 0 <= v < n then 1 else 0
  {
    if n > 0 { UptoOnce(n - 1, v); }
  }

  /** Every item number handed out is in one place: in a producer's hands or written. */
  ghost predicate SendBook(written: seq<int>, pc: seq<C.Pc>, work: seq<Work>, next: int) {
    next >= 0 && multiset(written) + UnionF(pc, C.SendTokens) + UnionF(work, ItemTokens) == Upto(next)
  }

  /** Every item taken is in one place: in the hands of a consumer that has not marked it, or marked. */
  ghost predicate TakeBook(taken: seq<int>, pc: seq<C.Pc>, work: seq<Work>, consumed: seq<int>) {
    multiset(consumed) + UnionF(pc, C.RecvTokens) == multiset(taken) + UnionF(work, PostTokens)
  }

  ghost predicate Neutral(f: Work -> multiset<int>) { forall y :: f(Woken(y)) == f(y) }

  lemma WorkUnion(work: seq<Work>, q: seq<int>, t: int, x: Work, f: Work -> multiset<int>)
    requires 0 <= t < |work| && (q != [] ==> 0 <= q[0] < |work| && q[0] != t) && Neutral(f)
    ensures UnionF(WakeHead(work, q)[t := x], f) + f(work[t]) == UnionF(work, f) + f(x)
  {
    if q != [] {
      UnionFUpdate(work, f, q[0], Woken(work[q[0]]));
      C.Cancel(UnionF(WakeHead(work, q), f), UnionF(work, f), f(work[q[0]]));
    }
    UnionFUpdate(WakeHead(work, q), f, t, x);
  }

  lemma WakesOther(w: World, t: int)
    requires CanStep(w, t) && LocksOk(w.work, w.items, w.counts)
    ensures var q := Wakes(w, t); q != [] ==> 0 <= q[0] < |w.work| && q[0] != t
  {
    hide LockOk, Shape, C.CanStep;
    var x := w.work[t];
    if x.ItemHeld? {
      OwnerOnly(w.work, w.items, OnItems, InItems, t);
    } else if x.AskTaken? || x.AskQuit? {
      OwnerOnly(w.work, w.counts, OnCounts, InCounts, t);
    }
  }

  /** What a worker's own step does with items, in its own terms. */
  lemma OwnItem(w: World, t: int)
    requires CanStep(w, t) && !InCall(w.work[t], w.chan.pc[t])
    ensures |Apply(w, t).chan.pc| == |w.chan.pc|
    ensures var (x, p, x', p', n') := (w.work[t], w.chan.pc[t], Apply(w, t).work[t], Apply(w, t).chan.pc[t], Apply(w, t).next);
      if x.ItemHeld? then !x'.ItemHeld? && p.Idle? && p' == C.SendWait(x.x) && n' == w.next
      else if x.ItemRead? then x'.ItemHeld? && x'.x == x.x && p' == p && n' == x.x + 1
      else !x'.ItemHeld? && n' == w.next && C.SendHold(p') == C.SendHold(p)
  {
    hide C.CanStep, C.Step, C.Sizes, WakeHead;
  }

  lemma OneInHand(x: int)
    ensures C.SendTokens(C.SendWait(x)) == multiset{x} && C.SendTokens(C.Idle) == multiset{} == C.RecvTokens(C.Idle)
    ensures C.RecvTokens(C.Returned(x)) == multiset{x}
  {
    assert C.SendHold(C.SendWait(x)) == [x] && C.RecvHold(C.Returned(x)) == [x];
    assert C.SendHold(C.Idle) == [] && C.RecvHold(C.Idle) == [];
    hide C.SendHold, C.RecvHold;
  }

  lemma OwnTokens(w: World, t: int)
    requires CanStep(w, t) && !InCall(w.work[t], w.chan.pc[t]) && Current(w.work[t], w.next, w.count, w.total)
    ensures var r := Apply(w, t);
      && |r.chan.pc| == |w.chan.pc| && w.next <= r.next <= w.next + 1
      && ItemTokens(r.work[t]) + C.SendTokens(r.chan.pc[t])
         == ItemTokens(w.work[t]) + C.SendTokens(w.chan.pc[t]) + if r.next > w.next then multiset{w.next} else multiset{}
  {
    OwnItem(w, t);
    var x := w.work[t];
    OneInHand(if x.ItemHeld? then x.x else 0);
    assert C.SendHold(Apply(w, t).chan.pc[t]) == C.SendHold(w.chan.pc[t]) ==>
      C.SendTokens(Apply(w, t).chan.pc[t]) == C.SendTokens(w.chan.pc[t]);
    hide CanStep, Apply, InCall, C.SendHold, C.SendTokens;
  }

  lemma OwnMark(w: World, t: int)
    requires CanStep(w, t) && !InCall(w.work[t], w.chan.pc[t]) && Fit(w.work[t], w.chan.pc[t])
    ensures |Apply(w, t).chan.pc| == |w.chan.pc|
    ensures var (x, p, x', p', k') :=
        (w.work[t], w.chan.pc[t], Apply(w, t).work[t], Apply(w, t).chan.pc[t], Apply(w, t).consumed);
      if x.Taking? then k' == w.consumed + [p.v] && x' == Posting(p.v) && p' == p
      else if x.Posting? then k' == w.consumed && !x'.Posting? && p == C.Returned(x.x) && p' == C.Idle
      else !x'.Posting? && k' == w.consumed && C.RecvHold(p') == C.RecvHold(p)
  {
    hide C.CanStep, C.Step, C.Sizes, WakeHead;
  }

  lemma OwnMarks(w: World, t: int)
    requires CanStep(w, t) && !InCall(w.work[t], w.chan.pc[t]) && Fit(w.work[t], w.chan.pc[t])
    ensures var r := Apply(w, t);
      && |r.chan.pc| == |w.chan.pc|
      && multiset(r.consumed) + C.RecvTokens(r.chan.pc[t]) + PostTokens(w.work[t])
         == multiset(w.consumed) + C.RecvTokens(w.chan.pc[t]) + PostTokens(r.work[t])
  {
    OwnMark(w, t);
    var x := w.work[t];
    OneInHand(if x.Posting? then x.x else 0);
    assert C.RecvHold(Apply(w, t).chan.pc[t]) == C.RecvHold(w.chan.pc[t]) ==>
      C.RecvTokens(Apply(w, t).chan.pc[t]) == C.RecvTokens(w.chan.pc[t]);
    hide CanStep, Apply, InCall, C.RecvHold, C.RecvTokens, Fit;
  }

  lemma SendAlgebra(a: multiset<int>, s: multiset<int>, s': multiset<int>, p: multiset<int>, p': multiset<int>,
                    i: multiset<int>, i': multiset<int>, x: multiset<int>, x': multiset<int>, d: multiset<int>)
    requires s' + p == s + p' && i' + x == i + x' && x' + p' == x + p + d
    ensures a + s' + i' == a + s + i + d
  {
    forall v ensures s'[v] + i'[v] == s[v] + i[v] + d[v] {
      assert s'[v] + p[v] == (s' + p)[v] == s[v] + p'[v];
      assert i'[v] + x[v] == (i' + x)[v] == i[v] + x'[v];
      assert x'[v] + p'[v] == (x' + p')[v] == x[v] + p[v] + d[v];
    }
  }

  lemma TakeAlgebra(a: multiset<int>, a': multiset<int>, s: multiset<int>, s': multiset<int>, p: multiset<int>, p': multiset<int>,
                    b: multiset<int>, i: multiset<int>, i': multiset<int>, x: multiset<int>, x': multiset<int>)
    requires s' + p == s + p' && i' + x == i + x' && a' + p' + x == a + p + x' && a + s == b + i
    ensures a' + s' == b + i'
  {
    forall v ensures a'[v] + s'[v] == b[v] + i'[v] {
      assert s'[v] + p[v] == (s' + p)[v] == s[v] + p'[v];
      assert i'[v] + x[v] == (i' + x)[v] == i[v] + x'[v];
      assert a'[v] + p'[v] + x[v] == (a' + p' + x)[v] == a[v] + p[v] + x'[v];
      assert a[v] + s[v] == (a + s)[v] == b[v] + i[v];
    }
  }

  ghost predicate LocalInv(w: World) {
    && C.Inv(w.chan) && LocksOk(w.work, w.items, w.counts)
    && Fits(w.work, w.chan.pc, w.producers, w.quota) && Values(w.work, w.next, w.count, w.total)
  }

  lemma StepSendBook(w: World, t: int)
    requires CanStep(w, t) && LocalInv(w) && SendBook(w.chan.written, w.chan.pc, w.work, w.next)
    ensures var r := Apply(w, t); SendBook(r.chan.written, r.chan.pc, r.work, r.next)
  {
    hide C.Inv, C.CanStep, C.Step, C.Sizes, LocksOk, Apply, InCall, Current;
    assert Current(w.work[t], w.next, w.count, w.total);
    hide Values, Fits;
    if InCall(w.work[t], w.chan.pc[t]) {
      CallStep(w, t);
      C.StepSends(w.chan, t);
    } else {
      OwnSendBook(w, t);
    }
  }

  lemma UptoMore(n: int, m: int)
    requires 0 <= n <= m <= n + 1
    ensures Upto(m) == Upto(n) + if m > n then multiset{n} else multiset{}
  {
  }

  lemma OwnUnions(w: World, t: int, f: C.Pc -> multiset<int>, g: Work -> multiset<int>)
    requires CanStep(w, t) && LocksOk(w.work, w.items, w.counts) && !InCall(w.work[t], w.chan.pc[t]) && Neutral(g)
    ensures var r := Apply(w, t);
      && |r.chan.pc| == |w.chan.pc| && |r.work| == |w.work|
      && UnionF(r.chan.pc, f) + f(w.chan.pc[t]) == UnionF(w.chan.pc, f) + f(r.chan.pc[t])
      && UnionF(r.work, g) + g(w.work[t]) == UnionF(w.work, g) + g(r.work[t])
  {
    hide LocksOk, Apply, InCall, Wakes, Woken, Neutral;
    OwnStep(w, t);
    WakesOther(w, t);
    hide WakeHead;
    WorkUnion(w.work, Wakes(w, t), t, Apply(w, t).work[t], g);
    UnionFUpdate(w.chan.pc, f, t, Apply(w, t).chan.pc[t]);
  }

  lemma OwnSendBook(w: World, t: int)
    requires CanStep(w, t) && LocksOk(w.work, w.items, w.counts) && SendBook(w.chan.written, w.chan.pc, w.work, w.next)
    requires !InCall(w.work[t], w.chan.pc[t]) && Current(w.work[t], w.next, w.count, w.total)
    ensures var r := Apply(w, t); SendBook(r.chan.written, r.chan.pc, r.work, r.next)
  {
    var (x, p, r) := (w.work[t], w.chan.pc[t], Apply(w, t));
    var d := if r.next > w.next then multiset{w.next} else multiset{};
    hide LocksOk, Apply, InCall, C.SendTokens, ItemTokens, Current;
    assert r.chan.written == w.chan.written by { OwnStep(w, t); hide WakeHead, CanStep; }
    OwnTokens(w, t);
    NeutralItems();
    OwnUnions(w, t, C.SendTokens, ItemTokens);
    hide CanStep, Neutral, OnItems, InItems, Upto, UnionF;
    UptoMore(w.next, r.next);
    SendAlgebra(multiset(w.chan.written), UnionF(w.chan.pc, C.SendTokens), UnionF(r.chan.pc, C.SendTokens), C.SendTokens(p),
      C.SendTokens(r.chan.pc[t]), UnionF(w.work, ItemTokens), UnionF(r.work, ItemTokens), ItemTokens(x), ItemTokens(r.work[t]), d);
  }

  lemma NeutralItems()
    ensures Neutral(ItemTokens) && Neutral(PostTokens)
  {
  }

  lemma StepTakeBook(w: World, t: int)
    requires CanStep(w, t) && LocalInv(w) && TakeBook(w.chan.taken, w.chan.pc, w.work, w.consumed)
    ensures var r := Apply(w, t); TakeBook(r.chan.taken, r.chan.pc, r.work, r.consumed)
  {
    var (x, p, r) := (w.work[t], w.chan.pc[t], Apply(w, t));
    hide C.Inv, C.CanStep, C.Step, C.Sizes, Fit, Kind, LocksOk, Apply, InCall, Wakes, Woken, C.RecvTokens, PostTokens, Current;
    assert Fit(x, p) && Current(x, w.next, w.count, w.total);
    if InCall(x, p) {
      CallStep(w, t);
      C.StepTakes(w.chan, t);
      hide CanStep, Values, Fits;
      CallTakes(multiset(w.consumed), UnionF(w.chan.pc, C.RecvTokens), UnionF(r.chan.pc, C.RecvTokens), multiset(w.chan.taken),
        multiset(r.chan.taken), UnionF(w.work, PostTokens));
    } else {
      OwnStep(w, t);
      OwnMarks(w, t);
      WakesOther(w, t);
      NeutralItems();
      WorkUnion(w.work, Wakes(w, t), t, r.work[t], PostTokens);
      UnionFUpdate(w.chan.pc, C.RecvTokens, t, r.chan.pc[t]);
      hide CanStep, Values, Fits, WakeHead;
      TakeAlgebra(multiset(w.consumed), multiset(r.consumed), UnionF(w.chan.pc, C.RecvTokens), UnionF(r.chan.pc, C.RecvTokens),
        C.RecvTokens(p), C.RecvTokens(r.chan.pc[t]), multiset(w.chan.taken), UnionF(w.work, PostTokens),
        UnionF(r.work, PostTokens), PostTokens(x), PostTokens(r.work[t]));
    }
  }

  lemma CallTakes(a: multiset<int>, s: multiset<int>, s': multiset<int>, b: multiset<int>, b': multiset<int>, i: multiset<int>)
    requires a + s == b + i && b + s' == b' + s
    ensures a + s' == b' + i
  {
    forall v ensures a[v] + s'[v] == b'[v] + i[v] {
      assert a[v] + s[v] == (a + s)[v] == b[v] + i[v];
      assert b[v] + s'[v] == (b + s')[v] == b'[v] + s[v];
    }
  }

  // ----- how many -----

  function Holding(x: Work): int { if x.ItemHeld? then 1 else 0 }
  function Admitted(x: Work): int { if x.AskTaken? then 1 else 0 }

  /** The items a producer has numbered. */
  function Started(x: Work): int {
    if x.Produce? || x.ItemQueued? || x.ItemOwn? || x.ItemRead? then x.made
    else if x.ItemHeld? || x.Deliver? then x.made + 1 else 0
  }

  ghost predicate Counting(c: C.Chan, work: seq<Work>, next: int, count: int) {
    && next == |c.written| + SumF(c.pc, C.Sending) + SumF(work, Holding)
    && next == SumF(work, Started)
    && count == |c.taken| + SumF(c.pc, C.Asking) + SumF(work, Admitted)
  }

  ghost predicate Even(f: Work -> int) { forall y :: f(Woken(y)) == f(y) }

  lemma OwnSums(w: World, t: int, f: C.Pc -> int, g: Work -> int)
    requires CanStep(w, t) && LocksOk(w.work, w.items, w.counts) && !InCall(w.work[t], w.chan.pc[t]) && Even(g)
    ensures var r := Apply(w, t);
      && |r.chan.pc| == |w.chan.pc| && |r.work| == |w.work|
      && SumF(r.chan.pc, f) == SumF(w.chan.pc, f) - f(w.chan.pc[t]) + f(r.chan.pc[t])
      && SumF(r.work, g) == SumF(w.work, g) - g(w.work[t]) + g(r.work[t])
  {
    hide LocksOk, Apply, InCall, Wakes, Woken, SumF;
    OwnStep(w, t);
    WakesOther(w, t);
    var q := Wakes(w, t);
    if q != [] { SumFUpdate(w.work, g, q[0], Woken(w.work[q[0]])); }
    SumFUpdate(WakeHead(w.work, q), g, t, Apply(w, t).work[t]);
    SumFUpdate(w.chan.pc, f, t, Apply(w, t).chan.pc[t]);
  }

  lemma OwnCounts(w: World, t: int)
    requires CanStep(w, t) && !InCall(w.work[t], w.chan.pc[t]) && Fit(w.work[t], w.chan.pc[t])
    requires Current(w.work[t], w.next, w.count, w.total)
    ensures |Apply(w, t).chan.pc| == |w.chan.pc|
    ensures var (x, p, x', p', r) := (w.work[t], w.chan.pc[t], Apply(w, t).work[t], Apply(w, t).chan.pc[t], Apply(w, t));
      && Started(x') - Started(x) == r.next - w.next
      && C.Sending(p') + Holding(x') - C.Sending(p) - Holding(x) == r.next - w.next
      && C.Asking(p') + Admitted(x') - C.Asking(p) - Admitted(x) == r.count - w.count
  {
    hide C.CanStep, C.Step, C.Sizes, WakeHead;
  }

  lemma EvenCounts()
    ensures Even(Holding) && Even(Started) && Even(Admitted)
  {
  }

  lemma StepCounting(w: World, t: int)
    requires CanStep(w, t) && LocalInv(w) && Counting(w.chan, w.work, w.next, w.count)
    ensures var r := Apply(w, t); Counting(r.chan, r.work, r.next, r.count)
  {
    hide C.Inv, C.CanStep, C.Step, C.Sizes, LocksOk, Apply, InCall, Current, Fit, Kind, SumF, Started, Holding, Admitted, C.Sending,
         C.Asking;
    assert Current(w.work[t], w.next, w.count, w.total) && Fit(w.work[t], w.chan.pc[t]);
    hide Values, Fits, CanStep;
    if InCall(w.work[t], w.chan.pc[t]) {
      CallStep(w, t);
      C.StepSends(w.chan, t);
      C.StepTakes(w.chan, t);
    } else {
      OwnCounting(w, t);
    }
  }

  lemma OwnCounting(w: World, t: int)
    requires CanStep(w, t) && LocksOk(w.work, w.items, w.counts) && Counting(w.chan, w.work, w.next, w.count)
    requires !InCall(w.work[t], w.chan.pc[t]) && Fit(w.work[t], w.chan.pc[t])
    requires Current(w.work[t], w.next, w.count, w.total)
    ensures var r := Apply(w, t); Counting(r.chan, r.work, r.next, r.count)
  {
    hide LocksOk, Apply, InCall, Current, Fit, SumF, Started, Holding, Admitted, C.Sending, C.Asking, Wakes, WakeHead;
    EvenCounts();
    OwnStep(w, t);
    OwnCounts(w, t);
    hide Even;
    OwnSums(w, t, C.Sending, Holding);
    OwnSums(w, t, C.Asking, Admitted);
    OwnSums(w, t, C.Asking, Started);
    hide CanStep;
  }

  // ----- every run -----

  ghost predicate Inv(w: World) {
    && LocalInv(w) && SendBook(w.chan.written, w.chan.pc, w.work, w.next)
    && TakeBook(w.chan.taken, w.chan.pc, w.work, w.consumed) && Counting(w.chan, w.work, w.next, w.count)
    && 0 <= w.producers <= |w.work|
  }

  lemma StepChan(w: World, t: int)
    requires CanStep(w, t) && C.Inv(w.chan) && Fits(w.work, w.chan.pc, w.producers, w.quota)
    ensures C.Inv(Apply(w, t).chan)
    ensures var r := Apply(w, t);
      r.producers == w.producers && r.quota == w.quota && r.total == w.total && |r.work| == |w.work|
      && r.chan.capacity == w.chan.capacity
  {
    assert Fit(w.work[t], w.chan.pc[t]);
    if InCall(w.work[t], w.chan.pc[t]) {
      CallStep(w, t);
      C.StepKeeps(w.chan, t);
      hide C.Inv, C.CanStep, Apply, Fits, Fit, InCall, CanStep;
    } else {
      OwnStep(w, t);
      OwnChan(w, t);
      hide C.Inv, C.CanStep, C.Step, Fits, Fit, InCall, Apply, WakeHead;
      var (p, p') := (w.chan.pc[t], Apply(w, t).chan.pc[t]);
      if p' == p {
        assert w.chan.pc[t := p'] == w.chan.pc;
        assert Apply(w, t).chan == w.chan;
      } else {
        C.BeginKeeps(w.chan, t, p');
      }
    }
  }

  lemma OwnChan(w: World, t: int)
    requires CanStep(w, t) && !InCall(w.work[t], w.chan.pc[t]) && Fit(w.work[t], w.chan.pc[t])
    ensures |Apply(w, t).chan.pc| == |w.chan.pc|
    ensures Apply(w, t).chan.pc[t] == w.chan.pc[t] || C.MayBegin(w.chan, t, Apply(w, t).chan.pc[t])
  {
    hide C.CanStep, C.Step, C.Sizes, WakeHead;
  }

  /** Every step of every worker, in every interleaving, keeps the invariant. */
  lemma ApplyKeeps(w: World, t: int)
    requires Inv(w) && CanStep(w, t)
    ensures Inv(Apply(w, t))
  {
    StepChan(w, t);
    StepLocks(w, t);
    StepFits(w, t);
    StepValues(w, t);
    StepSendBook(w, t);
    StepTakeBook(w, t);
    StepCounting(w, t);
    hide C.Inv, CanStep, Apply, LocksOk, Fits, Values, SendBook, TakeBook, Counting;
  }

  lemma {:induction false} NoTokens<T>(q: seq<T>, f: T -> multiset<int>)
    requires forall i | 0 <= i < |q| :: f(q[i]) == multiset{}
    ensures UnionF(q, f) == multiset{}
  {
    if q != [] {
      forall i | 0 <= i < |q[1..]| ensures f(q[1..][i]) == multiset{} { assert q[1..][i] == q[i + 1]; }
      NoTokens(q[1..], f);
    }
  }

  lemma InitKeeps(producers: nat, consumers: nat, quota: nat, total: nat, slots: nat, buffer: seq<int>)
    requires 0 < slots <= |buffer|
    ensures Inv(Init(producers, consumers, quota, total, slots, buffer))
  {
    var w := Init(producers, consumers, quota, total, slots, buffer);
    C.FreshOk(slots, buffer, producers + consumers);
    assert forall t | 0 <= t < |w.work| :: w.chan.pc[t] == C.Idle && (w.work[t] == Produce(0) || w.work[t] == Ask);
    InitLocal(w);
    hide C.Inv, LocksOk, Fits, Values;
    InitBooks(w);
  }

  lemma InitLocal(w: World)
    requires w.items == NewMutex() == w.counts && w.next == 0 == w.count && |w.work| == |w.chan.pc|
    requires forall t | 0 <= t < |w.work| ::
      w.chan.pc[t] == C.Idle && w.work[t] == if t < w.producers then Produce(0) else Ask
    ensures LocksOk(w.work, w.items, w.counts) && Values(w.work, w.next, w.count, w.total)
    ensures Fits(w.work, w.chan.pc, w.producers, w.quota)
  {
  }

  lemma InitBooks(w: World)
    requires |w.work| == |w.chan.pc| && w.chan.written == [] == w.chan.taken == w.consumed && w.next == 0 == w.count
    requires forall t | 0 <= t < |w.work| :: w.chan.pc[t] == C.Idle && (w.work[t] == Produce(0) || w.work[t] == Ask)
    ensures SendBook(w.chan.written, w.chan.pc, w.work, w.next) && TakeBook(w.chan.taken, w.chan.pc, w.work, w.consumed)
    ensures Counting(w.chan, w.work, w.next, w.count)
  {
    hide UnionF, SumF;
    InitTokens(w);
    SumFConst(w.chan.pc, C.Sending, 0);
    SumFConst(w.chan.pc, C.Asking, 0);
    SumFConst(w.work, Holding, 0);
    SumFConst(w.work, Started, 0);
    SumFConst(w.work, Admitted, 0);
  }

  lemma InitTokens(w: World)
    requires |w.work| == |w.chan.pc| && w.chan.written == [] == w.chan.taken == w.consumed && w.next == 0
    requires forall t | 0 <= t < |w.work| :: w.chan.pc[t] == C.Idle && (w.work[t] == Produce(0) || w.work[t] == Ask)
    ensures SendBook(w.chan.written, w.chan.pc, w.work, w.next) && TakeBook(w.chan.taken, w.chan.pc, w.work, w.consumed)
  {
    hide UnionF;
    OneInHand(0);
    hide C.SendTokens, C.RecvTokens;
    NoTokens(w.chan.pc, C.SendTokens);
    NoTokens(w.chan.pc, C.RecvTokens);
    NoTokens(w.work, ItemTokens);
    NoTokens(w.work, PostTokens);
  }

  // ----- exactly once -----

  lemma {:induction false} PostedInHand(work: seq<Work>, pc: seq<C.Pc>, v: int)
    requires |work| == |pc| && forall i | 0 <= i < |work| :: Fit(work[i], pc[i])
    ensures UnionF(work, PostTokens)[v] <= UnionF(pc, C.RecvTokens)[v]
  {
    if work != [] {
      forall i | 0 <= i < |work[1..]| ensures Fit(work[1..][i], pc[1..][i]) {
        assert work[1..][i] == work[i + 1] && pc[1..][i] == pc[i + 1];
      }
      PostedInHand(work[1..], pc[1..], v);
      assert Fit(work[0], pc[0]);
      PostedOne(work[0], pc[0], v);
      hide Fit, PostTokens, C.RecvTokens;
    }
  }

  lemma PostedOne(x: Work, p: C.Pc, v: int)
    requires Fit(x, p)
    ensures PostTokens(x)[v] <= C.RecvTokens(p)[v]
  {
    if x.Posting? { assert C.RecvHold(p) == [x.x]; }
  }

  /** No item is consumed twice, and only items that were numbered are consumed. */
  lemma ConsumedOnce(w: World, v: int)
    requires Inv(w)
    ensures multiset(w.consumed)[v] <= if 0 <= v < w.next then 1 else 0
  {
    var c := w.chan;
    TakenPrefix(c);
    assert Fits(w.work, c.pc, w.producers, w.quota);
    hide C.Inv, LocksOk, Values, Counting, Fit, Kind, UnionF, Upto, PostTokens, C.RecvTokens, C.SendTokens, ItemTokens;
    PostedInHand(w.work, c.pc, v);
    UptoOnce(w.next, v);
    AtMost(multiset(w.consumed), UnionF(c.pc, C.RecvTokens), multiset(c.taken), UnionF(w.work, PostTokens), v);
    AtMost(multiset(c.written), UnionF(c.pc, C.SendTokens) + UnionF(w.work, ItemTokens), Upto(w.next), multiset{}, v);
  }

  lemma TakenPrefix(c: C.Chan)
    requires C.Inv(c)
    ensures forall v :: multiset(c.taken)[v] <= multiset(c.written)[v]
  {
    hide C.WaitersOk, C.OwnerOk, C.BalanceOk;
    assert c.written == c.taken + c.written[|c.taken|..];
  }

  lemma AtMost(a: multiset<int>, s: multiset<int>, b: multiset<int>, i: multiset<int>, v: int)
    requires a + s == b + i && i[v] <= s[v]
    ensures a[v] <= b[v]
  {
    assert a[v] + s[v] == (a + s)[v] == (b + i)[v] == b[v] + i[v];
  }

  // ----- standstill -----

  /** Everybody has finished. */
  ghost predicate AllDone(w: World) {
    forall t | 0 <= t < |w.work| :: w.work[t] == Produce(w.quota) || w.work[t].Gone?
  }

  /** The only ways for a worker to have no next step when nobody has one. */
  predicate Settled(x: Work, p: C.Pc, quota: nat) {
    || (x == Produce(quota) && p.Idle?) || (x.Gone? && p.Idle?)
    || (x.Deliver? && p.SendQueued?) || (x.Taking? && p.RecvQueued?)
  }

  lemma CallsStill(w: World)
    requires C.Inv(w.chan) && Fits(w.work, w.chan.pc, w.producers, w.quota) && forall t :: !CanStep(w, t)
    ensures forall t :: !C.CanStep(w.chan, t)
  {
    assert C.Sizes(w.chan);
    hide C.Inv, C.Sizes, Fits;
    forall t ensures !C.CanStep(w.chan, t) {
      if 0 <= t < |w.chan.pc| {
        assert !CanStep(w, t);
        FitOf(w, t);
      }
    }
  }

  lemma FitOf(w: World, t: int)
    requires Fits(w.work, w.chan.pc, w.producers, w.quota) && 0 <= t < |w.chan.pc|
    ensures |w.work| == |w.chan.pc| && Fit(w.work[t], w.chan.pc[t]) && Kind(t < w.producers, w.work[t], w.quota)
  {
    hide Fit, Kind;
  }

  lemma Lengths(w: World)
    requires Fits(w.work, w.chan.pc, w.producers, w.quota)
    ensures |w.work| == |w.chan.pc|
  {
  }

  /** Whoever owns one of the two counter locks can step. */
  lemma ItemsOwnerSteps(w: World)
    requires LocalInv(w) && C.Sizes(w.chan) && w.items.locked
    ensures exists t :: CanStep(w, t)
  {
    hide C.Inv, C.Sizes, Values, Fits, C.CanStep;
    Lengths(w);
    var t := w.items.Owner().value;
    FitOf(w, t);
    assert CanStep(w, t);
  }

  lemma CountsOwnerSteps(w: World)
    requires LocalInv(w) && C.Sizes(w.chan) && w.counts.locked
    ensures exists t :: CanStep(w, t)
  {
    hide C.Inv, C.Sizes, Values, Fits, C.CanStep;
    Lengths(w);
    var t := w.counts.Owner().value;
    FitOf(w, t);
    assert CanStep(w, t);
  }

  lemma LocksFree(w: World)
    requires LocalInv(w) && C.Sizes(w.chan) && forall t :: !CanStep(w, t)
    ensures forall t | 0 <= t < |w.work| :: !OnItems(w.work[t]) && !OnCounts(w.work[t])
  {
    if w.items.locked { ItemsOwnerSteps(w); }
    if w.counts.locked { CountsOwnerSteps(w); }
    hide C.Inv, C.Sizes, Values, Fits, CanStep;
  }

  lemma SettledOne(w: World, t: int)
    requires Shape(w) && 0 <= t < |w.work| && !CanStep(w, t) && !C.CanStep(w.chan, t)
    requires Fit(w.work[t], w.chan.pc[t]) && Kind(t < w.producers, w.work[t], w.quota)
    requires !OnItems(w.work[t]) && !OnCounts(w.work[t])
    requires C.Resting(w.chan.pc[t]) || w.chan.pc[t].SendQueued? || w.chan.pc[t].RecvQueued?
    ensures Settled(w.work[t], w.chan.pc[t], w.quota)
  {
    hide C.Sizes, C.CanStep;
  }

  lemma Settles(w: World)
    requires Inv(w) && forall t :: !CanStep(w, t)
    ensures |w.work| == |w.chan.pc|
    ensures forall t | 0 <= t < |w.work| :: Settled(w.work[t], w.chan.pc[t], w.quota)
    ensures forall t :: !C.CanStep(w.chan, t)
  {
    assert C.Sizes(w.chan);
    hide SendBook, TakeBook, Counting, LocksOk, C.Inv, C.Sizes, Values, C.CanStep, Fits;
    Lengths(w);
    CallsStill(w);
    LocksFree(w);
    C.Standstill(w.chan);
    hide CanStep, Fit, Kind, Settled, C.Resting;
    forall t | 0 <= t < |w.work| ensures Settled(w.work[t], w.chan.pc[t], w.quota) {
      FitOf(w, t);
      SettledOne(w, t);
    }
  }

  /** A sum with at most a for each of the first n elements and at most b for each of the rest. */
  lemma {:induction false} SumTwo(work: seq<Work>, f: Work -> int, n: nat, a: nat, b: nat)
    requires n <= |work|
    requires forall t | 0 <= t < |work| :: f(work[t]) <= if t < n then a else b
    ensures SumF(work, f) <= n * a + (|work| - n) * b
  {
    if work != [] {
      var m := if n > 0 then n - 1 else 0;
      forall t | 0 <= t < |work[1..]| ensures f(work[1..][t]) <= if t < m then a else b { assert work[1..][t] == work[t + 1]; }
      SumTwo(work[1..], f, m, a, b);
      assert f(work[0]) <= if 0 < n then a else b;
      if n > 0 {
        assert n * a == m * a + a;
      } else {
        assert (|work| - n) * b == (|work[1..]| - m) * b + b;
      }
    }
  }

  lemma {:induction false} SumTwoLeast(work: seq<Work>, f: Work -> int, n: nat, a: nat)
    requires n <= |work|
    requires forall t | 0 <= t < |work| :: f(work[t]) >= if t < n then a else 0
    ensures SumF(work, f) >= n * a
  {
    if work != [] {
      var m := if n > 0 then n - 1 else 0;
      forall t | 0 <= t < |work[1..]| ensures f(work[1..][t]) >= if t < m then a else 0 { assert work[1..][t] == work[t + 1]; }
      SumTwoLeast(work[1..], f, m, a);
      assert f(work[0]) >= if 0 < n then a else 0;
      if n > 0 { assert n * a == m * a + a; }
    }
  }

  /** The numbered items are at most what the producers' quotas add up to. */
  lemma NextBound(w: World)
    requires Inv(w)
    ensures 0 <= w.next <= w.producers * w.quota
  {
    hide C.Inv, LocksOk, Values, SendBook, TakeBook, SumF;
    forall t | 0 <= t < |w.work| ensures Started(w.work[t]) <= if t < w.producers then w.quota else 0 {
      assert Kind(t < w.producers, w.work[t], w.quota);
    }
    assert w.next >= 0 by { assert SendBook(w.chan.written, w.chan.pc, w.work, w.next); NextNat(w); }
    hide Fits, Started;
    SumTwo(w.work, Started, w.producers, w.quota, 0);
  }

  lemma NextNat(w: World)
    requires SendBook(w.chan.written, w.chan.pc, w.work, w.next)
    ensures w.next >= 0
  {
  }

  /** What the books say when everybody has settled. */
  lemma SettledBooks(w: World)
    requires Inv(w) && |w.work| == |w.chan.pc|
    requires forall t | 0 <= t < |w.work| :: Settled(w.work[t], w.chan.pc[t], w.quota)
    ensures var (c, next) := (w.chan, w.next);
      && next >= |c.written| && w.count >= |c.taken| && w.count <= w.total
      && (forall t | 0 <= t < |w.work| && w.work[t].Deliver? :: next >= |c.written| + 1)
      && (forall t | 0 <= t < |w.work| && w.work[t].Taking? :: w.count >= |c.taken| + 1)
      && ((forall t | 0 <= t < |w.work| :: !w.work[t].Deliver?) ==> next == |c.written| == w.producers * w.quota)
      && ((forall t | 0 <= t < |w.work| :: !w.work[t].Taking?) ==> w.count == |c.taken|)
  {
    hide C.Inv, LocksOk, SendBook, TakeBook, SumF;
    SumFConst(w.work, Holding, 0);
    SumFConst(w.work, Admitted, 0);
    SumFBound(w.chan.pc, C.Sending);
    SumFBound(w.chan.pc, C.Asking);
    SettledSends(w);
    SettledTakes(w);
    hide Fits, Settled, C.Sending, C.Asking, C.SendHold;
    if forall t | 0 <= t < |w.work| :: !w.work[t].Deliver? {
      NextBound(w);
      SettledQuota(w);
    }
  }

  lemma SettledSends(w: World)
    requires |w.work| == |w.chan.pc| && forall t | 0 <= t < |w.work| :: Settled(w.work[t], w.chan.pc[t], w.quota)
    ensures forall t | 0 <= t < |w.work| && w.work[t].Deliver? :: C.Sending(w.chan.pc[t]) == 1
    ensures (forall t | 0 <= t < |w.work| :: !w.work[t].Deliver?) ==> SumF(w.chan.pc, C.Sending) == 0
  {
    hide SumF;
    if forall t | 0 <= t < |w.work| :: !w.work[t].Deliver? {
      SumFConst(w.chan.pc, C.Sending, 0);
    }
  }

  lemma SettledTakes(w: World)
    requires |w.work| == |w.chan.pc| && forall t | 0 <= t < |w.work| :: Settled(w.work[t], w.chan.pc[t], w.quota)
    ensures forall t | 0 <= t < |w.work| && w.work[t].Taking? :: C.Asking(w.chan.pc[t]) == 1
    ensures (forall t | 0 <= t < |w.work| :: !w.work[t].Taking?) ==> SumF(w.chan.pc, C.Asking) == 0
  {
    hide SumF;
    if forall t | 0 <= t < |w.work| :: !w.work[t].Taking? {
      SumFConst(w.chan.pc, C.Asking, 0);
    }
  }

  lemma SettledQuota(w: World)
    requires Inv(w) && |w.work| == |w.chan.pc| && forall t | 0 <= t < |w.work| :: !w.work[t].Deliver?
    requires forall t | 0 <= t < |w.work| :: Settled(w.work[t], w.chan.pc[t], w.quota)
    ensures w.next >= w.producers * w.quota
  {
    hide C.Inv, LocksOk, SendBook, TakeBook, SumF;
    forall t | 0 <= t < |w.work| ensures Started(w.work[t]) >= if t < w.producers then w.quota else 0 {
      assert Kind(t < w.producers, w.work[t], w.quota);
    }
    hide Fits, Started, Settled;
    SumTwoLeast(w.work, Started, w.producers, w.quota);
  }

  /** Enough items for the consumers, and no more than fit into the buffer besides: the sizes for which the
      protocol ends properly. */
  predicate Balanced(producers: nat, quota: nat, wanted: nat, slots: nat) {
    wanted <= producers * quota <= wanted + slots
  }

  /** How many items will be consumed: none if there is no consumer. */
  function Wanted(w: World): nat { if w.producers < |w.work| then w.total else 0 }

  /** Only consumers count. */
  predicate CountedBy(w: World) { w.producers < |w.work| || w.count == 0 }

  lemma StepCounted(w: World, t: int)
    requires Inv(w) && CanStep(w, t) && CountedBy(w)
    ensures CountedBy(Apply(w, t))
  {
    FitOf(w, t);
    StepSame(w, t);
    hide Inv, C.CanStep, C.Step, C.Sizes, Fits;
  }

  /** A consumer that has settled without waiting has seen the final count. */
  lemma ConsumerGone(w: World)
    requires Inv(w) && CountedBy(w) && |w.work| == |w.chan.pc|
    requires forall t | 0 <= t < |w.work| :: Settled(w.work[t], w.chan.pc[t], w.quota) && !w.work[t].Taking?
    ensures w.count == Wanted(w)
  {
    if w.producers < |w.work| { FirstConsumer(w); }
    hide Inv;
  }

  lemma FirstConsumer(w: World)
    requires Inv(w) && w.producers < |w.work| == |w.chan.pc|
    requires forall t | 0 <= t < |w.work| :: Settled(w.work[t], w.chan.pc[t], w.quota) && !w.work[t].Taking?
    ensures w.count == w.total
  {
    hide C.Inv, LocksOk, SendBook, TakeBook, Counting;
    var t := w.producers;
    assert Kind(t < w.producers, w.work[t], w.quota) && Current(w.work[t], w.next, w.count, w.total);
    assert w.work[t].Gone?;
  }

  /** A standstill is the proper end if and only if the producers make at least as many items as are wanted, and
      no more than fit into the buffer besides. */
  lemma Verdict(w: World)
    requires Inv(w) && CountedBy(w) && forall t :: !CanStep(w, t)
    ensures AllDone(w) <==> Balanced(w.producers, w.quota, Wanted(w), w.chan.capacity)
  {
    hide Inv, CanStep, C.CanStep, Settled;
    Settles(w);
    SettledBooks(w);
    Stillness(w);
    NextBound(w);
    if t :| 0 <= t < |w.work| && w.work[t].Deliver? {
      ConsumerGone(w);
    } else if t :| 0 <= t < |w.work| && w.work[t].Taking? {
    } else {
      ConsumerGone(w);
      SettledDone(w);
    }
  }

  /** Who waits, and why. */
  lemma Stillness(w: World)
    requires Inv(w) && |w.work| == |w.chan.pc| && (forall t :: !CanStep(w, t))
    requires forall t | 0 <= t < |w.work| :: Settled(w.work[t], w.chan.pc[t], w.quota)
    ensures 0 < w.chan.capacity
    ensures forall t | 0 <= t < |w.work| && w.work[t].Deliver? ::
      |w.chan.written| == |w.chan.taken| + w.chan.capacity && forall u | 0 <= u < |w.work| :: !w.work[u].Taking?
    ensures forall t | 0 <= t < |w.work| && w.work[t].Taking? :: |w.chan.written| == |w.chan.taken| && w.producers < |w.work|
    ensures |w.chan.taken| <= |w.chan.written| <= |w.chan.taken| + w.chan.capacity
  {
    hide Inv, C.Inv, CanStep, C.CanStep, Fits, Fit;
    ChanStill(w);
    C.Standstill(w.chan);
    forall t | 0 <= t < |w.work| && w.work[t].Taking? ensures w.chan.pc[t].RecvQueued? && w.producers < |w.work| {
      FitOf(w, t);
    }
    forall t | 0 <= t < |w.work| && w.work[t].Deliver?
      ensures w.chan.pc[t].SendQueued? && forall u | 0 <= u < |w.work| :: !w.work[u].Taking?
    {
      NoTaking(w, t);
    }
  }

  lemma ChanStill(w: World)
    requires Inv(w) && forall t :: !CanStep(w, t)
    ensures C.Inv(w.chan) && 0 < w.chan.capacity && (forall t :: !C.CanStep(w.chan, t))
    ensures Fits(w.work, w.chan.pc, w.producers, w.quota)
  {
    assert C.Inv(w.chan) && C.Sizes(w.chan);
    hide C.Inv, CanStep, C.CanStep, LocksOk, Values, SendBook, TakeBook, Counting, Fits;
    CallsStill(w);
  }

  lemma SettledDone(w: World)
    requires |w.work| == |w.chan.pc|
    requires forall t | 0 <= t < |w.work| :: Settled(w.work[t], w.chan.pc[t], w.quota) && !w.work[t].Taking? && !w.work[t].Deliver?
    ensures AllDone(w)
  {
  }

  lemma NoTaking(w: World, t: int)
    requires C.Inv(w.chan) && (forall u :: !C.CanStep(w.chan, u)) && |w.work| == |w.chan.pc|
    requires 0 <= t < |w.work| && w.chan.pc[t].SendQueued?
    requires forall u | 0 <= u < |w.work| :: Settled(w.work[u], w.chan.pc[u], w.quota)
    ensures forall u | 0 <= u < |w.work| :: !w.work[u].Taking?
  {
    assert 0 < w.chan.capacity;
    C.Standstill(w.chan);
    hide C.Inv, C.CanStep;
    forall u | 0 <= u < |w.work| ensures !w.work[u].Taking? {
      assert w.chan.pc[u].RecvQueued? ==> |w.chan.written| == |w.chan.taken|;
    }
  }

  lemma EmptyHands(work: seq<Work>, pc: seq<C.Pc>)
    requires |work| == |pc| && forall t | 0 <= t < |work| :: pc[t].Idle? && !work[t].Posting?
    ensures UnionF(pc, C.RecvTokens) == multiset{} == UnionF(work, PostTokens)
  {
    hide UnionF;
    OneInHand(0);
    hide C.RecvTokens;
    NoTokens(pc, C.RecvTokens);
    NoTokens(work, PostTokens);
  }

  lemma AllMarked(w: World)
    requires TakeBook(w.chan.taken, w.chan.pc, w.work, w.consumed)
    requires UnionF(w.chan.pc, C.RecvTokens) == multiset{} == UnionF(w.work, PostTokens)
    ensures |w.consumed| == |w.chan.taken|
  {
    hide UnionF, C.RecvTokens, PostTokens;
    C.Cancel(multiset(w.consumed), multiset(w.chan.taken), multiset{});
    assert |multiset(w.consumed)| == |w.consumed| && |multiset(w.chan.taken)| == |w.chan.taken|;
  }

  /** At the proper end exactly the wanted number of items has been consumed. */
  lemma AllConsumed(w: World)
    requires Inv(w) && CountedBy(w) && (forall t :: !CanStep(w, t)) && AllDone(w)
    ensures |w.consumed| == Wanted(w)
  {
    hide Inv, CanStep, CountedBy, Settled;
    Settles(w);
    SettledBooks(w);
    assert forall t | 0 <= t < |w.work| :: !w.work[t].Taking?;
    ConsumerGone(w);
    AllTakenMarked(w);
  }

  lemma AllTakenMarked(w: World)
    requires Inv(w) && |w.work| == |w.chan.pc| && AllDone(w)
    requires forall t | 0 <= t < |w.work| :: Settled(w.work[t], w.chan.pc[t], w.quota)
    ensures |w.consumed| == |w.chan.taken|
  {
    assert TakeBook(w.chan.taken, w.chan.pc, w.work, w.consumed);
    hide Inv, UnionF, TakeBook;
    EmptyHands(w.work, w.chan.pc);
    AllMarked(w);
  }

  // ----- every run is finite -----

  function WorkRank(x: Work, quota: nat): int {
    match x
    case Produce(m) => 20 * (quota - m)
    case ItemQueued(m) => 20 * (quota - m) - 1
    case ItemOwn(m) => 20 * (quota - m) - 2
    case ItemRead(m, _) => 20 * (quota - m) - 3
    case ItemHeld(m, _) => 20 * (quota - m) - 4
    case Deliver(m) => 20 * (quota - m) - 15
    case Ask => 7
    case AskQueued => 6
    case AskOwn => 5
    case AskLoad => 4
    case AskStore(_) => 3
    case AskTaken => 30
    case AskQuit => 4
    case Taking => 15
    case Posting(_) => 14
    case Gone => 0
  }

  ghost function RankBy(quota: nat): Work -> int { x => WorkRank(x, quota) }

  /** How many steps are left at most. */
  ghost function Left(w: World): int {
    40 * (w.total - w.count) + SumF(w.work, RankBy(w.quota)) + SumF(w.chan.pc, C.Rank)
  }

  lemma WorkFalls(work: seq<Work>, q: seq<int>, t: int, x: Work, quota: nat)
    requires 0 <= t < |work| && (q != [] ==> 0 <= q[0] < |work| && q[0] != t)
    ensures SumF(WakeHead(work, q)[t := x], RankBy(quota))
      <= SumF(work, RankBy(quota)) - WorkRank(work[t], quota) + WorkRank(x, quota)
  {
    hide SumF;
    if q != [] {
      SumFUpdate(work, RankBy(quota), q[0], Woken(work[q[0]]));
      assert WorkRank(Woken(work[q[0]]), quota) <= WorkRank(work[q[0]], quota);
    }
    hide WorkRank, Woken;
    SumFUpdate(WakeHead(work, q), RankBy(quota), t, x);
  }

  lemma OwnRank(w: World, t: int)
    requires CanStep(w, t) && !InCall(w.work[t], w.chan.pc[t]) && Fit(w.work[t], w.chan.pc[t])
    requires Current(w.work[t], w.next, w.count, w.total)
    ensures |Apply(w, t).chan.pc| == |w.chan.pc|
    ensures var (x, p, x', p', r) := (w.work[t], w.chan.pc[t], Apply(w, t).work[t], Apply(w, t).chan.pc[t], Apply(w, t));
      WorkRank(x', w.quota) + C.Rank(p') - 40 * r.count < WorkRank(x, w.quota) + C.Rank(p) - 40 * w.count
  {
    hide C.CanStep, C.Step, C.Sizes, WakeHead;
  }

  lemma OwnLeft(w: World, t: int)
    requires CanStep(w, t) && LocksOk(w.work, w.items, w.counts) && !InCall(w.work[t], w.chan.pc[t])
    requires Fit(w.work[t], w.chan.pc[t]) && Current(w.work[t], w.next, w.count, w.total)
    ensures Left(Apply(w, t)) < Left(w)
  {
    hide LocksOk, Apply, InCall, Current, Fit, SumF, WorkRank, C.Rank, Wakes, WakeHead;
    OwnStep(w, t);
    OwnRank(w, t);
    WakesOther(w, t);
    WorkFalls(w.work, Wakes(w, t), t, Apply(w, t).work[t], w.quota);
    SumFUpdate(w.chan.pc, C.Rank, t, Apply(w, t).chan.pc[t]);
    hide CanStep;
  }

  /** Every step leaves fewer steps to come. */
  lemma Progress(w: World, t: int)
    requires Inv(w) && CanStep(w, t)
    ensures Left(Apply(w, t)) < Left(w)
  {
    hide C.Inv, C.CanStep, C.Step, C.Sizes, LocksOk, Apply, InCall, Current, Fit, SumF, C.Rank, SendBook, TakeBook, Counting;
    assert Current(w.work[t], w.next, w.count, w.total) && Fit(w.work[t], w.chan.pc[t]);
    hide Values, Fits;
    if InCall(w.work[t], w.chan.pc[t]) {
      CallStep(w, t);
      C.StepRank(w.chan, t);
      hide CanStep;
    } else {
      OwnLeft(w, t);
    }
  }

  lemma LeftBound(w: World)
    requires Inv(w)
    ensures Left(w) >= 0
  {
    hide C.Inv, LocksOk, SendBook, TakeBook, Counting, SumF;
    forall t | 0 <= t < |w.work| ensures RankBy(w.quota)(w.work[t]) >= 0 {
      FitOf(w, t);
      hide Fits;
    }
    hide Fits, WorkRank;
    SumFBound(w.work, RankBy(w.quota));
    SumFBound(w.chan.pc, C.Rank);
  }

  /** w is where the program starts, with any sizes and any number of workers of either kind. */
  ghost predicate Starts(w: World) {
    && 0 < w.chan.capacity <= |w.chan.buffer| && w.producers <= |w.work|
    && w == Init(w.producers, |w.work| - w.producers, w.quota, w.total, w.chan.capacity, w.chan.buffer)
  }

  ghost predicate Run(ws: seq<World>) {
    |ws| > 0 && Starts(ws[0]) && forall i, j | 0 <= i && j == i + 1 < |ws| :: Next(ws[i], ws[j])
  }

  ghost predicate Next(w: World, w': World) { exists t :: CanStep(w, t) && w' == Apply(w, t) }

  /** The sizes never change. */
  predicate Same(w: World, w': World) {
    && w'.producers == w.producers && w'.quota == w.quota && w'.total == w.total && |w'.work| == |w.work|
    && w'.chan.capacity == w.chan.capacity
  }

  lemma {:induction false} RunKeeps(ws: seq<World>, i: nat)
    requires Run(ws) && i < |ws|
    ensures Inv(ws[i]) && CountedBy(ws[i]) && Same(ws[0], ws[i]) && i + Left(ws[i]) <= Left(ws[0])
    decreases i
  {
    hide Inv, CanStep, Apply, Left, Init, CountedBy;
    if i == 0 {
      InitCounted(ws[0]);
      InitKeeps(ws[0].producers, |ws[0].work| - ws[0].producers, ws[0].quota, ws[0].total, ws[0].chan.capacity,
                ws[0].chan.buffer);
    } else {
      RunKeeps(ws, i - 1);
      assert Next(ws[i - 1], ws[i]);
      var t :| CanStep(ws[i - 1], t) && ws[i] == Apply(ws[i - 1], t);
      ApplyKeeps(ws[i - 1], t);
      Progress(ws[i - 1], t);
      StepSame(ws[i - 1], t);
      StepCounted(ws[i - 1], t);
    }
  }

  lemma InitCounted(w: World)
    requires Starts(w)
    ensures CountedBy(w)
  {
  }

  lemma StepSame(w: World, t: int)
    requires Inv(w) && CanStep(w, t)
    ensures Same(w, Apply(w, t))
  {
    StepChan(w, t);
    hide C.Inv, CanStep, Apply, LocksOk, Fits, Values, SendBook, TakeBook, Counting;
  }

  lemma InitLeft(w: World)
    requires Starts(w)
    ensures Left(w) <= 40 * w.total + w.producers * (20 * w.quota) + (|w.work| - w.producers) * 7
  {
    hide SumF;
    SumFConst(w.chan.pc, C.Rank, 0);
    forall t | 0 <= t < |w.work| ensures RankBy(w.quota)(w.work[t]) <= if t < w.producers then 20 * w.quota else 7 {
    }
    SumTwo(w.work, RankBy(w.quota), w.producers, 20 * w.quota, 7);
  }

  /** For any sizes, any number of producers and consumers and any interleaving: no item is consumed twice, nor
      one that was not produced; no run is longer than the given bound; and a run that cannot go on has ended
      properly, with exactly the wanted number of items consumed, if and only if the sizes are balanced. */
  lemma ExactlyOnce(ws: seq<World>, i: nat)
    requires Run(ws) && i < |ws|
    ensures var (w, w0) := (ws[i], ws[0]);
      && (forall v :: multiset(w.consumed)[v] <= if 0 <= v < w0.producers * w0.quota then 1 else 0)
      && i <= 40 * w0.total + w0.producers * (20 * w0.quota) + (|w0.work| - w0.producers) * 7
      && ((forall t :: !CanStep(w, t)) ==>
            && (AllDone(w) <==> Balanced(w0.producers, w0.quota, Wanted(w0), w0.chan.capacity))
            && (AllDone(w) ==> |w.consumed| == Wanted(w0)))
  {
    var w := ws[i];
    RunKeeps(ws, i);
    LeftBound(w);
    InitLeft(ws[0]);
    NextBound(w);
    forall v ensures multiset(w.consumed)[v] <= if 0 <= v < ws[0].producers * ws[0].quota then 1 else 0 {
      ConsumedOnce(w, v);
    }
    if forall t :: !CanStep(w, t) {
      Verdict(w);
      if AllDone(w) { AllConsumed(w); }
    }
    hide Inv, Run, CanStep, AllDone, Left, Balanced;
  }

  lemma {:induction false} UptoSize(n: nat)
    ensures |Upto(n)| == n
  {
    if n > 0 { UptoSize(n - 1); }
  }

  /** When the producers make exactly as many items as the consumers want, every item is consumed exactly
      once, whatever the number of workers and slots and however they interleave. */
  lemma EachItemOnce(ws: seq<World>, i: nat)
    requires Run(ws) && i < |ws| && (forall t :: !CanStep(ws[i], t))
    requires ws[0].producers * ws[0].quota == Wanted(ws[0])
    ensures AllDone(ws[i])
    ensures forall v :: multiset(ws[i].consumed)[v] == if 0 <= v < Wanted(ws[0]) then 1 else 0
  {
    hide Run, CanStep, AllDone, Inv, Left, Upto;
    ExactlyOnce(ws, i);
    HasSlots(ws);
    assert Balanced(ws[0].producers, ws[0].quota, Wanted(ws[0]), ws[0].chan.capacity);
    Pigeonhole(multiset(ws[i].consumed), Wanted(ws[0]));
  }

  lemma HasSlots(ws: seq<World>)
    requires Run(ws)
    ensures ws[0].chan.capacity > 0
  {
    hide Next, Init;
  }

  lemma Pigeonhole(m: multiset<int>, n: nat)
    requires |m| == n && forall v :: m[v] <= if 0 <= v < n then 1 else 0
    ensures forall v :: m[v] == if 0 <= v < n then 1 else 0
  {
    hide Upto;
    UptoSize(n);
    forall v ensures Upto(n)[v] == (if 0 <= v < n then 1 else 0) && m[v] <= Upto(n)[v] { UptoOnce(n, v); }
    assert |Upto(n) - m| == 0;
  }

  /** The repository's own sizes, two producers with a quota of half the total each: every run that
      cannot go on has ended properly if and only if the total is even. */
  lemma HalfQuota(ws: seq<World>, i: nat)
    requires Run(ws) && i < |ws| && forall t :: !CanStep(ws[i], t)
    requires ws[0].producers == 2 < |ws[0].work| && ws[0].quota == ws[0].total / 2
    ensures AllDone(ws[i]) <==> ws[0].total % 2 == 0
  {
    ExactlyOnce(ws, i);
    hide Run, CanStep, AllDone;
  }

  /** Two producers, one consumer, one item: the consumer has asked and is in state x. */
  function Asked(x: Work): World {
    Init(2, 1, 0, 1, 1, [0]).(counts := LockMutex(NewMutex(), 2), work := [Produce(0), Produce(0), x])
  }

  lemma FirstAsk()
    ensures Next(Init(2, 1, 0, 1, 1, [0]), Asked(AskOwn))
  {
    var w := Init(2, 1, 0, 1, 1, [0]);
    assert CanStep(w, 2) && Apply(w, 2) == Asked(AskOwn);
  }

  lemma SecondAsk()
    ensures Next(Asked(AskOwn), Asked(AskLoad)) && Next(Asked(AskLoad), Asked(AskStore(0)))
  {
    assert CanStep(Asked(AskOwn), 2) && Apply(Asked(AskOwn), 2) == Asked(AskLoad);
    assert CanStep(Asked(AskLoad), 2) && Apply(Asked(AskLoad), 2) == Asked(AskStore(0));
  }

  /** It has been admitted and is in call state p. */
  function Admits(p: C.Pc, messages: Sem<int>): World {
    var w := Asked(Taking);
    w.(count := 1, counts := UnlockMutex(w.counts), chan := w.chan.(pc := [C.Idle, C.Idle, p], messages := messages))
  }

  lemma LastAsk()
    ensures Next(Asked(AskStore(0)), Asked(AskTaken).(count := 1))
    ensures Next(Asked(AskTaken).(count := 1), Admits(C.RecvWait, NewSem(0)))
  {
    var (w3, w4) := (Asked(AskStore(0)), Asked(AskTaken).(count := 1));
    assert CanStep(w3, 2) && Apply(w3, 2) == w4;
    assert CanStep(w4, 2) && Apply(w4, 2) == Admits(C.RecvWait, NewSem(0));
  }

  lemma AsksInVain()
    ensures Next(Admits(C.RecvWait, NewSem(0)), Admits(C.RecvQueued, WaitSem(NewSem(0), 2)))
  {
    var (w5, w6) := (Admits(C.RecvWait, NewSem(0)), Admits(C.RecvQueued, WaitSem(NewSem(0), 2)));
    assert CanStep(w5, 2) && Apply(w5, 2) == w6;
  }

  lemma WaitsForEver(w: World, t: int)
    requires w.work == [Produce(0), Produce(0), Taking] && w.quota == 0 && |w.chan.pc| == 3 && w.chan.pc[2] == C.RecvQueued
    ensures !CanStep(w, t)
  {
    hide C.Sizes;
  }

  lemma SevenStates(a: World, b: World, c: World, d: World, e: World, f: World, g: World)
    requires Starts(a) && Next(a, b) && Next(b, c) && Next(c, d) && Next(d, e) && Next(e, f) && Next(f, g)
    ensures Run([a, b, c, d, e, f, g])
  {
    hide Starts, Next;
  }

  lemma StartsSmall()
    ensures Starts(Init(2, 1, 0, 1, 1, [0]))
  {
    var w := Init(2, 1, 0, 1, 1, [0]);
    assert |w.work| == 3 && w.chan.capacity == 1 && w.chan.buffer == [0];
  }

  /** A total of one: neither producer has anything to do, and the consumer waits for ever. */
  lemma OneItemHangs() returns (ws: seq<World>)
    ensures Run(ws) && ws[0].producers == 2 && ws[0].quota == ws[0].total / 2
    ensures var w := ws[|ws| - 1]; (forall t :: !CanStep(w, t)) && !AllDone(w)
  {
    hide Next, CanStep, Asked, Admits, Run, Starts, AllDone;
    var (w0, w) := (Init(2, 1, 0, 1, 1, [0]), Admits(C.RecvQueued, WaitSem(NewSem(0), 2)));
    StartsSmall();
    FirstAsk();
    SecondAsk();
    LastAsk();
    AsksInVain();
    InVain();
    var (w1, w2, w3, w4, w5) := (Asked(AskOwn), Asked(AskLoad), Asked(AskStore(0)), Asked(AskTaken).(count := 1),
                                 Admits(C.RecvWait, NewSem(0)));
    SevenStates(w0, w1, w2, w3, w4, w5, w);
    ws := [w0, w1, w2, w3, w4, w5, w];
  }

  lemma InVain()
    ensures var w := Admits(C.RecvQueued, WaitSem(NewSem(0), 2)); (forall t :: !CanStep(w, t)) && !AllDone(w)
  {
    var w := Admits(C.RecvQueued, WaitSem(NewSem(0), 2));
    assert w.work == [Produce(0), Produce(0), Taking] && w.quota == 0 && w.chan.pc == [C.Idle, C.Idle, C.RecvQueued];
    hide CanStep, Admits;
    forall t ensures !CanStep(w, t) { WaitsForEver(w, t); }
    assert w.work[2] == Taking;
  }
}
