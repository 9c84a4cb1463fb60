/** How the M:N runtime comes to its end: once every thread has finished, every virtual processor leaves its loop
    and uthread_mn_run returns. */
module Shutdown {
  import opened Basics
  import opened WorkStealing

  // ----- nobody has anything left -----

  /** A position that needs a thread that has not finished. */
  predicate NeedsThread(c: At) {
    || c.Dispatch? || c.Run? || c.PutBody? || c.GcBody? || c.Make? || c.AddBody? || c.PubBody?
    || c.VictimLoop? || c.AppendBody? || (c.DeqBody? && c.stolen)
  }

  lemma QueueEmpty(w: World, v: int)
    requires Inv(w) && AllOver(w.state) && 0 <= v < |w.vps|
    ensures w.vps[v].queue == [] && w.vps[v].count == 0
  {
    assert Books(w) && VpOk(w.vps[v].queue, w.vps[v].count, Core(w.vps[v].at), v, |w.vps|);
    if w.vps[v].queue != [] {
      assert w.vps[v].queue[0] in w.vps[v].queue;
      TokenLive(w, v, w.vps[v].queue[0]);
    }
    hide Inv, Books;
  }

  lemma NothingInHand(w: World, v: int, t: Tid)
    requires Inv(w) && AllOver(w.state) && 0 <= v < |w.vps|
    ensures !Has(Core(w.vps[v].at), t)
  {
    assert Books(w);
    hide Inv, Books, Has, Core;
    if Has(Core(w.vps[v].at), t) { TokenLive(w, v, t); }
  }

  lemma NeedsSome(c: At)
    requires ChainOk(c)
    ensures NeedsThread(c) && !c.VictimLoop? && !c.DeqBody? ==> exists t :: Has(c, t)
  {
    if c.Dispatch? || c.Run? || c.PutBody? {
      assert Has(c, c.t);
    } else if c.GcBody? || c.Make? || c.AddBody? || c.PubBody? {
      assert Has(c, c.c);
    } else if c.AppendBody? {
      assert Has(c, c.chain[0]);
    }
  }

  lemma NobodyNeeds(w: World, v: int)
    requires Inv(w) && AllOver(w.state) && 0 <= v < |w.vps|
    ensures !NeedsThread(Core(w.vps[v].at))
  {
    var c := Core(w.vps[v].at);
    QueueEmpty(w, v);
    assert VpOk(w.vps[v].queue, w.vps[v].count, c, v, |w.vps|);
    NeedsSome(c);
    LoopIdle(w, v);
    hide Inv, AllOver, Core, Has;
    forall t ensures !Has(c, t) { NothingInHand(w, v, t); }
  }

  /** A thief in its loop has a victim with threads. */
  lemma LoopIdle(w: World, v: int)
    requires Inv(w) && AllOver(w.state) && 0 <= v < |w.vps|
    ensures !Core(w.vps[v].at).VictimLoop?
  {
    var a := w.vps[v].at;
    if Core(a).VictimLoop? {
      assert Nested(a, v) && VpOk(w.vps[v].queue, w.vps[v].count, Core(a), v, |w.vps|) && LootAt(w.vps, a);
      assert a.VictimLoop?;
      QueueEmpty(w, a.u);
      hide Inv, AllOver;
    }
  }

  /** A virtual processor that has been told to stop leaves at its next test of `running`; one that has not goes on with
      its own queue. */
  lemma LeavesWhenTold(w: World, v: int, k: Choice)
    requires CanStep(w, v) && w.vps[v].at.Top?
    ensures |Step(w, v, k).vps| == |w.vps|
    ensures Step(w, v, k).vps[v].at == if w.vps[v].running then Acquire(QueueLock(v), DeqBody(false)) else Gone
  {
    hide Section;
  }

  // ----- every step brings the end closer -----

  function Down(n: nat, i: nat): nat { if i < n then n - i else 0 }

  /** How many steps a virtual processor at a can still make, with n of them and l threads on the global list. */
  function Rank(a: At, n: nat, l: nat): nat {
    match a
    case Returned => 0
    case Stop(i) => 1 + 2 * Down(n, i)
    case Join(i) => 2 * Down(n, i)
    case Gone => 2 * n
    case ScanAt(rest) => 2 * n + 2 + |rest|
    case ScanBody => 2 * n + 3 + l
    case StealNext(start, i) => 2 * n + 5 + l + 4 * Down(n, i)
    case VictimBody(start, i, u) => 2 * n + 7 + l + 4 * Down(n, i + 1)
    case StealStart => 6 * n + 6 + l
    case ReadyBody => 6 * n + 8 + l
    case DeqBody(stolen) => 6 * n + 11 + l
    case Top => 6 * n + 13 + l
    case Acquire(lock, next) => Rank(next, n, l) + 1
    case Release(lock, next) => Rank(next, n, l) + 1
    case _ => 0
  }

  lemma StealFalls(w: World, v: int)
    requires Inv(w) && AllOver(w.state) && CanStep(w, v) && Stealing(w.vps[v].at) && !NeedsThread(w.vps[v].at)
    ensures |Steal(w, v).vps| == |w.vps| && Steal(w, v).list == w.list
    ensures Rank(Steal(w, v).vps[v].at, |w.vps|, |w.list|) < Rank(w.vps[v].at, |w.vps|, |w.list|)
  {
    QueueEmpty(w, w.vps[v].at.u);
    hide Inv, AllOver;
  }

  lemma LocalFalls(w: World, v: int)
    requires CanStep(w, v) && LockOf(w.vps[v].at, v).Some? && !Stealing(w.vps[v].at) && !NeedsThread(w.vps[v].at)
    requires w.ready == [] && w.vps[v].queue == []
    requires w.vps[v].at.ScanAt? && w.vps[v].at.rest != [] ==> Over(w.state, w.vps[v].at.rest[0])
    ensures |Local(w, v).vps| == |w.vps| && Local(w, v).list == w.list
    ensures Rank(Local(w, v).vps[v].at, |w.vps|, |w.list|) < Rank(w.vps[v].at, |w.vps|, |w.list|)
  {
    var (n, l) := (|w.vps|, |w.list|);
    assert Rank(Acquire(ReadyLock, ReadyBody), n, l) == Rank(ReadyBody, n, l) + 1;
    assert Rank(Acquire(ListLock, ScanBody), n, l) == Rank(ScanBody, n, l) + 1;
    hide Over, Sweep, Down;
  }

  lemma PlainFalls(w: World, v: int, k: Choice)
    requires CanStep(w, v) && LockOf(w.vps[v].at, v).None? && !w.vps[v].at.Acquire? && !w.vps[v].at.Release?
    requires !NeedsThread(w.vps[v].at)
    ensures |Plain(w, v, k).vps| == |w.vps| && Plain(w, v, k).list == w.list
    ensures Rank(Plain(w, v, k).vps[v].at, |w.vps|, |w.list|) < Rank(w.vps[v].at, |w.vps|, |w.list|)
  {
    hide Target, States;
  }

  lemma ReadyEmpty(w: World)
    requires Inv(w) && AllOver(w.state)
    ensures w.ready == []
  {
    assert Books(w);
    hide Inv, Books;
    if w.ready != [] { ReadyLive(w, w.ready[0]); }
  }

  lemma ScanOver(w: World, v: int)
    requires Inv(w) && AllOver(w.state) && 0 <= v < |w.vps| && w.vps[v].at.ScanAt? && w.vps[v].at.rest != []
    ensures Over(w.state, w.vps[v].at.rest[0])
  {
    assert Ranged(w.vps, w.list, w.state);
    hide Inv;
    assert InRange(w.vps[v].at.rest, w.state) && w.vps[v].at.rest[0] in w.vps[v].at.rest;
  }

  lemma OwnFalls(w: World, v: int, k: Choice)
    requires Inv(w) && AllOver(w.state) && CanStep(w, v)
    ensures var r := Step(w, v, k);
      && |r.vps| == |w.vps| && r.list == w.list
      && Rank(r.vps[v].at, |w.vps|, |w.list|) < Rank(w.vps[v].at, |w.vps|, |w.list|)
  {
    var a := w.vps[v].at;
    QueueEmpty(w, v);
    ReadyEmpty(w);
    NobodyNeeds(w, v);
    if a.ScanAt? && a.rest != [] { ScanOver(w, v); }
    hide Inv, AllOver, Steal, Local, Plain, Over, NeedsThread;
    if !a.Acquire? && !a.Release? {
      CoreBody(a);
      if LockOf(a, v).None? { PlainFalls(w, v, k); } else if Stealing(a) { StealFalls(w, v); } else { LocalFalls(w, v); }
    }
  }

  /** The steps that all of them together can still make. */
  ghost function Left(vps: seq<Vp>, n: nat, l: nat): nat {
    if vps == [] then 0 else Rank(vps[0].at, n, l) + Left(vps[1..], n, l)
  }

  lemma {:induction false} LeftFalls(vps: seq<Vp>, vps': seq<Vp>, v: int, n: nat, l: nat)
    requires |vps'| == |vps| && forall x | 0 <= x < |vps| && x != v :: vps'[x].at == vps[x].at
    requires 0 <= v < |vps| ==> Rank(vps'[v].at, n, l) < Rank(vps[v].at, n, l)
    ensures if 0 <= v < |vps| then Left(vps', n, l) < Left(vps, n, l) else Left(vps', n, l) == Left(vps, n, l)
  {
    if vps != [] { LeftFalls(vps[1..], vps'[1..], v - 1, n, l); }
  }

  lemma OthersAt(w: World, v: int, k: Choice)
    requires Inv(w) && CanStep(w, v)
    ensures |Step(w, v, k).vps| == |w.vps| && 0 <= v < |w.vps|
    ensures forall x | 0 <= x < |w.vps| && x != v :: Step(w, v, k).vps[x].at == w.vps[x].at
  {
    assert VpOk(w.vps[v].queue, w.vps[v].count, Core(w.vps[v].at), v, |w.vps|);
    StepShape(w, v, k);
    hide Inv, Step, VpOk;
  }

  lemma StepFalls(w: World, v: int, k: Choice)
    requires Inv(w) && AllOver(w.state) && CanStep(w, v)
    ensures var r := Step(w, v, k);
      && |r.vps| == |w.vps| && r.list == w.list && AllOver(r.state)
      && Left(r.vps, |w.vps|, |w.list|) < Left(w.vps, |w.vps|, |w.list|)
  {
    assert Books(w);
    hide Inv, AllOver, Step, CanStep, Rank, Books;
    AllOverStable(w, v, k);
    OwnFalls(w, v, k);
    OthersAt(w, v, k);
    LeftFalls(w.vps, Step(w, v, k).vps, v, |w.vps|, |w.list|);
  }

  /** The runtime comes to its end: from a state in which every thread has finished, whatever the processors are
      doing, no run makes more than Left further steps; there is no step that does not count, since a processor that
      spins on a lock makes none. */
  lemma {:induction false} EndsSoon(ws: seq<World>, i: nat, j: nat)
    requires IsRun(ws) && i <= j < |ws| && AllOver(ws[i].state)
    ensures AllOver(ws[j].state) && |ws[j].vps| == |ws[i].vps| && ws[j].list == ws[i].list
    ensures Left(ws[j].vps, |ws[i].vps|, |ws[i].list|) + (j - i) <= Left(ws[i].vps, |ws[i].vps|, |ws[i].list|)
    decreases j
  {
    hide Inv, AllOver, CanStep, Step, Left;
    if i < j {
      EndsSoon(ws, i, j - 1);
      RunKeeps(ws, j - 1);
      assert WorkStealing.Next(ws[j - 1], ws[j]);
      var v, k :| CanStep(ws[j - 1], v) && ws[j] == Step(ws[j - 1], v, k);
      StepFalls(ws[j - 1], v, k);
    }
  }

  // ----- where it ends -----

  lemma Unlocked(ws: seq<World>, i: nat)
    requires IsRun(ws) && i < |ws| && forall v :: !CanStep(ws[i], v)
    ensures ws[i].locks == map[]
  {
    hide IsRun, CanStep;
    if l :| l in ws[i].locks { NoLockCycle(ws, i, l); }
  }

  lemma EndPlaces(w: World, v: int)
    requires Inv(w) && 0 <= v < |w.vps| && (w.vps[v].at.Returned? || w.vps[v].at.Join?)
    ensures v == 0
  {
    assert VpOk(w.vps[v].queue, w.vps[v].count, Core(w.vps[v].at), v, |w.vps|);
    CoreBody(w.vps[v].at);
    hide Inv, Core;
  }

  /** No deadlock: in a state of a run in which no virtual processor can make a step, uthread_mn_run has returned, every
      other processor has been told to stop and has left its loop, and every thread has finished. */
  lemma AllReturn(ws: seq<World>, i: nat)
    requires IsRun(ws) && i < |ws| && 0 < |ws[0].vps| && forall v :: !CanStep(ws[i], v)
    ensures |ws[i].vps| == |ws[0].vps| && ws[i].vps[0].at.Returned? && AllOver(ws[i].state)
    ensures forall v | 0 < v < |ws[i].vps| :: ws[i].vps[v].at.Gone? && !ws[i].vps[v].running
  {
    var w := ws[i];
    RunKeeps(ws, i);
    RunSize(ws, i);
    Unlocked(ws, i);
    assert Joined(w.vps);
    forall v | 0 < v < |w.vps| ensures w.vps[v].at.Gone? {
      WhoWaits(ws, i, v);
      if w.vps[v].at.Returned? || w.vps[v].at.Join? { EndPlaces(w, v); }
      hide Inv, IsRun, CanStep;
    }
    WhoWaits(ws, i, 0);
    FirstReturned(w);
    ReturnedOver(ws, i);
    hide Inv, IsRun, CanStep;
  }

  lemma FirstReturned(w: World)
    requires Inv(w) && |w.vps| > 0 && !CanStep(w, 0) && w.locks == map[]
    requires forall v | 0 < v < |w.vps| :: w.vps[v].at.Gone?
    requires w.vps[0].at.Returned? || (w.vps[0].at.Join? && w.vps[0].at.i < |w.vps| && !w.vps[w.vps[0].at.i].at.Gone?)
    ensures w.vps[0].at.Returned?
  {
    assert VpOk(w.vps[0].queue, w.vps[0].count, Core(w.vps[0].at), 0, |w.vps|);
    if w.vps[0].at.Join? { CoreBody(w.vps[0].at); }
    hide Inv, CanStep;
  }

  lemma ReturnedOver(ws: seq<World>, i: nat)
    requires IsRun(ws) && i < |ws| && 0 < |ws[0].vps|
    ensures |ws[i].vps| == |ws[0].vps| && (ws[i].vps[0].at.Returned? ==> AllOver(ws[i].state))
  {
    QuiescenceSound(ws, i);
    if ws[i].vps[0].at.Returned? { CoreBody(ws[i].vps[0].at); }
    hide IsRun, Core;
  }

  /** Started with at least one processor: when uthread_mn_run returns, everything is over, and every other processor
      has left; and from any state in which everything is over it does return, in a bounded number of steps. */
  lemma ReturnsExactly(ws: seq<World>, n: nat, k: nat, i: nat, j: nat)
    requires Started(ws, n, k) && 0 < n && i <= j < |ws|
    ensures |ws[j].vps| == n
    ensures ws[j].vps[0].at.Returned? ==>
      AllOver(ws[j].state) && forall v | 0 < v < n :: ws[j].vps[v].at.Gone? && !ws[j].vps[v].running
    ensures AllOver(ws[i].state) ==> j - i <= Left(ws[i].vps, n, |ws[i].list|)
    ensures (forall v :: !CanStep(ws[j], v)) ==> ws[j].vps[0].at.Returned?
  {
    StartedRuns(ws, n, k);
    hide Started;
    ReturnedOver(ws, j);
    RunKeeps(ws, j);
    RunSize(ws, i);
    assert Joined(ws[j].vps);
    if AllOver(ws[i].state) { EndsSoon(ws, i, j); }
    if forall v :: !CanStep(ws[j], v) { AllReturn(ws, j); }
    hide Inv, IsRun, CanStep, AllOver, Left;
  }
}
