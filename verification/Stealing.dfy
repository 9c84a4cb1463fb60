/** Theft in the M:N run loop: what a theft does wherever one happens, that the program's own runs never come to
    one, and what follows for its threads. */
module Stealing {
  import opened Basics
  import opened WorkStealing

  // ----- no theft -----

  /** v works for a thread, which is not in its queue meanwhile. */
  predicate Busy(c: At) {
    c.Dispatch? || c.Run? || c.PutBody? || c.GcBody? || c.Make? || c.AddBody? || c.PubBody?
  }

  /** No more than one thread to take, none at all while busy, and no theft under way. */
  predicate Tame(p: Vp) {
    var c := Core(p.at);
    |p.queue| <= 1 && (Busy(c) ==> p.queue == []) && !c.VictimLoop? && !c.AppendBody? && !Stocked(c)
  }

  ghost predicate AllTame(vps: seq<Vp>) {
    forall v | 0 <= v < |vps| :: Tame(vps[v])
  }

  lemma StealTame(w: World, v: int)
    requires CanStep(w, v) && Stealing(w.vps[v].at) && AllOk(w.vps) && AllTame(w.vps)
    ensures var r := Steal(w, v); |r.vps| == |w.vps| && Tame(r.vps[v])
  {
    var a := w.vps[v].at;
    CoreBody(a);
    assert Tame(w.vps[v]) && a.VictimBody?;
    assert VpOk(w.vps[a.u].queue, w.vps[a.u].count, Core(w.vps[a.u].at), a.u, |w.vps|) && Tame(w.vps[a.u]);
    hide AllOk, AllTame;
  }

  lemma LocalTame(w: World, v: int)
    requires CanStep(w, v) && LockOf(w.vps[v].at, v).Some? && !Stealing(w.vps[v].at)
    requires VpOk(w.vps[v].queue, w.vps[v].count, Core(w.vps[v].at), v, |w.vps|) && Tame(w.vps[v])
    ensures var r := Local(w, v); |r.vps| == |w.vps| && Tame(r.vps[v])
  {
    hide Over, Sweep;
  }

  lemma PlainTame(w: World, v: int, k: Choice)
    requires CanStep(w, v) && LockOf(w.vps[v].at, v).None? && !w.vps[v].at.Acquire? && !w.vps[v].at.Release?
    requires Tame(w.vps[v]) && VpOk(w.vps[v].queue, w.vps[v].count, Core(w.vps[v].at), v, |w.vps|)
    ensures var r := Plain(w, v, k); |r.vps| == |w.vps| && Tame(r.vps[v])
  {
    CoreBody(w.vps[v].at);
    hide Target;
  }

  lemma OwnTame(w: World, v: int, k: Choice)
    requires Inv(w) && CanStep(w, v) && AllTame(w.vps)
    ensures 0 <= v < |w.vps| && Tame(w.vps[v])
    ensures var r := Step(w, v, k); |r.vps| == |w.vps| && Tame(r.vps[v])
  {
    var a := w.vps[v].at;
    assert Nested(a, v) && VpOk(w.vps[v].queue, w.vps[v].count, Core(a), v, |w.vps|) && Tame(w.vps[v]);
    hide Inv, VpOk, Tame, Core, Nested, Local, Steal, Plain;
    if a.Acquire? || a.Release? {
      CoreSame(a, v);
      SameCoreTame(w.vps[v], w.vps[v].(at := a.next));
    } else if LockOf(a, v).None? {
      PlainTame(w, v, k);
    } else if Stealing(a) {
      StealTame(w, v);
    } else {
      LocalTame(w, v);
    }
  }

  lemma SameCoreTame(p: Vp, p': Vp)
    requires Tame(p) && p'.queue == p.queue && Core(p'.at) == Core(p.at)
    ensures Tame(p')
  {
  }

  /** In a tame state a step changes no other virtual processor, except that it may tell it to stop. */
  lemma OthersSame(w: World, v: int, k: Choice, x: int)
    requires Inv(w) && CanStep(w, v) && Tame(w.vps[v]) && 0 <= x < |w.vps| && x != v
    ensures var r := Step(w, v, k);
      |r.vps| == |w.vps| && r.vps[x].queue == w.vps[x].queue && r.vps[x].at == w.vps[x].at
  {
    assert VpOk(w.vps[v].queue, w.vps[v].count, Core(w.vps[v].at), v, |w.vps|);
    StepShape(w, v, k);
    assert !w.vps[v].at.VictimLoop?;
    hide Inv, Step, CanStep, VpOk;
  }

  lemma TameStep(w: World, v: int, k: Choice)
    requires Inv(w) && CanStep(w, v) && AllTame(w.vps)
    ensures AllTame(Step(w, v, k).vps)
  {
    hide Inv, Step, CanStep, Tame;
    OwnTame(w, v, k);
    forall x | 0 <= x < |w.vps| ensures Tame(Step(w, v, k).vps[x]) {
      if x != v {
        OthersSame(w, v, k, x);
        SameCoreTame(w.vps[x], Step(w, v, k).vps[x]);
      }
    }
  }

  /** From a tame state no theft ever begins. */
  lemma {:induction false} TameForGood(ws: seq<World>, i: nat)
    requires IsRun(ws) && AllTame(ws[0].vps) && i < |ws|
    ensures AllTame(ws[i].vps) && Inv(ws[i])
    decreases i
  {
    hide Inv, CanStep, Step, AllTame;
    RunKeeps(ws, i);
    if i > 0 {
      TameForGood(ws, i - 1);
      assert WorkStealing.Next(ws[i - 1], ws[i]);
      var v, k :| CanStep(ws[i - 1], v) && ws[i] == Step(ws[i - 1], v, k);
      TameStep(ws[i - 1], v, k);
    }
  }

  lemma StartsTame(ws: seq<World>, n: nat, k: nat)
    requires Started(ws, n, k)
    ensures IsRun(ws) && AllTame(ws[0].vps) && |ws[0].vps| == n
  {
    StartedRuns(ws, n, k);
    hide IsRun, WorkStealing.Next;
  }

  /** The program never steals: in every state of every run that starts with empty local queues each of them has
      at most one thread, and none while its processor is busy, so no thief gets past the test for a second
      thread, and none comes to the append or to the vp_dequeue behind it. */
  lemma NeverSteals(ws: seq<World>, n: nat, k: nat, i: nat, v: int)
    requires Started(ws, n, k) && i < |ws| && 0 <= v < |ws[i].vps|
    ensures var (q, c) := (ws[i].vps[v].queue, Core(ws[i].vps[v].at));
      |q| <= 1 && (Busy(c) ==> q == []) && !c.VictimLoop? && !c.AppendBody? && !(c.DeqBody? && c.stolen)
  {
    StartsTame(ws, n, k);
    TameForGood(ws, i);
    assert Tame(ws[i].vps[v]);
  }

  // ----- threads stay where they are -----

  /** v works for t. */
  predicate Carries(c: At, t: Tid) {
    || ((c.Dispatch? || c.Run? || c.PutBody?) && c.t == t)
    || ((c.GcBody? || c.Make? || c.AddBody? || c.PubBody?) && c.c == t)
  }

  predicate Holds(p: Vp, t: Tid) { t in p.queue || Carries(Core(p.at), t) }

  lemma HolderLive(w: World, v: int, t: Tid)
    requires Inv(w) && 0 <= v < |w.vps| && Holds(w.vps[v], t)
    ensures 0 <= t < |w.state| && w.state[t] != Finished
  {
    assert t in w.vps[v].queue || Has(Core(w.vps[v].at), t);
    assert Books(w);
    hide Inv, Holds, Books;
    TokenLive(w, v, t);
  }

  lemma LocalHolds(w: World, v: int, t: Tid)
    requires CanStep(w, v) && LockOf(w.vps[v].at, v).Some? && !Stealing(w.vps[v].at) && Tame(w.vps[v])
    requires Holds(w.vps[v], t)
    ensures var r := Local(w, v); |r.vps| == |w.vps| && Holds(r.vps[v], t)
  {
    CoreBody(w.vps[v].at);
    hide Over, Sweep;
  }

  lemma PlainHolds(w: World, v: int, k: Choice, t: Tid)
    requires CanStep(w, v) && LockOf(w.vps[v].at, v).None? && !w.vps[v].at.Acquire? && !w.vps[v].at.Release?
    requires Holds(w.vps[v], t)
    ensures var r := Plain(w, v, k); |r.vps| == |w.vps| && (Holds(r.vps[v], t) || Over(r.state, t))
  {
    CoreBody(w.vps[v].at);
    hide Target;
  }

  lemma ThiefHasNone(p: Vp, v: int, n: int, t: Tid)
    requires VpOk(p.queue, p.count, Core(p.at), v, n)
    ensures Stealing(p.at) ==> !Holds(p, t)
  {
  }

  lemma OwnHolds(w: World, v: int, k: Choice, t: Tid)
    requires Inv(w) && CanStep(w, v) && Tame(w.vps[v]) && Holds(w.vps[v], t)
    ensures var r := Step(w, v, k); |r.vps| == |w.vps| && (Holds(r.vps[v], t) || Over(r.state, t))
  {
    var a := w.vps[v].at;
    assert Nested(a, v) && VpOk(w.vps[v].queue, w.vps[v].count, Core(a), v, |w.vps|);
    ThiefHasNone(w.vps[v], v, |w.vps|, t);
    hide Inv, VpOk, Tame, Core, Nested, Local, Steal, Plain, Carries;
    if a.Acquire? || a.Release? {
      CoreSame(a, v);
    } else if LockOf(a, v).None? {
      PlainHolds(w, v, k, t);
    } else {
      LocalHolds(w, v, t);
    }
  }

  lemma StepHolds(w: World, v: int, k: Choice, x: int, t: Tid)
    requires Inv(w) && CanStep(w, v) && AllTame(w.vps) && 0 <= x < |w.vps| && Holds(w.vps[x], t)
    ensures var r := Step(w, v, k); |r.vps| == |w.vps| && (Holds(r.vps[x], t) || Over(r.state, t))
  {
    assert Tame(w.vps[v]);
    hide Inv, Step, CanStep, Tame, Carries, Core;
    if x == v { OwnHolds(w, v, k, t); } else { OthersSame(w, v, k, x); }
  }

  lemma OverStays(w: World, v: int, k: Choice, t: Tid)
    requires Inv(w) && CanStep(w, v) && Over(w.state, t)
    ensures Over(Step(w, v, k).state, t)
  {
    assert Books(w);
    hide Inv, Books, Step;
    BooksRipe(w, v);
    OverStable(w, v, k, t);
  }

  lemma {:induction false} StaysPut(ws: seq<World>, i: nat, j: nat, v: int, t: Tid)
    requires IsRun(ws) && AllTame(ws[0].vps) && i <= j < |ws| && 0 <= v < |ws[i].vps| && Holds(ws[i].vps[v], t)
    ensures |ws[j].vps| == |ws[i].vps| && (Holds(ws[j].vps[v], t) || Over(ws[j].state, t))
    decreases j
  {
    hide Inv, CanStep, Step, AllTame, Holds, Over;
    RunSize(ws, i);
    RunSize(ws, j);
    if i < j {
      StaysPut(ws, i, j - 1, v, t);
      TameForGood(ws, j - 1);
      assert WorkStealing.Next(ws[j - 1], ws[j]);
      var u, k :| CanStep(ws[j - 1], u) && ws[j] == Step(ws[j - 1], u, k);
      if Over(ws[j - 1].state, t) { OverStays(ws[j - 1], u, k, t); } else { StepHolds(ws[j - 1], u, k, v, t); }
    }
  }

  lemma OneHolder(w: World, u: int, v: int, t: Tid)
    requires Inv(w) && 0 <= u < |w.vps| && 0 <= v < |w.vps| && Holds(w.vps[u], t) && Holds(w.vps[v], t)
    ensures u == v
  {
    assert Books(w);
    hide Inv, UnionF, Of, Books;
    if u != v {
      HoldsToken(w.vps[u], t);
      HoldsToken(w.vps[v], t);
      hide ReadyTokens, RunTokens, Holds;
      TokensOnce(w, t);
      UnionFTwo(w.vps, ReadyTokens, u, v, t);
      UnionFTwo(w.vps, RunTokens, u, v, t);
    }
  }

  lemma HoldsToken(p: Vp, t: Tid)
    requires Holds(p, t)
    ensures ReadyTokens(p)[t] + RunTokens(p)[t] >= 1
  {
    if t !in p.queue { HasToken(Core(p.at), t); }
    hide Core;
    assert t in ReadyTokens(p) || t in RunTokens(p);
  }

  lemma TokensOnce(w: World, t: Tid)
    requires Books(w)
    ensures UnionF(w.vps, ReadyTokens)[t] + UnionF(w.vps, RunTokens)[t] <= 1
  {
    hide UnionF, Of, ReadyTokens, RunTokens;
    OfOnce(w.state, Ready, t);
    OfOnce(w.state, Running, t);
    assert (multiset(w.ready) + UnionF(w.vps, ReadyTokens))[t] == multiset(w.ready)[t] + UnionF(w.vps, ReadyTokens)[t];
  }

  /** No thread ever changes processor: once it has been dispatched somewhere, nobody else has it at any time. */
  lemma NeverMoves(ws: seq<World>, n: nat, k: nat, i: nat, j: nat, u: int, v: int, t: Tid)
    requires Started(ws, n, k) && i <= j < |ws| && 0 <= v < n && 0 <= u < n
    ensures |ws[i].vps| == |ws[j].vps| == n
    ensures Holds(ws[i].vps[v], t) && Holds(ws[j].vps[u], t) ==> u == v
  {
    hide Started, Inv, AllTame, Holds, WorkStealing.Next;
    StartsTame(ws, n, k);
    RunSize(ws, i);
    RunSize(ws, j);
    if Holds(ws[i].vps[v], t) && Holds(ws[j].vps[u], t) {
      StaysPut(ws, i, j, v, t);
      RunKeeps(ws, j);
      HolderLive(ws[j], u, t);
      OneHolder(ws[j], u, v, t);
    }
  }

  // ----- a yielding thread goes on -----

  /** t is the next thread that v dispatches. */
  predicate Awaits(p: Vp, t: Tid) {
    var c := Core(p.at);
    c == PutBody(t) || ((c == Top || c == DeqBody(false)) && p.queue == [t]) || c == Dispatch(t)
  }

  lemma LocalAwaits(w: World, v: int, t: Tid)
    requires CanStep(w, v) && LockOf(w.vps[v].at, v).Some? && !Stealing(w.vps[v].at) && Tame(w.vps[v]) && Awaits(w.vps[v], t)
    ensures var r := Local(w, v); |r.vps| == |w.vps| && Awaits(r.vps[v], t)
  {
    CoreBody(w.vps[v].at);
    hide Over, Sweep;
  }

  lemma TopAwaits(w: World, v: int, k: Choice, t: Tid)
    requires CanStep(w, v) && w.vps[v].at.Top? && w.vps[v].running && Awaits(w.vps[v], t)
    ensures var r := Plain(w, v, k); |r.vps| == |w.vps| && Awaits(r.vps[v], t)
  {
  }

  /** Whoever has a thread has not been told to stop. */
  lemma HolderRuns(w: World, v: int, t: Tid)
    requires Inv(w) && 0 <= v < |w.vps| && Holds(w.vps[v], t)
    ensures w.vps[v].running
  {
    HolderLive(w, v, t);
    assert Quiet(w.vps, w.state);
    hide Inv, Holds, Left, Core;
  }

  lemma OwnAwaits(w: World, v: int, k: Choice, t: Tid)
    requires Inv(w) && CanStep(w, v) && Tame(w.vps[v]) && Awaits(w.vps[v], t) && !w.vps[v].at.Dispatch?
    ensures var r := Step(w, v, k); |r.vps| == |w.vps| && Awaits(r.vps[v], t)
  {
    var a := w.vps[v].at;
    assert Nested(a, v);
    if a.Acquire? || a.Release? {
      CoreSame(a, v);
      hide Inv, Tame, Core, Nested, Local, Steal, Plain;
    } else {
      CoreBody(a);
      assert a.Top? ==> Holds(w.vps[v], t);
      hide Inv, Tame, Core, Nested, Local, Steal, Plain, Holds;
      if a.Top? {
        HolderRuns(w, v, t);
        TopAwaits(w, v, k, t);
      } else {
        LocalAwaits(w, v, t);
      }
    }
  }

  lemma {:induction false} KeepsAwaiting(ws: seq<World>, i: nat, j: nat, v: int, t: Tid)
    requires IsRun(ws) && AllTame(ws[0].vps) && i <= j < |ws| && 0 <= v < |ws[0].vps|
    requires forall h | 0 <= h < |ws| :: |ws[h].vps| == |ws[0].vps|
    requires Awaits(ws[i].vps[v], t) && forall h | i <= h < j :: !ws[h].vps[v].at.Dispatch?
    ensures Awaits(ws[j].vps[v], t)
    decreases j
  {
    hide Inv, CanStep, Step, AllTame, Awaits;
    if i < j {
      KeepsAwaiting(ws, i, j - 1, v, t);
      TameForGood(ws, j - 1);
      assert WorkStealing.Next(ws[j - 1], ws[j]);
      var u, k :| CanStep(ws[j - 1], u) && ws[j] == Step(ws[j - 1], u, k);
      AwaitsStep(ws[j - 1], u, k, v, t);
    }
  }

  lemma AwaitsStep(w: World, u: int, k: Choice, v: int, t: Tid)
    requires Inv(w) && CanStep(w, u) && AllTame(w.vps) && 0 <= v < |w.vps| && Awaits(w.vps[v], t) && !w.vps[v].at.Dispatch?
    ensures |Step(w, u, k).vps| == |w.vps| && Awaits(Step(w, u, k).vps[v], t)
  {
    assert Tame(w.vps[u]);
    hide Inv, Step, CanStep, AllTame, Tame, Core;
    if u == v { OwnAwaits(w, v, k, t); } else { OthersSame(w, u, k, v); }
  }

  /** A thread that yields is the very next thread its processor dispatches, whatever waits in the shared queue. */
  lemma YieldsToItself(ws: seq<World>, n: nat, k: nat, i: nat, j: nat, v: int)
    requires Started(ws, n, k) && i <= j < |ws| && 0 <= v < n
    requires |ws[i].vps| == n && ws[i].vps[v].at.PutBody?
    requires forall h | i <= h < j && v < |ws[h].vps| :: !ws[h].vps[v].at.Dispatch?
    ensures |ws[j].vps| == n && (ws[j].vps[v].at.Dispatch? ==> ws[j].vps[v].at.t == ws[i].vps[v].at.t)
  {
    StartsTame(ws, n, k);
    hide Started, Inv, AllTame, WorkStealing.Next, IsRun;
    forall h | 0 <= h < |ws| ensures |ws[h].vps| == n { RunSize(ws, h); }
    CoreBody(ws[i].vps[v].at);
    KeepsAwaiting(ws, i, j, v, ws[i].vps[v].at.t);
    if ws[j].vps[v].at.Dispatch? { CoreBody(ws[j].vps[v].at); }
  }

  // ----- the shared queue -----

  /** Only a processor that has nothing takes from the shared queue; everything else appends. */
  lemma ReadyGrows(w: World, v: int, k: Choice)
    requires CanStep(w, v)
    ensures w.ready <= Step(w, v, k).ready || w.vps[v].at.ReadyBody?
  {
    var a := w.vps[v].at;
    hide Over, Sweep, Target, Onward, States, CanStep;
  }

  lemma ReadyStep(w: World, v: int, k: Choice, t: Tid)
    requires Inv(w) && CanStep(w, v) && Holds(w.vps[v], t)
    ensures w.ready <= Step(w, v, k).ready
  {
    ReadyGrows(w, v, k);
    assert VpOk(w.vps[v].queue, w.vps[v].count, Core(w.vps[v].at), v, |w.vps|);
    if w.vps[v].at.ReadyBody? { CoreBody(w.vps[v].at); }
    hide Inv, CanStep, Step, Core;
  }

  /** Every processor has a thread, and none of these threads has finished by state. */
  ghost predicate Occupied(w: World, state: seq<State>) {
    forall v | 0 <= v < |w.vps| :: Occupies(w.vps[v], state)
  }

  ghost predicate Occupies(p: Vp, state: seq<State>) { exists t :: Holds(p, t) && !Over(state, t) }

  lemma {:induction false} StaysOccupied(ws: seq<World>, i: nat, h: nat, j: nat)
    requires IsRun(ws) && AllTame(ws[0].vps) && i <= h <= j < |ws| && Occupied(ws[i], ws[j].state)
    ensures Occupied(ws[h], ws[j].state)
  {
    hide Inv, WorkStealing.Next, AllTame, Holds, IsRun, Over;
    RunSize(ws, i);
    RunSize(ws, h);
    var (w, state) := (ws[h], ws[j].state);
    forall v | 0 <= v < |w.vps| ensures Occupies(w.vps[v], state) {
      assert Occupies(ws[i].vps[v], state);
      var t :| Holds(ws[i].vps[v], t) && !Over(state, t);
      StaysPut(ws, i, h, v, t);
      if Over(ws[h].state, t) { StaysOver(ws, h, j, t); }
      assert Holds(w.vps[v], t) && !Over(state, t);
    }
  }

  lemma {:induction false} StaysOver(ws: seq<World>, i: nat, j: nat, t: Tid)
    requires IsRun(ws) && i <= j < |ws| && Over(ws[i].state, t)
    ensures Over(ws[j].state, t)
    decreases j
  {
    hide Inv, CanStep, Step, Over;
    if i < j {
      StaysOver(ws, i, j - 1, t);
      RunKeeps(ws, j - 1);
      assert WorkStealing.Next(ws[j - 1], ws[j]);
      var u, k :| CanStep(ws[j - 1], u) && ws[j] == Step(ws[j - 1], u, k);
      OverStays(ws[j - 1], u, k, t);
    }
  }

  lemma {:induction false} ReadyWaits(ws: seq<World>, i: nat, h: nat, j: nat)
    requires IsRun(ws) && AllTame(ws[0].vps) && i <= h <= j < |ws| && Occupied(ws[i], ws[j].state)
    ensures ws[i].ready <= ws[h].ready
    decreases h
  {
    hide Inv, CanStep, Step, AllTame, Over, Holds;
    if i < h {
      ReadyWaits(ws, i, h - 1, j);
      StaysOccupied(ws, i, h - 1, j);
      RunKeeps(ws, h - 1);
      assert WorkStealing.Next(ws[h - 1], ws[h]);
      var u, k :| CanStep(ws[h - 1], u) && ws[h] == Step(ws[h - 1], u, k);
      assert 0 <= u < |ws[h - 1].vps| by { StepsInRange(ws[h - 1], u); }
      assert Occupies(ws[h - 1].vps[u], ws[j].state);
      var t :| Holds(ws[h - 1].vps[u], t) && !Over(ws[j].state, t);
      ReadyStep(ws[h - 1], u, k, t);
    }
  }

  lemma StepsInRange(w: World, v: int)
    requires CanStep(w, v)
    ensures 0 <= v < |w.vps|
  {
  }

  /** The shared queue starves: as long as every processor has a thread that does not finish, but may yield any
      number of times, nobody in the shared queue is dispatched, and new threads only queue up behind. */
  lemma SharedQueueWaits(ws: seq<World>, n: nat, k: nat, i: nat, j: nat)
    requires Started(ws, n, k) && i <= j < |ws| && Occupied(ws[i], ws[j].state)
    ensures ws[i].ready <= ws[j].ready
  {
    StartsTame(ws, n, k);
    hide Started, IsRun, AllTame, Occupied;
    ReadyWaits(ws, i, j, j);
  }

  /** Who has been taken from the shared queue up to state j. */
  function Taken(ws: seq<World>, j: nat): seq<Tid>
    requires j < |ws|
  {
    if j == 0 then []
    else Taken(ws, j - 1) + if |ws[j].ready| < |ws[j - 1].ready| then [ws[j - 1].ready[0]] else []
  }

  /** A step takes the first thread of the shared queue and is about to dispatch it, or appends, or leaves the queue alone. */
  lemma ReadyQueue(w: World, v: int, k: Choice)
    requires CanStep(w, v)
    ensures var r := Step(w, v, k);
      if |r.ready| < |w.ready| then
        r.ready == w.ready[1..] && |r.vps| == |w.vps| && w.vps[v].at.ReadyBody?
        && r.vps[v].at == Release(ReadyLock, Dispatch(w.ready[0]))
      else w.ready <= r.ready
  {
    hide Over, Sweep, Target, Onward, States;
  }

  /** The shared queue is served in order: whoever waits at position p of it is exactly the (p + 1)-st to be taken from
      then on. */
  lemma {:induction false} SharedFifo(ws: seq<World>, i: nat, j: nat)
    requires IsRun(ws) && i <= j < |ws|
    ensures Taken(ws, i) + ws[i].ready <= Taken(ws, j) + ws[j].ready
    decreases j
  {
    hide Inv, CanStep, Step;
    if i < j {
      SharedFifo(ws, i, j - 1);
      assert WorkStealing.Next(ws[j - 1], ws[j]);
      var v, k :| CanStep(ws[j - 1], v) && ws[j] == Step(ws[j - 1], v, k);
      ReadyQueue(ws[j - 1], v, k);
      assert |ws[j].ready| < |ws[j - 1].ready| ==>
        Taken(ws, j) + ws[j].ready == Taken(ws, j - 1) + ws[j - 1].ready;
    }
  }

  /** Whoever takes a thread dispatches that one. */
  lemma TakenDispatched(ws: seq<World>, j: nat) returns (v: int)
    requires IsRun(ws) && j + 1 < |ws| && |ws[j + 1].ready| < |ws[j].ready|
    ensures 0 <= v < |ws[j].vps| == |ws[j + 1].vps| && ws[j].vps[v].at.ReadyBody?
    ensures ws[j + 1].vps[v].at == Release(ReadyLock, Dispatch(ws[j].ready[0]))
  {
    assert WorkStealing.Next(ws[j], ws[j + 1]);
    var u, k :| CanStep(ws[j], u) && ws[j + 1] == Step(ws[j], u, k);
    hide IsRun, Step;
    v := u;
    ReadyQueue(ws[j], u, k);
  }

  /** A local queue is served in order too. */
  lemma LocalHead(w: World, v: int, k: Choice)
    requires CanStep(w, v) && w.vps[v].at.DeqBody? && w.vps[v].queue != []
    ensures var r := Step(w, v, k);
      |r.vps| == |w.vps| && r.vps[v].queue == w.vps[v].queue[1..] && r.vps[v].count == w.vps[v].count - 1
      && r.vps[v].at == Release(QueueLock(v), Dispatch(w.vps[v].queue[0]))
  {
    hide Over, Sweep, Plain;
  }

  // ----- whom a thief looks at -----

  /** The first i victims of a thief v that starts at `start`. */
  function Tour(start: nat, i: nat, n: nat, v: int): seq<int>
    requires n > 0
  {
    if i == 0 then []
    else
      var u := Target(start, i - 1, n);
      Tour(start, i - 1, n, v) + if u == v then [] else [u]
  }

  lemma {:induction false} TourCounts(start: nat, i: nat, n: nat, v: int, u: int)
    requires 0 < n && i <= n
    ensures multiset(Tour(start, i, n, v))[u] == if u != v && exists j: nat | j < i :: Target(start, j, n) == u then 1 else 0
  {
    if i > 0 {
      TourCounts(start, i - 1, n, v, u);
      if Target(start, i - 1, n) == u {
        VisitsOnce(start, n, u);
        assert forall j: nat | j < i - 1 :: Target(start, j, n) != u;
      }
      hide Target;
    }
  }

  /** A whole tour takes in every other virtual processor once. */
  lemma TourComplete(start: nat, n: nat, v: int, u: int)
    requires 0 < n
    ensures multiset(Tour(start, n, n, v))[u] == if 0 <= u < n && u != v then 1 else 0
  {
    TourCounts(start, n, n, v, u);
    if 0 <= u < n { VisitsOnce(start, n, u); }
  }

  /** The victims whose locks v has taken in the current call of try_steal: tried, and a step of v from a to a'. */
  function Tally(tried: seq<int>, a: At, a': At): seq<int> {
    if a.StealStart? then []
    else if a.Acquire? && a.next.VictimBody? && a' == a.next then tried + [a.next.u]
    else tried
  }

  /** The same, read off a run up to its state j. */
  function Tried(ws: seq<World>, v: nat, j: nat): seq<int>
    requires j < |ws| && forall h | 0 <= h < |ws| :: v < |ws[h].vps|
  {
    if j == 0 then [] else Tally(Tried(ws, v, j - 1), ws[j - 1].vps[v].at, ws[j].vps[v].at)
  }

  /** What v has tried when it is at a. */
  ghost predicate OnTour(a: At, tried: seq<int>, n: int, v: int) {
    var b := if a.Release? then a.next else a;
    && n > 0
    && (b.StealNext? ==> b.i <= n && tried == Tour(b.start, b.i, n, v))
    && (b.Acquire? && b.next.VictimBody? ==>
          b.next.i < n && b.next.u == Target(b.next.start, b.next.i, n) != v && tried == Tour(b.next.start, b.next.i, n, v))
    && (b.VictimBody? || b.VictimLoop? ==> b.i < n && tried == Tour(b.start, b.i + 1, n, v))
    && (b == Acquire(ListLock, ScanBody) ==> exists start: nat :: tried == Tour(start, n, n, v))
  }

  lemma StealOnTour(w: World, v: int, tried: seq<int>)
    requires CanStep(w, v) && Stealing(w.vps[v].at) && OnTour(w.vps[v].at, tried, |w.vps|, v)
    ensures OnTour(Steal(w, v).vps[v].at, tried, |w.vps|, v)
  {
    hide Tour, Target;
  }

  lemma LocalOnTour(w: World, v: int, tried: seq<int>)
    requires CanStep(w, v) && LockOf(w.vps[v].at, v).Some? && !Stealing(w.vps[v].at) && |w.vps| > 0
    requires VpOk(w.vps[v].queue, w.vps[v].count, Core(w.vps[v].at), v, |w.vps|)
    ensures OnTour(Local(w, v).vps[v].at, tried, |w.vps|, v)
  {
    CoreBody(w.vps[v].at);
    hide Over, Sweep, Tour, Target, ChainOk, Places;
  }

  lemma PlainOnTour(w: World, v: int, k: Choice, tried: seq<int>)
    requires CanStep(w, v) && LockOf(w.vps[v].at, v).None? && !w.vps[v].at.Acquire? && !w.vps[v].at.Release?
    requires OnTour(w.vps[v].at, tried, |w.vps|, v)
    ensures var a' := Plain(w, v, k).vps[v].at; OnTour(a', Tally(tried, w.vps[v].at, a'), |w.vps|, v)
  {
    var (a, n) := (w.vps[v].at, |w.vps|);
    if a.StealStart? {
      assert Tour(0, 0, n, v) == [] && Tour(k.start, 0, n, v) == [] && Tour(Target(k.start, 0, n), 0, n, v) == [];
      assert n == 1 ==> Tour(0, 1, 1, v) == [] by { assert n == 1 ==> Target(0, 0, 1) == 0 == v; }
    } else if a.StealNext? && a.i < n {
      assert Tour(a.start, a.i + 1, n, v) == Tour(a.start, a.i, n, v) + if Target(a.start, a.i, n) == v then [] else [Target(a.start, a.i, n)];
    }
    hide Tour, Target, States;
  }

  lemma LockOnTour(a: At, tried: seq<int>, n: int, v: int)
    requires OnTour(a, tried, n, v) && Nested(a, v) && (a.Acquire? || a.Release?)
    ensures OnTour(a.next, Tally(tried, a, a.next), n, v)
  {
    if a.Acquire? && a.next.VictimBody? {
      var b := a.next;
      assert Tour(b.start, b.i + 1, n, v) == Tour(b.start, b.i, n, v) + [b.u];
    }
    hide Tour, Target;
  }

  lemma OwnOnTour(w: World, v: int, k: Choice, tried: seq<int>)
    requires Inv(w) && CanStep(w, v) && OnTour(w.vps[v].at, tried, |w.vps|, v)
    ensures var r := Step(w, v, k); |r.vps| == |w.vps| && OnTour(r.vps[v].at, Tally(tried, w.vps[v].at, r.vps[v].at), |w.vps|, v)
  {
    var a := w.vps[v].at;
    assert Nested(a, v) && VpOk(w.vps[v].queue, w.vps[v].count, Core(a), v, |w.vps|);
    assert |w.vps| > 0 && |Step(w, v, k).vps| == |w.vps| by { StepShape(w, v, k); }
    hide Inv, VpOk, Local, Steal, Plain, Nested, Core, OnTour;
    if a.Acquire? || a.Release? {
      LockOnTour(a, tried, |w.vps|, v);
    } else if LockOf(a, v).None? {
      PlainOnTour(w, v, k, tried);
    } else if Stealing(a) {
      StealOnTour(w, v, tried);
    } else {
      LocalOnTour(w, v, tried);
    }
  }

  lemma AtSame(w: World, u: int, k: Choice, v: int)
    requires Inv(w) && CanStep(w, u) && 0 <= v < |w.vps| && v != u
    ensures |Step(w, u, k).vps| == |w.vps| && Step(w, u, k).vps[v].at == w.vps[v].at
  {
    assert VpOk(w.vps[u].queue, w.vps[u].count, Core(w.vps[u].at), u, |w.vps|);
    StepShape(w, u, k);
    hide Inv, Step, CanStep, VpOk;
  }

  lemma TallySame(a: At, tried: seq<int>, n: int, v: int)
    requires OnTour(a, tried, n, v)
    ensures OnTour(a, Tally(tried, a, a), n, v)
  {
    hide Tour, Target;
  }

  lemma {:induction false} KeepsTour(ws: seq<World>, v: nat, j: nat)
    requires IsRun(ws) && j < |ws| && forall h | 0 <= h < |ws| :: v < |ws[h].vps| == |ws[0].vps|
    requires ws[0].vps[v].at.Top?
    ensures OnTour(ws[j].vps[v].at, Tried(ws, v, j), |ws[0].vps|, v)
    decreases j
  {
    hide Inv, CanStep, Step, Tour, Target;
    if j > 0 {
      KeepsTour(ws, v, j - 1);
      RunKeeps(ws, j - 1);
      assert WorkStealing.Next(ws[j - 1], ws[j]);
      var u, k :| CanStep(ws[j - 1], u) && ws[j] == Step(ws[j - 1], u, k);
      hide OnTour, Tally;
      if u == v {
        OwnOnTour(ws[j - 1], v, k, Tried(ws, v, j - 1));
      } else {
        AtSame(ws[j - 1], u, k, v);
        TallySame(ws[j - 1].vps[v].at, Tried(ws, v, j - 1), |ws[0].vps|, v);
      }
    }
  }

  /** A try_steal that has found nothing has held the lock of every other processor exactly once. */
  lemma TriesEveryVictim(ws: seq<World>, v: nat, j: nat, u: int)
    requires IsRun(ws) && j < |ws| && v < |ws[0].vps| && ws[0].vps[v].at.Top?
    ensures forall h | 0 <= h < |ws| :: v < |ws[h].vps| == |ws[0].vps|
    ensures ws[j].vps[v].at == Acquire(ListLock, ScanBody) ==>
      multiset(Tried(ws, v, j))[u] == if 0 <= u < |ws[0].vps| && u != v then 1 else 0
  {
    forall h | 0 <= h < |ws| ensures v < |ws[h].vps| == |ws[0].vps| { RunSize(ws, h); }
    KeepsTour(ws, v, j);
    hide IsRun, Tour;
    if ws[j].vps[v].at == Acquire(ListLock, ScanBody) {
      var start: nat :| Tried(ws, v, j) == Tour(start, |ws[0].vps|, |ws[0].vps|, v);
      TourComplete(start, |ws[0].vps|, v, u);
    }
  }

  // ----- runs that show it -----

  lemma Grow(ws: seq<World>, v: int, k: Choice, w: World) returns (r: seq<World>)
    requires IsRun(ws) && CanStep(ws[|ws| - 1], v) && Step(ws[|ws| - 1], v, k) == w
    ensures r == ws + [w] && IsRun(r) && r[0] == ws[0]
  {
    hide Inv, CanStep, Step;
    r := ws + [w];
    assert WorkStealing.Next(ws[|ws| - 1], w);
  }

  const PICK := Choice(1, Yield, false)

  /** Two virtual processors and the threads 0 and 1, which wait in queues; the first processor is at a. */
  function Two(q0: seq<Tid>, q1: seq<Tid>, locks: map<LockId, int>, a: At): World {
    World([], [1, 0], locks, [Vp(q0, |q0|, true, a), Vp(q1, |q1|, true, Top)], [Ready, Ready])
  }

  lemma TwoOk()
    ensures Inv(Two([], [0, 1], map[], Top))
  {
    hide ReadyBook, RunBook, Locks, AllOk, Loot, Listed, Scanned, Quiet, Ranged, Joined;
    var w := Two([], [0, 1], map[], Top);
    TwoBooks(w.vps[0], w.vps[1]);
    TwoLocal(w.vps[0], w.vps[1]);
    assert w.vps == [w.vps[0], w.vps[1]];
  }

  lemma TwoLocal(p: Vp, q: Vp)
    requires p == IDLE && q == Vp([0, 1], 2, true, Top)
    ensures Locks([p, q], map[]) && AllOk([p, q]) && Loot([p, q]) && Listed([], [p, q], [1, 0])
    ensures Scanned([p, q], [1, 0], [Ready, Ready]) && Quiet([p, q], [Ready, Ready])
    ensures Ranged([p, q], [1, 0], [Ready, Ready]) && Joined([p, q])
  {
    hide Places, ChainOk;
    assert Places(Top, 0, 2) && ChainOk(Top) && Places(Top, 1, 2) by { TopPlaces(); }
  }

  lemma TopPlaces()
    ensures Places(Top, 0, 2) && ChainOk(Top) && Places(Top, 1, 2)
  {
  }

  lemma TwoBooks(p: Vp, q: Vp)
    requires p == IDLE && q == Vp([0, 1], 2, true, Top)
    ensures ReadyBook([], [p, q], [Ready, Ready]) && RunBook([p, q], [Ready, Ready])
  {
    TwoOf();
    IdleTokens();
    TwoTokens(q);
    hide ReadyTokens, RunTokens, Of, UnionF;
    UnionPair(p, q, ReadyTokens);
    UnionPair(p, q, RunTokens);
  }

  lemma TwoTokens(q: Vp)
    requires q == Vp([0, 1], 2, true, Top)
    ensures ReadyTokens(q) == multiset{0, 1} && RunTokens(q) == multiset{}
  {
    FreeNone(Top);
    CoreBody(Top);
    hide InHand, Unlisted, OnCpu, Core;
    assert multiset([0, 1]) == multiset{0, 1};
  }

  lemma UnionPair(p: Vp, q: Vp, f: Vp -> multiset<Tid>)
    ensures UnionF([p, q], f) == f(p) + f(q)
  {
    assert [p, q][1..] == [q] && [q][1..] == [];
    assert UnionF([q], f) == f(q) + UnionF([], f);
  }

  lemma TwoOf()
    ensures Of([Ready, Ready], Ready) == multiset{0, 1} && Of([Ready, Ready], Running) == multiset{}
  {
    assert [Ready, Ready][..1] == [Ready] && [Ready][..0] == [];
  }

  /** The thief finds nothing of its own and nothing in the shared queue. */
  lemma TheftStarts() returns (ws: seq<World>)
    ensures IsRun(ws) && ws[0] == Two([], [0, 1], map[], Top) && |ws| == 7
    ensures ws[6] == Two([], [0, 1], map[ReadyLock := 0], Release(ReadyLock, StealStart))
  {
    hide Inv;
    TwoOk();
    var (q, own) := ([0, 1], QueueLock(0));
    ws := [Two([], q, map[], Top)];
    ws := Grow(ws, 0, PICK, Two([], q, map[], Acquire(own, DeqBody(false))));
    ws := Grow(ws, 0, PICK, Two([], q, map[own := 0], DeqBody(false)));
    ws := Grow(ws, 0, PICK, Two([], q, map[own := 0], Release(own, Acquire(ReadyLock, ReadyBody))));
    ws := Grow(ws, 0, PICK, Two([], q, map[], Acquire(ReadyLock, ReadyBody)));
    ws := Grow(ws, 0, PICK, Two([], q, map[ReadyLock := 0], ReadyBody));
    ws := Grow(ws, 0, PICK, Two([], q, map[ReadyLock := 0], Release(ReadyLock, StealStart)));
  }

  /** The victim's lock is taken. */
  lemma TheftComes() returns (ws: seq<World>)
    ensures IsRun(ws) && ws[0] == Two([], [0, 1], map[], Top) && |ws| == 11
    ensures ws[10] == Two([], [0, 1], map[QueueLock(1) := 0], VictimBody(1, 0, 1))
  {
    hide Inv, IsRun;
    var (q, l) := ([0, 1], QueueLock(1));
    ws := TheftStarts();
    ws := Grow(ws, 0, PICK, Two([], q, map[], StealStart));
    ws := Grow(ws, 0, PICK, Two([], q, map[], StealNext(1, 0)));
    ws := Grow(ws, 0, PICK, Two([], q, map[], Acquire(l, VictimBody(1, 0, 1))));
    ws := Grow(ws, 0, PICK, Two([], q, map[l := 0], VictimBody(1, 0, 1)));
  }

  lemma TakeStep()
    ensures var l := map[QueueLock(1) := 0]; var w := Two([], [0, 1], l, VictimLoop(1, 0, 1, 1, [], [0, 1]));
      CanStep(w, 0) && Step(w, 0, PICK) == Two([], [1], l, VictimLoop(1, 0, 1, 1, [0], [0, 1]))
  {
    assert [0, 1][1..] == [1] && [] + [0] == [0];
  }

  lemma AppendStep()
    ensures var own := QueueLock(0); var w := Two([], [1], map[own := 0], AppendBody(1, [0], [0, 1]));
      CanStep(w, 0) && Step(w, 0, PICK) == Two([0], [1], map[own := 0], Release(own, Acquire(own, DeqBody(true))))
  {
    assert [] + [0] == [0];
  }

  /** It takes one of the victim's two threads. */
  lemma TheftTakes() returns (ws: seq<World>)
    ensures IsRun(ws) && ws[0] == Two([], [0, 1], map[], Top) && |ws| == 13
    ensures ws[12] == Two([], [1], map[QueueLock(1) := 0], VictimLoop(1, 0, 1, 1, [0], [0, 1]))
  {
    hide Inv, IsRun;
    var (q, l) := ([0, 1], QueueLock(1));
    ws := TheftComes();
    ws := Grow(ws, 0, PICK, Two([], q, map[l := 0], VictimLoop(1, 0, 1, 1, [], q)));
    TakeStep();
    hide CanStep, Step;
    ws := Grow(ws, 0, PICK, Two([], [1], map[l := 0], VictimLoop(1, 0, 1, 1, [0], q)));
  }

  lemma TheftAppends() returns (ws: seq<World>)
    ensures IsRun(ws) && ws[0] == Two([], [0, 1], map[], Top) && |ws| == 16
    ensures ws[15] == Two([], [1], map[QueueLock(0) := 0], AppendBody(1, [0], [0, 1]))
  {
    hide Inv, IsRun;
    var (q, own, l) := ([0, 1], QueueLock(0), QueueLock(1));
    ws := TheftTakes();
    ws := Grow(ws, 0, PICK, Two([], [1], map[l := 0], Release(l, Acquire(own, AppendBody(1, [0], q)))));
    ws := Grow(ws, 0, PICK, Two([], [1], map[], Acquire(own, AppendBody(1, [0], q))));
    ws := Grow(ws, 0, PICK, Two([], [1], map[own := 0], AppendBody(1, [0], q)));
  }

  /** A theft that completes: from a state with two threads in one local queue a run comes to the append and then
      to the vp_dequeue at the end of try_steal, with the stolen thread to return. */
  lemma TheftCompletes() returns (ws: seq<World>)
    ensures IsRun(ws) && ws[0] == Two([], [0, 1], map[], Top) && |ws| == 19
    ensures ws[15] == Two([], [1], map[QueueLock(0) := 0], AppendBody(1, [0], [0, 1]))
    ensures ws[18] == Two([0], [1], map[QueueLock(0) := 0], DeqBody(true)) && CanStep(ws[18], 0)
  {
    hide Inv, IsRun;
    var own := QueueLock(0);
    ws := TheftAppends();
    AppendStep();
    ws := Grow(ws, 0, PICK, Two([0], [1], map[own := 0], Release(own, Acquire(own, DeqBody(true)))));
    hide Steal, Plain;
    ws := Grow(ws, 0, PICK, Two([0], [1], map[], Acquire(own, DeqBody(true))));
    ws := Grow(ws, 0, PICK, Two([0], [1], map[own := 0], DeqBody(true)));
  }

  /** One virtual processor and the threads 0 and 1. */
  function One(q: seq<Tid>, ready: seq<Tid>, locks: map<LockId, int>, a: At, s: State): World {
    World(ready, [1, 0], locks, [Vp(q, |q|, true, a)], [s, Ready])
  }

  lemma OneLooks() returns (ws: seq<World>)
    ensures IsRun(ws) && ws[0] == Init(1, 2) && |ws| == 5 && ws[4] == One([], [0, 1], map[], Acquire(ReadyLock, ReadyBody), Ready)
  {
    hide Inv;
    InitKeeps(1, 2);
    assert Init(1, 2) == One([], [0, 1], map[], Top, Ready);
    hide Init;
    var (q, own) := ([0, 1], QueueLock(0));
    ws := [One([], q, map[], Top, Ready)];
    ws := Grow(ws, 0, PICK, One([], q, map[], Acquire(own, DeqBody(false)), Ready));
    ws := Grow(ws, 0, PICK, One([], q, map[own := 0], DeqBody(false), Ready));
    ws := Grow(ws, 0, PICK, One([], q, map[own := 0], Release(own, Acquire(ReadyLock, ReadyBody)), Ready));
    ws := Grow(ws, 0, PICK, One([], q, map[], Acquire(ReadyLock, ReadyBody), Ready));
  }

  lemma OneStarts() returns (ws: seq<World>)
    ensures IsRun(ws) && ws[0] == Init(1, 2) && |ws| == 9 && ws[8] == One([], [1], map[], WorkStealing.Run(0), Running)
  {
    hide Inv, Init, IsRun;
    ws := OneLooks();
    assert [0, 1][1..] == [1];
    ws := Grow(ws, 0, PICK, One([], [0, 1], map[ReadyLock := 0], ReadyBody, Ready));
    ws := Grow(ws, 0, PICK, One([], [1], map[ReadyLock := 0], Release(ReadyLock, Dispatch(0)), Ready));
    ws := Grow(ws, 0, PICK, One([], [1], map[], Dispatch(0), Ready));
    ws := Grow(ws, 0, PICK, One([], [1], map[], WorkStealing.Run(0), Running));
  }

  /** It puts itself into its queue. */
  lemma OneQueues(ws: seq<World>) returns (r: seq<World>)
    requires IsRun(ws) && ws[|ws| - 1] == One([], [1], map[], WorkStealing.Run(0), Running)
    ensures IsRun(r) && |r| == |ws| + 4 && r[..|ws|] == ws && r[|r| - 1] == One([0], [1], map[], Top, Ready)
    ensures forall i | |ws| <= i < |r| :: r[i].ready == [1]
  {
    hide Inv, IsRun;
    var own := QueueLock(0);
    r := Grow(ws, 0, PICK, One([], [1], map[], Acquire(own, PutBody(0)), Ready));
    r := Grow(r, 0, PICK, One([], [1], map[own := 0], PutBody(0), Ready));
    assert [] + [0] == [0];
    r := Grow(r, 0, PICK, One([0], [1], map[own := 0], Release(own, Top), Ready));
    r := Grow(r, 0, PICK, One([0], [1], map[], Top, Ready));
  }

  /** One more yield: it comes out again at once. */
  lemma OneYields(ws: seq<World>) returns (r: seq<World>)
    requires IsRun(ws) && ws[|ws| - 1] == One([], [1], map[], WorkStealing.Run(0), Running)
    ensures IsRun(r) && |r| == |ws| + 9 && r[..|ws|] == ws && r[|r| - 1] == ws[|ws| - 1]
    ensures forall i | |ws| <= i < |r| :: r[i].ready == [1]
  {
    hide Inv, IsRun;
    var own := QueueLock(0);
    r := OneQueues(ws);
    r := Grow(r, 0, PICK, One([0], [1], map[], Acquire(own, DeqBody(false)), Ready));
    r := Grow(r, 0, PICK, One([0], [1], map[own := 0], DeqBody(false), Ready));
    assert [0][1..] == [];
    r := Grow(r, 0, PICK, One([], [1], map[own := 0], Release(own, Dispatch(0)), Ready));
    r := Grow(r, 0, PICK, One([], [1], map[], Dispatch(0), Ready));
    r := Grow(r, 0, PICK, One([], [1], map[], WorkStealing.Run(0), Running));
  }

  /** One processor, two threads: the first yields m times, for any m, and the second is never dispatched. */
  lemma {:induction false} SecondNeverRuns(m: nat) returns (ws: seq<World>)
    ensures IsRun(ws) && Started(ws, 1, 2) && |ws| == 9 + 9 * m
    ensures ws[|ws| - 1] == One([], [1], map[], WorkStealing.Run(0), Running)
    ensures forall i | 8 <= i < |ws| :: ws[i].ready == [1]
  {
    hide IsRun, Init, Started;
    if m == 0 {
      ws := OneStarts();
    } else {
      var before := SecondNeverRuns(m - 1);
      ws := OneYields(before);
      StartOf(before);
      assert ws[0] == ws[..|before|][0];
      forall i | 8 <= i < |ws| ensures ws[i].ready == [1] {
        if i < |before| { assert ws[i] == ws[..|before|][i] == before[i]; }
      }
    }
    RunStarted(ws, 1, 2);
  }

  lemma StartOf(ws: seq<World>)
    requires Started(ws, 1, 2)
    ensures ws[0] == Init(1, 2)
  {
  }

  lemma RunStarted(ws: seq<World>, n: nat, k: nat)
    requires IsRun(ws) && ws[0] == Init(n, k)
    ensures Started(ws, n, k)
  {
    hide Inv, WorkStealing.Next, Init;
  }
}
