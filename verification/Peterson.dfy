/** demos/petersons/petersons.c under sequential consistency: every shared read and write is a step of
    its own, and the two threads interleave arbitrarily. */
module Peterson {

  /** Where a worker is: the next shared access it performs. After its iterations it enters the lock
      once more for the final report. */
  datatype Pc =
    | SetFlag | SetTurn | ReadFlag | ReadTurn      // lock
    | ReadCounter | WriteCounter(temp: int)        // the critical section of an iteration
    | ReadFinished | WriteFinished(seen: int)      // finished++ of the final report
    | Report                                       // the test for 2
    | ClearFlag(last: bool)                        // unlock
    | Done

  /** flag is the worker's element of the shared array; left counts the iterations it has not completed;
      passed is history: how often the other worker has entered since this one last wrote turn. */
  datatype Worker = Worker(flag: bool, pc: Pc, left: int, passed: nat)

  /** The shared variables, and whether the process has called exit(0). */
  datatype Shared = Shared(turn: int, counter: int, finished: int, exited: bool)

  datatype World = World(sh: Shared, a: Worker, b: Worker)

  function Init(n: nat): World {
    World(Shared(0, 0, 0, false), Worker(false, SetFlag, n, 0), Worker(false, SetFlag, n, 0))
  }

  /** Entering the critical section: another iteration, or the final report. */
  function Enter(me: Worker): Worker {
    me.(pc := if me.left > 0 then ReadCounter else ReadFinished)
  }

  function Overtake(you: Worker): Worker { you.(passed := you.passed + 1) }

  /** The next step of worker `self`, which is `me`; the other worker is `you`. */
  function Act(sh: Shared, me: Worker, you: Worker, self: int): (Shared, Worker, Worker) {
    match me.pc
    case SetFlag => (sh, me.(flag := true, pc := SetTurn), you)
    case SetTurn => (sh.(turn := 1 - self), me.(pc := ReadFlag, passed := 0), you)
    case ReadFlag => if you.flag then (sh, me.(pc := ReadTurn), you) else (sh, Enter(me), Overtake(you))
    case ReadTurn =>
      if sh.turn == 1 - self then (sh, me.(pc := ReadFlag), you) else (sh, Enter(me), Overtake(you))
    case ReadCounter => (sh, me.(pc := WriteCounter(sh.counter)), you)
    case WriteCounter(temp) => (sh.(counter := temp + 1), me.(left := me.left - 1, pc := ClearFlag(false)), you)
    case ReadFinished => (sh, me.(pc := WriteFinished(sh.finished)), you)
    case WriteFinished(seen) => (sh.(finished := seen + 1), me.(pc := Report), you)
    case Report => if sh.finished == 2 then (sh.(exited := true), me, you) else (sh, me.(pc := ClearFlag(true)), you)
    case ClearFlag(last) => (sh, me.(flag := false, pc := if last then Done else SetFlag), you)
    case Done => (sh, me, you)
  }

  function Step(w: World, self: int): World {
    if self == 0 then
      var (sh, me, you) := Act(w.sh, w.a, w.b, 0); World(sh, me, you)
    else
      var (sh, me, you) := Act(w.sh, w.b, w.a, 1); World(sh, you, me)
  }

  ghost predicate Run(ws: seq<World>, n: nat) {
    |ws| > 0 && ws[0] == Init(n) && forall i, j | 0 <= i && j == i + 1 < |ws| :: Next(ws[i], ws[j])
  }

  /** Either worker makes a step, while the process has not ended. */
  predicate Next(w: World, w': World) { !w.sh.exited && (w' == Step(w, 0) || w' == Step(w, 1)) }

  predicate Critical(p: Pc) {
    || p.ReadCounter? || p.WriteCounter? || p.ReadFinished? || p.WriteFinished? || p.Report? || p.ClearFlag?
  }

  predicate Waiting(p: Pc) { p.ReadFlag? || p.ReadTurn? }

  predicate Reported(p: Pc) { p.Report? || p.Done? || (p.ClearFlag? && p.last) }

  function Reports(p: Pc): int { if Reported(p) then 1 else 0 }

  /** Has found that it is not the last to report. */
  predicate Past(p: Pc) { p.Done? || (p.ClearFlag? && p.last) }

  ghost predicate WorkerOk(sh: Shared, me: Worker, you: Worker, self: int, n: nat) {
    && (me.flag <==> me.pc.SetTurn? || Waiting(me.pc) || Critical(me.pc))
    && (Critical(me.pc) && (Waiting(you.pc) || Critical(you.pc)) ==> sh.turn == self)
    && (me.pc.WriteCounter? ==> me.pc.temp == sh.counter)
    && (me.pc.WriteFinished? ==> me.pc.seen == sh.finished)
    && (me.pc.ReadCounter? || me.pc.WriteCounter? ==> me.left > 0)
    && (me.pc.ReadFinished? || me.pc.WriteFinished? || Reported(me.pc) ==> me.left == 0)
    && 0 <= me.left <= n
    && (Waiting(me.pc) ==> me.passed <= 1)
    && (Waiting(me.pc) && me.passed == 1 && Waiting(you.pc) ==> sh.turn == self)
  }

  ghost predicate CountsOk(sh: Shared, me: Worker, you: Worker, n: nat) {
    && sh.counter == 2 * n - me.left - you.left
    && sh.finished == Reports(me.pc) + Reports(you.pc)
    && (sh.exited ==> sh.finished == 2) && !(Past(me.pc) && Past(you.pc))
  }

  ghost predicate Inv(w: World, n: nat) {
    w.sh.turn in {0, 1} && WorkerOk(w.sh, w.a, w.b, 0, n) && WorkerOk(w.sh, w.b, w.a, 1, n) && CountsOk(w.sh, w.a, w.b, n)
  }

  ghost predicate BothOk(sh: Shared, me: Worker, you: Worker, self: int, n: nat) {
    && sh.turn in {0, 1} && self in {0, 1} && !sh.exited && CountsOk(sh, me, you, n)
    && WorkerOk(sh, me, you, self, n) && WorkerOk(sh, you, me, 1 - self, n)
  }

  lemma ActMine(sh: Shared, me: Worker, you: Worker, self: int, n: nat)
    requires BothOk(sh, me, you, self, n)
    ensures var (sh', me', you') := Act(sh, me, you, self); WorkerOk(sh', me', you', self, n)
  {
  }

  lemma ActYours(sh: Shared, me: Worker, you: Worker, self: int, n: nat)
    requires BothOk(sh, me, you, self, n)
    ensures var (sh', me', you') := Act(sh, me, you, self); WorkerOk(sh', you', me', 1 - self, n)
  {
  }

  /** One step keeps the invariant of both workers; by symmetry one lemma serves both. */
  lemma ActKeeps(sh: Shared, me: Worker, you: Worker, self: int, n: nat)
    requires BothOk(sh, me, you, self, n)
    ensures var (sh', me', you') := Act(sh, me, you, self);
      && sh'.turn in {0, 1} && CountsOk(sh', me', you', n)
      && WorkerOk(sh', me', you', self, n) && WorkerOk(sh', you', me', 1 - self, n)
  {
    ActMine(sh, me, you, self, n);
    ActYours(sh, me, you, self, n);
    ActCounts(sh, me, you, self, n);
    hide WorkerOk, CountsOk;
  }

  lemma ActCounts(sh: Shared, me: Worker, you: Worker, self: int, n: nat)
    requires BothOk(sh, me, you, self, n)
    ensures var (sh', me', you') := Act(sh, me, you, self); sh'.turn in {0, 1} && CountsOk(sh', me', you', n)
  {
  }

  lemma {:induction false} RunKeeps(ws: seq<World>, n: nat, i: nat)
    requires Run(ws, n) && i < |ws|
    ensures Inv(ws[i], n)
    decreases i
  {
    hide WorkerOk, CountsOk, Act;
    if i > 0 {
      RunKeeps(ws, n, i - 1);
      var w := ws[i - 1];
      assert Next(w, ws[i]);
      ActKeeps(w.sh, w.a, w.b, 0, n);
      assert CountsOk(w.sh, w.b, w.a, n) by { CountsSwap(w, n); }
      ActKeeps(w.sh, w.b, w.a, 1, n);
      CountsSwap(ws[i], n);
    } else {
      InitOk(n);
    }
  }

  lemma CountsSwap(w: World, n: nat)
    ensures CountsOk(w.sh, w.a, w.b, n) <==> CountsOk(w.sh, w.b, w.a, n)
  {
  }

  lemma InitOk(n: nat)
    ensures Inv(Init(n), n)
  {
  }

  /** Mutual exclusion in every state of every run. */
  lemma MutualExclusion(ws: seq<World>, n: nat, i: nat)
    requires Run(ws, n) && i < |ws|
    ensures !(Critical(ws[i].a.pc) && Critical(ws[i].b.pc))
  {
    RunKeeps(ws, n, i);
  }

  /** A worker that has written turn is overtaken at most once before it enters. */
  lemma OvertakenOnce(ws: seq<World>, n: nat, i: nat)
    requires Run(ws, n) && i < |ws|
    ensures Waiting(ws[i].a.pc) ==> ws[i].a.passed <= 1
    ensures Waiting(ws[i].b.pc) ==> ws[i].b.passed <= 1
  {
    RunKeeps(ws, n, i);
  }

  /** No increment is lost: the counter is the number of completed iterations at all times, and when a
      worker finds finished == 2 it has reached 2n, so the report is PASS. */
  lemma CounterExact(ws: seq<World>, n: nat, i: nat)
    requires Run(ws, n) && i < |ws|
    ensures var w := ws[i];
      && 0 <= w.a.left <= n && 0 <= w.b.left <= n
      && w.sh.counter == (n - w.a.left) + (n - w.b.left)
      && (w.sh.finished == 2 || w.sh.exited ==> w.sh.counter == 2 * n)
  {
    RunKeeps(ws, n, i);
  }

  /** Not both spin: if both workers are past their write of turn, one of them enters within two steps
      of its own. */
  lemma SomeoneEnters(ws: seq<World>, n: nat, i: nat)
    requires Run(ws, n) && i < |ws| && Waiting(ws[i].a.pc) && Waiting(ws[i].b.pc)
    ensures var w := ws[i];
      || Critical(Step(w, 0).a.pc) || Critical(Step(Step(w, 0), 0).a.pc)
      || Critical(Step(w, 1).b.pc) || Critical(Step(Step(w, 1), 1).b.pc)
  {
    RunKeeps(ws, n, i);
  }

  // ----- whoever waits gets in -----

  /** A run with its schedule: sched[i] is the worker that makes step i. */
  ghost predicate Scheduled(ws: seq<World>, sched: seq<int>, n: nat) {
    && |ws| == |sched| + 1 && ws[0] == Init(n)
    && forall i, j | 0 <= i && j == i + 1 < |ws| :: Did(ws[i], sched[i], ws[j])
  }

  predicate Did(w: World, self: int, w': World) { self in {0, 1} && !w.sh.exited && w' == Step(w, self) }

  function Me(w: World, self: int): Worker { if self == 0 then w.a else w.b }

  /** How many of the steps i .. j - 1 are worker self's. */
  function Steps(sched: seq<int>, i: nat, j: nat, self: int): nat
    requires i <= j <= |sched|
  {
    if i == j then 0 else Steps(sched, i, j - 1, self) + if sched[j - 1] == self then 1 else 0
  }

  /** How many steps a worker at p needs before it has passed the turn on, or is done. */
  function Needs(p: Pc): nat {
    match p
    case ReadFlag => 7
    case ReadTurn => 6
    case ReadCounter => 5
    case WriteCounter(temp) => 4
    case ReadFinished => 4
    case WriteFinished(seen) => 3
    case Report => 2
    case ClearFlag(last) => if last then 1 else 3
    case SetFlag => 2
    case SetTurn => 1
    case Done => 0
  }

  /** How many steps the other worker can make before it is no longer in the way of self. */
  function Ahead(w: World, self: int): nat {
    if w.sh.turn == self then 0 else Needs(Me(w, 1 - self).pc)
  }

  /** How many steps self then needs itself. */
  function Own(w: World, self: int): nat {
    if (w.sh.turn == self) == Me(w, self).pc.ReadTurn? then 1 else 2
  }

  lemma OtherStep(w: World, self: int, n: nat)
    requires Inv(w, n) && !w.sh.exited && self in {0, 1} && Waiting(Me(w, self).pc)
    ensures var w' := Step(w, 1 - self);
      && Waiting(Me(w', self).pc)
      && (if Ahead(w, self) > 0 then Ahead(w', self) < Ahead(w, self) else Ahead(w', self) == 0 && Own(w', self) == Own(w, self))
  {
  }

  lemma OwnStep(w: World, self: int, n: nat)
    requires Inv(w, n) && !w.sh.exited && self in {0, 1} && Waiting(Me(w, self).pc)
    ensures var w' := Step(w, self);
      || Critical(Me(w', self).pc)
      || (Waiting(Me(w', self).pc) && Ahead(w', self) == Ahead(w, self)
          && (Ahead(w, self) == 0 ==> Own(w', self) < Own(w, self)))
  {
  }

  lemma ScheduledRuns(ws: seq<World>, sched: seq<int>, n: nat)
    requires Scheduled(ws, sched, n)
    ensures Run(ws, n)
  {
    hide Step, Init;
    forall i, j | 0 <= i && j == i + 1 < |ws| ensures Next(ws[i], ws[j]) { assert Did(ws[i], sched[i], ws[j]); }
  }

  /** While self waits, every step of the other worker brings its turn closer. */
  lemma {:induction false} TurnComes(ws: seq<World>, sched: seq<int>, n: nat, i: nat, j: nat, self: int)
    requires Scheduled(ws, sched, n) && i <= j < |ws| && self in {0, 1} && Waiting(Me(ws[i], self).pc)
    requires forall h | i <= h <= j :: !Critical(Me(ws[h], self).pc)
    ensures Waiting(Me(ws[j], self).pc)
    ensures Ahead(ws[j], self) == 0 || Ahead(ws[j], self) + Steps(sched, i, j, 1 - self) <= 7
    decreases j
  {
    hide Inv, Step, Init;
    if i < j {
      TurnComes(ws, sched, n, i, j - 1, self);
      ScheduledRuns(ws, sched, n);
      RunKeeps(ws, n, j - 1);
      assert Did(ws[j - 1], sched[j - 1], ws[j]);
      hide Ahead, Own, Waiting, Critical, Me;
      if sched[j - 1] == self { OwnStep(ws[j - 1], self, n); } else { OtherStep(ws[j - 1], self, n); }
    }
  }

  /** Once the other worker is out of the way, every step of its own brings self closer. */
  lemma {:induction false} EntryComes(ws: seq<World>, sched: seq<int>, n: nat, i: nat, j: nat, self: int)
    requires Scheduled(ws, sched, n) && i <= j < |ws| && self in {0, 1}
    requires Waiting(Me(ws[i], self).pc) && Ahead(ws[i], self) == 0
    requires forall h | i <= h <= j :: !Critical(Me(ws[h], self).pc)
    ensures Waiting(Me(ws[j], self).pc) && Ahead(ws[j], self) == 0 && Own(ws[j], self) + Steps(sched, i, j, self) <= 2
    decreases j
  {
    hide Inv, Step, Init;
    if i < j {
      EntryComes(ws, sched, n, i, j - 1, self);
      ScheduledRuns(ws, sched, n);
      RunKeeps(ws, n, j - 1);
      assert Did(ws[j - 1], sched[j - 1], ws[j]);
      hide Ahead, Own, Waiting, Critical, Me;
      if sched[j - 1] == self { OwnStep(ws[j - 1], self, n); } else { OtherStep(ws[j - 1], self, n); }
    }
  }

  /** A worker past its write of turn enters, at the latest with its own second step after the other worker's
      seventh, whatever the interleaving is otherwise. */
  lemma EntersAfter(ws: seq<World>, sched: seq<int>, n: nat, i: nat, m: nat, j: nat, self: int)
    requires Scheduled(ws, sched, n) && i <= m <= j < |ws| && self in {0, 1} && Waiting(Me(ws[i], self).pc)
    requires Steps(sched, i, m, 1 - self) >= 7 && Steps(sched, m, j, self) >= 2
    ensures exists h :: i <= h <= j && Critical(Me(ws[h], self).pc)
  {
    if forall h | i <= h <= j :: !Critical(Me(ws[h], self).pc) {
      TurnComes(ws, sched, n, i, m, self);
      EntryComes(ws, sched, n, m, j, self);
    }
  }

  /** Each worker makes a step in every m consecutive ones. */
  ghost predicate Fair(sched: seq<int>, m: nat) {
    forall i: nat, self | self in {0, 1} :: StepsIn(sched, i, m, self)
  }

  predicate StepsIn(sched: seq<int>, i: nat, m: nat, self: int) {
    i + m <= |sched| ==> Steps(sched, i, i + m, self) > 0
  }

  lemma {:induction false} StepsSplit(sched: seq<int>, i: nat, j: nat, h: nat, self: int)
    requires i <= j <= h <= |sched|
    ensures Steps(sched, i, h, self) == Steps(sched, i, j, self) + Steps(sched, j, h, self)
    decreases h
  {
    if j < h { StepsSplit(sched, i, j, h - 1, self); }
  }

  lemma {:induction false} FairSteps(sched: seq<int>, m: nat, i: nat, c: nat, self: int)
    requires Fair(sched, m) && i + c * m <= |sched| && self in {0, 1}
    ensures Steps(sched, i, i + c * m, self) >= c
    decreases c
  {
    if c > 0 {
      assert i + (c - 1) * m + m == i + c * m;
      FairSteps(sched, m, i, c - 1, self);
      StepsSplit(sched, i, i + (c - 1) * m, i + c * m, self);
      assert StepsIn(sched, i + (c - 1) * m, m, self);
    }
  }

  /** Progress under a fair schedule: a worker past its write of turn is inside within 9 m steps. */
  lemma EntersWithin(ws: seq<World>, sched: seq<int>, n: nat, i: nat, m: nat, self: int)
    requires Scheduled(ws, sched, n) && Fair(sched, m) && i + 9 * m <= |sched| && self in {0, 1}
    requires Waiting(Me(ws[i], self).pc)
    ensures exists h :: i <= h <= i + 9 * m && Critical(Me(ws[h], self).pc)
  {
    FairSteps(sched, m, i, 7, 1 - self);
    FairSteps(sched, m, i + 7 * m, 2, self);
    EntersAfter(ws, sched, n, i, i + 7 * m, i + 9 * m, self);
  }

  // ----- the report is made -----

  /** One of the workers makes the report: never do both find that they are not the last. When one is at the test
      and both have counted themselves, its next step ends the process, and nothing else ever does. */
  lemma OneReports(ws: seq<World>, n: nat, i: nat, self: int)
    requires Run(ws, n) && i < |ws| && self in {0, 1}
    ensures !(Past(ws[i].a.pc) && Past(ws[i].b.pc))
    ensures !ws[i].sh.exited ==>
      (Step(ws[i], self).sh.exited <==> Me(ws[i], self).pc == Report && ws[i].sh.finished == 2)
  {
    RunKeeps(ws, n, i);
  }

  /** A bound on the steps of its own, waiting apart, that a worker has still to make. */
  function Pot(x: Worker): int {
    match x.pc
    case SetFlag => 6 * x.left + 7
    case SetTurn => 6 * x.left + 6
    case ReadFlag => 6 * x.left + 5
    case ReadTurn => 6 * x.left + 5
    case ReadCounter => 6 * x.left + 4
    case WriteCounter(temp) => 6 * x.left + 3
    case ReadFinished => 4
    case WriteFinished(seen) => 3
    case Report => 2
    case ClearFlag(last) => if last then 1 else 6 * x.left + 8
    case Done => 0
  }

  function Total(w: World): int { Pot(w.a) + Pot(w.b) + if w.sh.exited then 0 else 1 }

  lemma PotSteps(sh: Shared, me: Worker, you: Worker, self: int, n: nat)
    requires BothOk(sh, me, you, self, n)
    ensures var (sh', me', you') := Act(sh, me, you, self);
      && you'.pc == you.pc && you'.left == you.left && Pot(you') == Pot(you)
      && (if Waiting(me.pc) then (Waiting(me'.pc) && Pot(me') == Pot(me)) || Pot(me') < Pot(me)
          else me.pc.Done? || sh'.exited || Pot(me') < Pot(me))
      && Pot(me') <= Pot(me)
  {
    hide CountsOk;
  }

  lemma TotalSteps(w: World, self: int, n: nat)
    requires Inv(w, n) && !w.sh.exited && self in {0, 1}
    ensures var (w', x) := (Step(w, self), Me(w, self));
      && Total(w') <= Total(w) && Pot(w'.a) <= Pot(w.a) && Pot(w'.b) <= Pot(w.b)
      && (!Waiting(x.pc) && !x.pc.Done? ==> Total(w') < Total(w))
      && (Waiting(x.pc) ==> Waiting(Me(w', self).pc) || Total(w') < Total(w))
      && Me(w', 1 - self).pc == Me(w, 1 - self).pc
  {
    CountsSwap(w, n);
    if self == 0 { PotSteps(w.sh, w.a, w.b, 0, n); } else { PotSteps(w.sh, w.b, w.a, 1, n); }
    hide Act, Pot, WorkerOk, CountsOk, Waiting;
  }

  lemma TotalBound(w: World, n: nat)
    requires Inv(w, n)
    ensures Total(w) >= 0
  {
  }

  /** What one step of a scheduled run does to the measure. */
  lemma DidSteps(ws: seq<World>, sched: seq<int>, n: nat, j: nat)
    requires Scheduled(ws, sched, n) && 0 < j < |ws|
    ensures |ws| == |sched| + 1 && Inv(ws[j - 1], n) && !ws[j - 1].sh.exited && sched[j - 1] in {0, 1} && ws[j] == Step(ws[j - 1], sched[j - 1])
  {
    hide Inv, Step, Init;
    ScheduledRuns(ws, sched, n);
    RunKeeps(ws, n, j - 1);
    assert Did(ws[j - 1], sched[j - 1], ws[j]);
  }

  lemma {:induction false} TotalFalls(ws: seq<World>, sched: seq<int>, n: nat, i: nat, j: nat)
    requires Scheduled(ws, sched, n) && i <= j < |ws|
    ensures Total(ws[j]) <= Total(ws[i]) && Pot(ws[j].a) <= Pot(ws[i].a) && Pot(ws[j].b) <= Pot(ws[i].b)
    decreases j
  {
    hide Inv, Step, Total, Pot, Scheduled;
    if i < j {
      TotalFalls(ws, sched, n, i, j - 1);
      DidSteps(ws, sched, n, j);
      TotalSteps(ws[j - 1], sched[j - 1], n);
    }
  }

  /** A worker that neither waits nor is done, and makes a step. */
  lemma {:induction false} ActiveFalls(ws: seq<World>, sched: seq<int>, n: nat, i: nat, j: nat, self: int)
    requires Scheduled(ws, sched, n) && i <= j < |ws| && self in {0, 1}
    requires !Waiting(Me(ws[i], self).pc) && !Me(ws[i], self).pc.Done?
    ensures if Steps(sched, i, j, self) > 0 then Total(ws[j]) < Total(ws[i]) else Me(ws[j], self).pc == Me(ws[i], self).pc
    decreases j
  {
    hide Inv, Step, Total, Pot, Scheduled;
    if i < j {
      ActiveFalls(ws, sched, n, i, j - 1, self);
      TotalFalls(ws, sched, n, i, j - 1);
      DidSteps(ws, sched, n, j);
      TotalSteps(ws[j - 1], sched[j - 1], n);
    }
  }

  /** A worker that waits, until it is inside. */
  lemma {:induction false} WaiterFalls(ws: seq<World>, sched: seq<int>, n: nat, i: nat, j: nat, self: int)
    requires Scheduled(ws, sched, n) && i <= j < |ws| && self in {0, 1} && Waiting(Me(ws[i], self).pc)
    ensures Waiting(Me(ws[j], self).pc) || Total(ws[j]) < Total(ws[i])
    decreases j
  {
    hide Inv, Step, Total, Pot, Scheduled;
    if i < j {
      WaiterFalls(ws, sched, n, i, j - 1, self);
      TotalFalls(ws, sched, n, i, j - 1);
      DidSteps(ws, sched, n, j);
      TotalSteps(ws[j - 1], sched[j - 1], n);
    }
  }

  /** Under a schedule that is fair within m steps, 9 m steps bring the end closer. */
  lemma WindowFalls(ws: seq<World>, sched: seq<int>, n: nat, i: nat, m: nat)
    requires Scheduled(ws, sched, n) && Fair(sched, m) && i + 9 * m <= |sched|
    ensures Total(ws[i + 9 * m]) < Total(ws[i])
  {
    ScheduledRuns(ws, sched, n);
    OneReports(ws, n, i, 0);
    TotalFalls(ws, sched, n, i + m, i + 9 * m);
    hide Fair, Scheduled, Run, Total, Step;
    var self := if Waiting(ws[i].a.pc) || ws[i].b.pc.Done? then 0 else 1;
    if Waiting(Me(ws[i], self).pc) {
      EntersWithin(ws, sched, n, i, m, self);
      var h :| i <= h <= i + 9 * m && Critical(Me(ws[h], self).pc);
      WaiterFalls(ws, sched, n, i, h, self);
      TotalFalls(ws, sched, n, h, i + 9 * m);
    } else {
      FairSteps(sched, m, i, 1, self);
      ActiveFalls(ws, sched, n, i, i + m, self);
    }
  }

  lemma {:induction false} WindowsFall(ws: seq<World>, sched: seq<int>, n: nat, m: nat, c: nat)
    requires Scheduled(ws, sched, n) && Fair(sched, m) && c * (9 * m) <= |sched|
    ensures Total(ws[c * (9 * m)]) + c <= Total(ws[0])
    decreases c
  {
    if c > 0 {
      assert (c - 1) * (9 * m) + 9 * m == c * (9 * m);
      WindowsFall(ws, sched, n, m, c - 1);
      WindowFalls(ws, sched, n, (c - 1) * (9 * m), m);
    }
  }

  /** The program comes to its report: a run whose schedule is fair within m steps has fewer than 9 m (12 n + 16)
      steps; as long as the process has not ended either worker can go on; and when it ends both have reported and
      the counter is 2 n. */
  lemma ReportMade(ws: seq<World>, sched: seq<int>, n: nat, m: nat)
    requires Scheduled(ws, sched, n) && Fair(sched, m)
    ensures |sched| < (12 * n + 16) * (9 * m)
    ensures var w := ws[|sched|];
      if w.sh.exited then w.sh.finished == 2 && w.sh.counter == 2 * n
      else forall self | self in {0, 1} :: Scheduled(ws + [Step(w, self)], sched + [self], n)
  {
    ScheduledRuns(ws, sched, n);
    RunKeeps(ws, n, |sched|);
    CounterExact(ws, n, |sched|);
    hide Step;
    if |sched| >= (12 * n + 16) * (9 * m) {
      WindowsFall(ws, sched, n, m, 12 * n + 16);
      RunKeeps(ws, n, (12 * n + 16) * (9 * m));
      TotalBound(ws[(12 * n + 16) * (9 * m)], n);
    }
    var w := ws[|sched|];
    forall self | self in {0, 1} && !w.sh.exited ensures Scheduled(ws + [Step(w, self)], sched + [self], n) {
      Extended(ws, sched, n, self);
    }
  }

  lemma Extended(ws: seq<World>, sched: seq<int>, n: nat, self: int)
    requires Scheduled(ws, sched, n) && self in {0, 1} && !ws[|sched|].sh.exited
    ensures Scheduled(ws + [Step(ws[|sched|], self)], sched + [self], n)
  {
    hide Step, Init;
    var (us, s) := (ws + [Step(ws[|sched|], self)], sched + [self]);
    forall i, j | 0 <= i && j == i + 1 < |us| ensures Did(us[i], s[i], us[j]) {
      if j < |ws| { assert Did(ws[i], sched[i], ws[j]); }
    }
  }

  // ----- the demo program itself -----

  /** The shared variables of the program, updated in place one access at a time, and the two workers'
      program counters and loop counters. */
  class Demo {
    var flag: array<bool>
    var turn: int
    var counter: int
    var finished: int
    var exited: bool
    var pc: seq<Pc>
    var left: seq<int>
    ghost var passed: seq<nat>

    ghost predicate Valid()
      reads this
    {
      flag.Length == 2 && |pc| == 2 && |left| == 2 && |passed| == 2
    }

    ghost function View(): World
      requires Valid()
      reads this, flag
    {
      World(Shared(turn, counter, finished, exited),
            Worker(flag[0], pc[0], left[0], passed[0]), Worker(flag[1], pc[1], left[1], passed[1]))
    }

    constructor (n: nat)
      ensures Valid() && View() == Init(n) && fresh(flag)
    {
      flag := new bool[2](_ => false);
      turn, counter, finished, exited := 0, 0, 0, false;
      pc, left, passed := [SetFlag, SetFlag], [n, n], [0, 0];
    }

    /** One shared access by worker self. */
    method Advance(self: int)
      requires Valid() && self in {0, 1}
      modifies this, flag
      ensures Valid() && flag == old(flag) && View() == Step(old(View()), self)
    {
      var other := 1 - self;
      match pc[self] {
        case SetFlag => flag[self] := true; pc := pc[self := SetTurn];
        case SetTurn => turn := other; pc := pc[self := ReadFlag]; passed := passed[self := 0];
        case ReadFlag => if flag[other] { pc := pc[self := ReadTurn]; } else { EnterSection(self); }
        case ReadTurn => if turn == other { pc := pc[self := ReadFlag]; } else { EnterSection(self); }
        case ClearFlag(last) => flag[self] := false; pc := pc[self := if last then Done else SetFlag];
        case Done =>
        case _ => AdvanceSection(self);
      }
    }

    method EnterSection(self: int)
      requires Valid() && self in {0, 1}
      modifies this`pc, this`passed
      ensures Valid() && pc == old(pc)[self := if left[self] > 0 then ReadCounter else ReadFinished]
      ensures passed == old(passed)[1 - self := old(passed)[1 - self] + 1]
    {
      pc := pc[self := if left[self] > 0 then ReadCounter else ReadFinished];
      passed := passed[1 - self := passed[1 - self] + 1];
    }

    /** The accesses between lock and unlock. */
    method AdvanceSection(self: int)
      requires Valid() && self in {0, 1} && Critical(pc[self]) && !pc[self].ClearFlag?
      modifies this`pc, this`counter, this`finished, this`left, this`exited
      ensures Valid() && View() == Step(old(View()), self)
    {
      match pc[self] {
        case ReadCounter => pc := pc[self := WriteCounter(counter)];
        case WriteCounter(temp) =>
          counter, left, pc := temp + 1, left[self := left[self] - 1], pc[self := ClearFlag(false)];
        case ReadFinished => pc := pc[self := WriteFinished(finished)];
        case WriteFinished(seen) => finished, pc := seen + 1, pc[self := Report];
        case Report => if finished == 2 { exited := true; } else { pc := pc[self := ClearFlag(true)]; }
      }
    }
  }
}
