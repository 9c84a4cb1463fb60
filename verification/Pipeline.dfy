/** tests/test_channel.c for any number of items and any capacities: stage 1 sends messages through
    channel a to stage 2, which doubles them in place and sends them through channel b to stage 3. */
module Pipeline {
  import opened Basics
  import C = Channel

  /** What stage 2 is doing: receiving, holding a message it has received, holding a doubled message,
      or sending it on. */
  datatype Middle = Receiving | Holding(p: int) | Doubled(p: int) | Sending

  /** Threads 0, 1 and 2 are the stages. cells is the heap of malloc'ed ints; sent, got2 and got3 count
      the loop iterations begun; out is what stage 3 has printed; fault: a freed cell was touched. */
  datatype World = World(n: nat, a: C.Chan, b: C.Chan, cells: map<int, int>, sent: nat, got2: nat, got3: nat,
                         middle: Middle, out: seq<int>, fault: bool)

  function Init(n: nat, capA: nat, capB: nat, bufA: seq<int>, bufB: seq<int>): World
    requires 0 < capA && 0 < capB && |bufA| == |bufB| == C.MAX_CAPACITY
  {
    World(n, C.Init(capA, bufA, 3), C.Init(capB, bufB, 3), map[], 0, 0, 0, Receiving, [], false)
  }

  datatype Event =
    | StepA(t: int) | StepB(t: int)   // a step inside a channel call
    | Malloc(p: int)                  // stage 1: the address malloc returns; store i and begin to send
    | Receive2 | Accept2 | Double | Forward | Sent2
    | Receive3 | Print3               // stage 3 begins to receive; it prints and frees

  ghost predicate Enabled(w: World, e: Event) {
    && |w.a.pc| == 3 && |w.b.pc| == 3 && C.Sizes(w.a) && C.Sizes(w.b)
    && match e
       case StepA(t) => C.CanStep(w.a, t)
       case StepB(t) => C.CanStep(w.b, t)
       case Malloc(p) => p !in w.cells && w.sent < w.n && w.a.pc[0].Idle?
       case Receive2 => w.middle.Receiving? && w.got2 < w.n && w.a.pc[1].Idle?
       case Accept2 => w.middle.Receiving? && w.a.pc[1].Returned?
       case Double => w.middle.Holding?
       case Forward => w.middle.Doubled? && w.b.pc[1].Idle?
       case Sent2 => w.middle.Sending? && w.b.pc[1].Idle?
       case Receive3 => w.got3 < w.n && w.b.pc[2].Idle?
       case Print3 => w.b.pc[2].Returned?
  }

  function Apply(w: World, e: Event): World
    requires Enabled(w, e)
  {
    match e
    case StepA(t) => w.(a := C.Step(w.a, t))
    case StepB(t) => w.(b := C.Step(w.b, t))
    case Malloc(p) => w.(cells := w.cells[p := w.sent + 1], a := C.Begin(w.a, 0, C.SendWait(p)), sent := w.sent + 1)
    case Receive2 => w.(a := C.Begin(w.a, 1, C.RecvWait), got2 := w.got2 + 1)
    case Accept2 => w.(a := C.Begin(w.a, 1, C.Idle), middle := Holding(w.a.pc[1].v))
    case Double =>
      var p := w.middle.p;
      if p in w.cells then w.(cells := w.cells[p := w.cells[p] * 2], middle := Doubled(p)) else w.(fault := true)
    case Forward => w.(b := C.Begin(w.b, 1, C.SendWait(w.middle.p)), middle := Sending)
    case Sent2 => w.(middle := Receiving)
    case Receive3 => w.(b := C.Begin(w.b, 2, C.RecvWait), got3 := w.got3 + 1)
    case Print3 =>
      var p := w.b.pc[2].v;
      if p in w.cells then w.(b := C.Begin(w.b, 2, C.Idle), out := w.out + [w.cells[p]], cells := w.cells - {p})
      else w.(fault := true)
  }

  ghost predicate AllDone(w: World)
    requires |w.a.pc| == 3 && |w.b.pc| == 3
  {
    && w.a.pc[0].Idle? && w.sent == w.n
    && w.middle.Receiving? && w.a.pc[1].Idle? && w.got2 == w.n
    && w.b.pc[2].Idle? && w.got3 == w.n
  }

  // ----- where the messages are -----

  /** c has three threads, of which s only sends and r only receives. */
  ghost predicate Roles(pc: seq<C.Pc>, s: int, r: int) {
    && |pc| == 3 && 0 <= s < 3 && 0 <= r < 3 && s != r && C.IsSender(pc[s]) && C.IsReceiver(pc[r])
    && forall t | 0 <= t < 3 && t != s && t != r :: pc[t].Idle?
  }

  /** The messages inside a channel, oldest first, with those in the hands of its two threads. */
  function Inside(c: C.Chan, s: int, r: int): seq<int>
    requires 0 <= s < |c.pc| && 0 <= r < |c.pc| && |c.taken| <= |c.written|
  {
    C.RecvHold(c.pc[r]) + C.Queue(c) + C.SendHold(c.pc[s])
  }

  lemma StepRoles(c: C.Chan, t: int, s: int, r: int)
    requires C.Inv(c) && C.CanStep(c, t) && Roles(c.pc, s, r)
    ensures C.Sizes(c) && (t == s || t == r) && Roles(C.Step(c, t).pc, s, r)
  {
    assert t == s || t == r;
    forall u | 0 <= u < 3 && u != t
      ensures C.Sizes(c) && (C.IsSender(c.pc[u]) ==> C.IsSender(C.Step(c, t).pc[u]))
      ensures C.IsReceiver(c.pc[u]) ==> C.IsReceiver(C.Step(c, t).pc[u])
      ensures c.pc[u].Idle? ==> C.Step(c, t).pc[u].Idle?
    {
      C.OtherHolds(c, t, u);
    }
    hide C.WaitersOk, C.OwnerOk, C.BalanceOk, C.FifoOk, C.Step, C.IsSender, C.IsReceiver;
    if t == s { C.SenderHolds(c, t); } else { C.ReceiverHolds(c, t); }
  }

  /** Step t of c moves messages along between sender s and receiver r. */
  ghost predicate Moves(c: C.Chan, c': C.Chan, s: int, r: int) {
    && 0 <= s < |c.pc| == |c'.pc| && 0 <= r < |c.pc| && |c.taken| <= |c.written| && |c'.taken| <= |c'.written|
    && Inside(c', s, r) == Inside(c, s, r)
    && |c'.taken| + C.Asking(c'.pc[r]) == |c.taken| + C.Asking(c.pc[r])
    && |c'.written| + |C.SendHold(c'.pc[s])| == |c.written| + |C.SendHold(c.pc[s])|
    && |c'.taken| - |C.RecvHold(c'.pc[r])| == |c.taken| - |C.RecvHold(c.pc[r])|
  }

  lemma SenderMoves(c: C.Chan, s: int, r: int)
    requires C.Inv(c) && C.CanStep(c, s) && 0 <= r < |c.pc| && s != r && C.IsSender(c.pc[s])
    ensures C.Sizes(c) && Moves(c, C.Step(c, s), s, r)
  {
    C.Refines(c, s);
    C.SenderHolds(c, s);
    C.OtherHolds(c, s, r);
    hide C.Inv, C.Step, C.CanStep, C.Sizes, C.IsSender, C.IsReceiver, C.Asking, C.Queue, C.RecvHold;
  }

  lemma Taken(q: seq<int>, held: seq<int>)
    requires q != []
    ensures [] + q + held == [q[0]] + q[1..] + held
  {
  }

  lemma ReceiverMoves(c: C.Chan, s: int, r: int)
    requires C.Inv(c) && C.CanStep(c, r) && 0 <= s < |c.pc| && s != r && C.IsReceiver(c.pc[r])
    ensures C.Sizes(c) && Moves(c, C.Step(c, r), s, r)
  {
    C.Refines(c, r);
    C.ReceiverHolds(c, r);
    C.OtherHolds(c, r, s);
    hide C.Inv, C.Step, C.CanStep, C.Sizes, C.IsSender, C.IsReceiver, C.Asking, C.Queue, C.RecvHold, C.SendHold;
    var q := C.Queue(c);
    if c.pc[r].RecvAdvance? { Taken(q, C.SendHold(c.pc[s])); }
  }

  /** A step inside a call moves messages along without losing, adding or reordering any. */
  lemma StepInside(c: C.Chan, t: int, s: int, r: int)
    requires C.Inv(c) && C.CanStep(c, t) && Roles(c.pc, s, r)
    ensures C.Sizes(c) && C.Inv(C.Step(c, t)) && Roles(C.Step(c, t).pc, s, r) && Moves(c, C.Step(c, t), s, r)
  {
    C.StepKeeps(c, t);
    StepRoles(c, t, s, r);
    hide C.Inv, C.Step, C.CanStep, C.Sizes, C.IsSender, C.IsReceiver, Moves;
    if t == s { SenderMoves(c, s, r); } else { ReceiverMoves(c, s, r); }
  }

  // ----- the invariant -----

  function Mid(m: Middle): seq<int> { if m.Holding? || m.Doubled? then [m.p] else [] }

  /** A channel with its two threads in their roles. */
  ghost predicate Good(c: C.Chan, s: int, r: int) {
    C.Inv(c) && Roles(c.pc, s, r) && |c.taken| <= |c.written|
  }

  /** Every message under way, the next one to be printed first. */
  ghost function Flight(a: C.Chan, m: Middle, b: C.Chan): seq<int>
    requires Good(a, 0, 1) && Good(b, 1, 2)
  {
    Inside(b, 1, 2) + Mid(m) + Inside(a, 0, 1)
  }

  /** How many of them stage 2 has doubled. */
  ghost function DoubledCount(m: Middle, b: C.Chan): int
    requires Good(b, 1, 2)
  {
    |Inside(b, 1, 2)| + if m.Doubled? then 1 else 0
  }

  /** The live cells are those under way, each once; the first `doubled` hold twice their number. */
  ghost predicate Worth(cells: map<int, int>, flight: seq<int>, doubled: int, base: int) {
    && NoDup(flight) && (forall p :: p in cells <==> p in flight)
    && forall i | 0 <= i < |flight| :: cells[flight[i]] == if i < doubled then 2 * (base + i + 1) else base + i + 1
  }

  ghost predicate Counts(w: World)
    requires Good(w.a, 0, 1) && Good(w.b, 1, 2)
  {
    && w.sent <= w.n && w.got2 <= w.n && w.got3 <= w.n
    && w.sent == |w.a.written| + |C.SendHold(w.a.pc[0])|
    && w.got2 == |w.a.taken| + C.Asking(w.a.pc[1])
    && w.got3 == |w.b.taken| + C.Asking(w.b.pc[2])
    && |w.out| == |w.b.taken| - |C.RecvHold(w.b.pc[2])|
    && |w.out| + |Flight(w.a, w.middle, w.b)| == w.sent
    && (!w.a.pc[1].Idle? ==> w.middle.Receiving?) && (!w.b.pc[1].Idle? ==> w.middle.Sending?)
  }

  ghost predicate Inv(w: World) {
    && Good(w.a, 0, 1) && Good(w.b, 1, 2) && !w.fault && Counts(w)
    && Worth(w.cells, Flight(w.a, w.middle, w.b), DoubledCount(w.middle, w.b), |w.out|)
    && forall i | 0 <= i < |w.out| :: w.out[i] == 2 * (i + 1)
  }

  lemma StepACounts(w: World, t: int)
    requires Inv(w) && Enabled(w, StepA(t))
    ensures var r := Apply(w, StepA(t));
      Good(r.a, 0, 1) && Flight(r.a, r.middle, r.b) == Flight(w.a, w.middle, w.b) && Counts(r)
  {
    StepInside(w.a, t, 0, 1);
    hide C.Inv, C.Step, C.CanStep, C.Sizes, C.IsSender, C.IsReceiver, Worth, Inside, C.SendHold, C.RecvHold, C.Asking;
    ReceiverStays(w.a, t, 0, 1);
  }

  lemma StepAKeeps(w: World, t: int)
    requires Inv(w) && Enabled(w, StepA(t))
    ensures Inv(Apply(w, StepA(t)))
  {
    hide Good, Worth, Flight, Counts, C.Step, C.CanStep, C.Sizes;
    StepACounts(w, t);
  }

  lemma StepBCounts(w: World, t: int)
    requires Inv(w) && Enabled(w, StepB(t))
    ensures var r := Apply(w, StepB(t));
      && Good(r.b, 1, 2) && Flight(r.a, r.middle, r.b) == Flight(w.a, w.middle, w.b) && Counts(r)
      && DoubledCount(r.middle, r.b) == DoubledCount(w.middle, w.b)
  {
    StepInside(w.b, t, 1, 2);
    hide C.Inv, C.Step, C.CanStep, C.Sizes, C.IsSender, C.IsReceiver, Worth, Inside, C.SendHold, C.RecvHold, C.Asking;
    ReceiverStays(w.b, t, 1, 2);
  }

  lemma StepBKeeps(w: World, t: int)
    requires Inv(w) && Enabled(w, StepB(t))
    ensures Inv(Apply(w, StepB(t)))
  {
    hide Good, Worth, Flight, DoubledCount, Counts, C.Step, C.CanStep, C.Sizes;
    StepBCounts(w, t);
  }

  /** A thread that is in no call does not enter one by a step. */
  lemma ReceiverStays(c: C.Chan, t: int, s: int, r: int)
    requires C.Inv(c) && C.CanStep(c, t) && Roles(c.pc, s, r)
    ensures C.Sizes(c) && (c.pc[s].Idle? ==> C.Step(c, t).pc[s].Idle?) && (c.pc[r].Idle? ==> C.Step(c, t).pc[r].Idle?)
  {
    if t != s { C.OtherHolds(c, t, s); }
    if t != r { C.OtherHolds(c, t, r); }
    hide C.Inv, C.Step;
  }

  /** c' is c after thread t began or ended a call. */
  ghost predicate Began(c: C.Chan, c': C.Chan, t: int, s: int, r: int) {
    && Good(c, s, r) && Good(c', s, r) && (t == s || t == r)
    && c'.written == c.written && c'.taken == c.taken && c'.pc[s + r - t] == c.pc[s + r - t]
  }

  lemma BeginBegan(c: C.Chan, t: int, p: C.Pc, s: int, r: int)
    requires Good(c, s, r) && (t == s || t == r) && C.Resting(c.pc[t])
    requires if t == s then p.SendWait? else p.Idle? || p.RecvWait?
    ensures Began(c, C.Begin(c, t, p), t, s, r)
  {
    hide C.Inv;
    C.BeginKeeps(c, t, p);
    assert C.IsSender(C.Begin(c, t, p).pc[s]) && C.IsReceiver(C.Begin(c, t, p).pc[r]);
    hide C.IsSender, C.IsReceiver;
  }

  lemma StartSend(c: C.Chan, p: int, s: int, r: int)
    requires Good(c, s, r) && c.pc[s].Idle?
    ensures var c' := C.Begin(c, s, C.SendWait(p));
      && Began(c, c', s, s, r) && !c'.pc[s].Idle? && Inside(c', s, r) == Inside(c, s, r) + [p]
      && C.SendHold(c.pc[s]) == [] && C.SendHold(c'.pc[s]) == [p]
  {
    BeginBegan(c, s, C.SendWait(p), s, r);
    hide C.Inv, C.IsSender, C.IsReceiver, C.RecvHold, C.Asking;
  }

  lemma StartReceive(c: C.Chan, s: int, r: int)
    requires Good(c, s, r) && c.pc[r].Idle?
    ensures var c' := C.Begin(c, r, C.RecvWait);
      && Began(c, c', r, s, r) && !c'.pc[r].Idle? && Inside(c', s, r) == Inside(c, s, r)
      && C.RecvHold(c.pc[r]) == [] == C.RecvHold(c'.pc[r]) && C.Asking(c.pc[r]) == 0 && C.Asking(c'.pc[r]) == 1
  {
    BeginBegan(c, r, C.RecvWait, s, r);
    hide C.Inv, C.IsSender, C.IsReceiver, C.SendHold;
  }

  lemma Pop(v: int, q: seq<int>, held: seq<int>)
    ensures [v] + q + held == [v] + ([] + q + held)
  {
  }

  lemma PutAway(c: C.Chan, s: int, r: int)
    requires Good(c, s, r) && c.pc[r].Returned?
    ensures var c' := C.Begin(c, r, C.Idle);
      && Began(c, c', r, s, r) && c'.pc[r].Idle? && Inside(c, s, r) == [c.pc[r].v] + Inside(c', s, r)
      && |C.RecvHold(c.pc[r])| == 1 && C.RecvHold(c'.pc[r]) == [] && C.Asking(c.pc[r]) == 0 == C.Asking(c'.pc[r])
  {
    BeginBegan(c, r, C.Idle, s, r);
    hide C.Inv, C.IsSender, C.IsReceiver, C.SendHold, C.Queue;
    Pop(c.pc[r].v, C.Queue(c), C.SendHold(c.pc[s]));
  }

  lemma WorthAppend(cells: map<int, int>, flight: seq<int>, doubled: int, base: int, p: int)
    requires Worth(cells, flight, doubled, base) && p !in cells && doubled <= |flight|
    ensures Worth(cells[p := base + |flight| + 1], flight + [p], doubled, base)
  {
  }

  lemma WorthDouble(cells: map<int, int>, flight: seq<int>, doubled: int, base: int)
    requires Worth(cells, flight, doubled, base) && 0 <= doubled < |flight|
    ensures var p := flight[doubled]; p in cells && Worth(cells[p := cells[p] * 2], flight, doubled + 1, base)
  {
  }

  lemma WorthPop(cells: map<int, int>, flight: seq<int>, doubled: int, base: int)
    requires Worth(cells, flight, doubled, base) && 0 < doubled <= |flight|
    ensures var p := flight[0];
      p in cells && cells[p] == 2 * (base + 1) && Worth(cells - {p}, flight[1..], doubled - 1, base + 1)
  {
  }

  lemma MallocKeeps(w: World, p: int)
    requires Inv(w) && Enabled(w, Malloc(p))
    ensures Inv(Apply(w, Malloc(p)))
  {
    hide C.Inv, C.CanStep, C.Sizes, C.Begin, Roles, Worth, Inside, C.SendHold, C.RecvHold, C.Asking;
    StartSend(w.a, p, 0, 1);
    var (flight, r) := (Flight(w.a, w.middle, w.b), Apply(w, Malloc(p)));
    assert Flight(r.a, r.middle, r.b) == flight + [p];
    WorthAppend(w.cells, flight, DoubledCount(w.middle, w.b), |w.out|, p);
  }

  lemma Receive2Keeps(w: World)
    requires Inv(w) && Enabled(w, Receive2)
    ensures Inv(Apply(w, Receive2))
  {
    hide C.Inv, C.CanStep, C.Sizes, C.Begin, Roles, Worth, Inside, C.SendHold, C.RecvHold, C.Asking;
    StartReceive(w.a, 0, 1);
  }

  lemma Accept2Keeps(w: World)
    requires Inv(w) && Enabled(w, Accept2)
    ensures Inv(Apply(w, Accept2))
  {
    hide C.Inv, C.CanStep, C.Sizes, C.Begin, Roles, Worth, Inside, C.SendHold, C.RecvHold, C.Asking;
    PutAway(w.a, 0, 1);
    var r := Apply(w, Accept2);
    assert Flight(r.a, r.middle, r.b) == Flight(w.a, w.middle, w.b);
  }

  lemma DoubleKeeps(w: World)
    requires Inv(w) && Enabled(w, Double)
    ensures Inv(Apply(w, Double))
  {
    hide C.Inv, C.CanStep, C.Sizes, Roles, Worth, Inside, C.SendHold, C.RecvHold, C.Asking;
    var (flight, d) := (Flight(w.a, w.middle, w.b), DoubledCount(w.middle, w.b));
    assert flight[d] == w.middle.p;
    WorthDouble(w.cells, flight, d, |w.out|);
  }

  lemma ForwardKeeps(w: World)
    requires Inv(w) && Enabled(w, Forward)
    ensures Inv(Apply(w, Forward))
  {
    hide C.Inv, C.CanStep, C.Sizes, C.Begin, Roles, Worth, Inside, C.SendHold, C.RecvHold, C.Asking;
    StartSend(w.b, w.middle.p, 1, 2);
    var r := Apply(w, Forward);
    assert Flight(r.a, r.middle, r.b) == Flight(w.a, w.middle, w.b);
  }

  lemma Sent2Keeps(w: World)
    requires Inv(w) && Enabled(w, Sent2)
    ensures Inv(Apply(w, Sent2))
  {
    hide C.Inv, C.CanStep, C.Sizes, Roles, Worth, Inside, C.SendHold, C.RecvHold, C.Asking;
  }

  lemma Receive3Keeps(w: World)
    requires Inv(w) && Enabled(w, Receive3)
    ensures Inv(Apply(w, Receive3))
  {
    hide C.Inv, C.CanStep, C.Sizes, C.Begin, Roles, Worth, Inside, C.SendHold, C.RecvHold, C.Asking;
    StartReceive(w.b, 1, 2);
  }

  lemma Print3Keeps(w: World)
    requires Inv(w) && Enabled(w, Print3)
    ensures Inv(Apply(w, Print3))
  {
    hide C.Inv, C.CanStep, C.Sizes, C.Begin, Roles, Worth, Inside, C.SendHold, C.RecvHold, C.Asking;
    PutAway(w.b, 1, 2);
    var flight := Flight(w.a, w.middle, w.b);
    assert flight[0] == w.b.pc[2].v;
    WorthPop(w.cells, flight, DoubledCount(w.middle, w.b), |w.out|);
    var r := Apply(w, Print3);
    assert Flight(r.a, r.middle, r.b) == flight[1..];
  }

  /** Every event of every interleaving keeps the invariant; in particular no freed cell is touched. */
  lemma ApplyKeeps(w: World, e: Event)
    requires Inv(w) && Enabled(w, e)
    ensures Inv(Apply(w, e))
  {
    hide Inv, Enabled, Apply;
    match e
    case StepA(t) => StepAKeeps(w, t);
    case StepB(t) => StepBKeeps(w, t);
    case Malloc(p) => MallocKeeps(w, p);
    case Receive2 => Receive2Keeps(w);
    case Accept2 => Accept2Keeps(w);
    case Double => DoubleKeeps(w);
    case Forward => ForwardKeeps(w);
    case Sent2 => Sent2Keeps(w);
    case Receive3 => Receive3Keeps(w);
    case Print3 => Print3Keeps(w);
  }

  /** w is where the program starts, with any number of items and any capacities. */
  ghost predicate Starts(w: World) {
    && 0 < w.a.capacity <= C.MAX_CAPACITY == |w.a.buffer| && 0 < w.b.capacity <= C.MAX_CAPACITY == |w.b.buffer|
    && w == Init(w.n, w.a.capacity, w.b.capacity, w.a.buffer, w.b.buffer)
  }

  lemma StartsKeeps(w: World)
    requires Starts(w)
    ensures Inv(w)
  {
    C.FreshOk(w.a.capacity, w.a.buffer, 3);
    C.FreshOk(w.b.capacity, w.b.buffer, 3);
    hide C.Inv;
  }

  // ----- no deadlock -----

  lemma Unused(s: set<int>) returns (p: int)
    ensures p !in s && forall x | x in s :: x < p
  {
    if x :| x in s {
      var q := Unused(s - {x});
      p := if q > x then q else x + 1;
      forall y | y in s ensures y < p { assert y == x || y in s - {x}; }
    } else {
      p := 0;
    }
  }

  /** A channel of a pipeline at a standstill: either side waits only when the channel is full or empty. */
  lemma Blocked(c: C.Chan, s: int, r: int)
    requires Good(c, s, r) && forall t :: !C.CanStep(c, t)
    ensures c.pc[s].Idle? || (c.pc[s].SendQueued? && |c.taken| < |c.written|)
    ensures c.pc[r].Idle? || c.pc[r].Returned? || (c.pc[r].RecvQueued? && |c.taken| == |c.written|)
  {
    C.Standstill(c);
    assert 0 < c.capacity;
    hide C.WaitersOk, C.OwnerOk, C.BalanceOk, C.FifoOk;
  }

  /** When no event is possible, all three stages have finished, stage 3 has received all n items, and
      every cell has been freed. */
  lemma Stuck(w: World)
    requires Inv(w) && forall e :: !Enabled(w, e)
    ensures AllDone(w) && |w.out| == w.n && w.cells == map[]
  {
    forall t ensures !C.CanStep(w.a, t) && !C.CanStep(w.b, t) {
      assert !Enabled(w, StepA(t)) && !Enabled(w, StepB(t));
    }
    Blocked(w.a, 0, 1);
    Blocked(w.b, 1, 2);
    NothingBegins(w);
    hide Enabled, C.CanStep, C.Inv, Worth, C.IsSender, C.IsReceiver;
    assert Flight(w.a, w.middle, w.b) == [];
    NothingLeft(w);
  }

  lemma NothingLeft(w: World)
    requires Inv(w) && Flight(w.a, w.middle, w.b) == []
    ensures w.cells == map[]
  {
    hide C.Inv, Counts;
    forall p ensures p !in w.cells { }
  }

  lemma SizesOf(w: World)
    requires Inv(w)
    ensures C.Sizes(w.a) && C.Sizes(w.b) && |w.a.pc| == |w.b.pc| == 3
  {
    hide C.WaitersOk, C.OwnerOk, C.BalanceOk, C.FifoOk, Counts, Worth, Flight;
  }

  lemma NothingBegins(w: World)
    requires Inv(w) && forall e :: !Enabled(w, e)
    ensures |w.a.pc| == |w.b.pc| == 3
    ensures !w.a.pc[1].Returned? && !w.b.pc[2].Returned? && !w.middle.Holding?
    ensures w.a.pc[0].Idle? ==> w.sent == w.n
    ensures w.a.pc[1].Idle? && w.middle.Receiving? ==> w.got2 == w.n
    ensures w.b.pc[1].Idle? ==> w.middle.Receiving?
    ensures w.b.pc[2].Idle? ==> w.got3 == w.n
  {
    SizesOf(w);
    assert w.sent <= w.n && w.got2 <= w.n && w.got3 <= w.n && (w.a.pc[1].Returned? ==> w.middle.Receiving?);
    hide Inv, C.Sizes, C.CanStep;
    OuterBegin(w);
    MiddleBegins(w);
  }

  lemma OuterBegin(w: World)
    requires C.Sizes(w.a) && C.Sizes(w.b) && |w.a.pc| == |w.b.pc| == 3 && forall e :: !Enabled(w, e)
    ensures w.a.pc[0].Idle? ==> w.sent >= w.n
    ensures !w.b.pc[2].Returned? && (w.b.pc[2].Idle? ==> w.got3 >= w.n)
  {
    hide C.Sizes, C.CanStep;
    var p := Unused(w.cells.Keys);
    assert !Enabled(w, Malloc(p)) && !Enabled(w, Receive3) && !Enabled(w, Print3);
  }

  lemma MiddleBegins(w: World)
    requires C.Sizes(w.a) && C.Sizes(w.b) && |w.a.pc| == |w.b.pc| == 3 && forall e :: !Enabled(w, e)
    ensures w.middle.Receiving? ==> !w.a.pc[1].Returned? && (w.a.pc[1].Idle? ==> w.got2 >= w.n)
    ensures !w.middle.Holding? && (w.b.pc[1].Idle? ==> w.middle.Receiving?)
  {
    hide C.Sizes, C.CanStep;
    assert !Enabled(w, Receive2) && !Enabled(w, Accept2) && !Enabled(w, Double);
    assert !Enabled(w, Forward) && !Enabled(w, Sent2);
  }

  // ----- runs -----

  function MiddleRank(m: Middle, p: C.Pc): int {
    match m
    case Receiving => if p.Idle? then 0 else 19
    case Holding(_) => 19
    case Doubled(_) => 18
    case Sending => 7
  }

  /** How many events are left at most. */
  ghost function Left(w: World): int
    requires |w.a.pc| == 3
  {
    30 * (w.n - w.sent + w.n - w.got2 + w.n - w.got3) + SumF(w.a.pc, C.Rank) + SumF(w.b.pc, C.Rank)
    + MiddleRank(w.middle, w.a.pc[1])
  }

  lemma BeginRank(c: C.Chan, t: nat, p: C.Pc)
    requires t < |c.pc|
    ensures SumF(C.Begin(c, t, p).pc, C.Rank) == SumF(c.pc, C.Rank) - C.Rank(c.pc[t]) + C.Rank(p)
  {
    SumFUpdate(c.pc, C.Rank, t, p);
  }

  lemma LeftBound(w: World)
    requires Inv(w)
    ensures Left(w) >= 0
  {
    hide C.Inv, Worth, Flight;
    SumFBound(w.a.pc, C.Rank);
    SumFBound(w.b.pc, C.Rank);
  }

  /** Event e, leading from w to w', leaves fewer events to come. */
  ghost predicate Advances(w: World, w': World) {
    w'.n == w.n && |w.a.pc| == |w'.a.pc| == 3 && Left(w') < Left(w)
  }

  lemma StepARank(w: World, t: int)
    requires Inv(w) && Enabled(w, StepA(t))
    ensures Advances(w, Apply(w, StepA(t)))
  {
    C.StepRank(w.a, t);
    ReceiverStays(w.a, t, 0, 1);
    hide C.Inv, C.Step, Worth, Flight, C.Rank;
  }

  lemma StepBRank(w: World, t: int)
    requires Inv(w) && Enabled(w, StepB(t))
    ensures Advances(w, Apply(w, StepB(t)))
  {
    C.StepRank(w.b, t);
    hide C.Inv, C.Step, Worth, Flight, C.Rank;
  }

  lemma NoFault(w: World, e: Event)
    requires Inv(w) && Enabled(w, e)
    ensures !Apply(w, e).fault
  {
    ApplyKeeps(w, e);
    hide Enabled, Apply, Good, Counts, Worth;
  }

  lemma ARank(w: World, e: Event)
    requires Inv(w) && Enabled(w, e) && (e.Malloc? || e.Receive2? || e.Accept2?)
    ensures Advances(w, Apply(w, e))
  {
    SizesOf(w);
    hide Inv, C.Sizes, C.CanStep;
    match e
    case Malloc(p) => BeginRank(w.a, 0, C.SendWait(p));
    case Receive2 => BeginRank(w.a, 1, C.RecvWait);
    case Accept2 => BeginRank(w.a, 1, C.Idle);
  }

  lemma BRank(w: World, e: Event)
    requires Inv(w) && Enabled(w, e) && (e.Forward? || e.Receive3?)
    ensures Advances(w, Apply(w, e))
  {
    SizesOf(w);
    hide Inv, C.Sizes, C.CanStep;
    match e
    case Forward => BeginRank(w.b, 1, C.SendWait(w.middle.p));
    case Receive3 => BeginRank(w.b, 2, C.RecvWait);
  }

  lemma PrintRank(w: World)
    requires Inv(w) && Enabled(w, Print3)
    ensures Advances(w, Apply(w, Print3))
  {
    NoFault(w, Print3);
    SizesOf(w);
    hide Inv, C.Sizes, C.CanStep;
    BeginRank(w.b, 2, C.Idle);
  }

  lemma MiddleMoves(w: World, e: Event)
    requires Inv(w) && Enabled(w, e) && (e.Double? || e.Sent2?)
    ensures Advances(w, Apply(w, e))
  {
    NoFault(w, e);
    assert w.middle.Sending? ==> w.a.pc[1].Idle?;
    hide Inv, C.Sizes, C.CanStep;
  }

  /** Every event leaves fewer events to come. */
  lemma Progress(w: World, e: Event)
    requires Inv(w) && Enabled(w, e)
    ensures Advances(w, Apply(w, e))
  {
    hide Inv, Enabled, Apply, Advances;
    match e
    case StepA(t) => StepARank(w, t);
    case StepB(t) => StepBRank(w, t);
    case Malloc(p) => ARank(w, e);
    case Receive2 => ARank(w, e);
    case Accept2 => ARank(w, e);
    case Double => MiddleMoves(w, e);
    case Forward => BRank(w, e);
    case Sent2 => MiddleMoves(w, e);
    case Receive3 => BRank(w, e);
    case Print3 => PrintRank(w);
  }

  lemma StartsLeft(w: World)
    requires Starts(w)
    ensures |w.a.pc| == 3 && Left(w) == 90 * w.n
  {
    SumFConst(w.a.pc, C.Rank, 0);
    SumFConst(w.b.pc, C.Rank, 0);
  }

  ghost predicate Next(w: World, w': World) { exists e :: Enabled(w, e) && w' == Apply(w, e) }

  ghost predicate Run(ws: seq<World>) {
    |ws| > 0 && Starts(ws[0]) && forall i, j | 0 <= i && j == i + 1 < |ws| :: Next(ws[i], ws[j])
  }

  lemma {:induction false} RunKeeps(ws: seq<World>, i: nat)
    requires Run(ws) && i < |ws|
    ensures Inv(ws[i]) && ws[i].n == ws[0].n && |ws[i].a.pc| == 3 && i + Left(ws[i]) <= 90 * ws[0].n
    decreases i
  {
    hide Inv, Enabled, Apply, Left, Starts;
    if i == 0 {
      StartsKeeps(ws[0]);
      StartsLeft(ws[0]);
    } else {
      RunKeeps(ws, i - 1);
      assert Next(ws[i - 1], ws[i]);
      var e :| Enabled(ws[i - 1], e) && ws[i] == Apply(ws[i - 1], e);
      ApplyKeeps(ws[i - 1], e);
      Progress(ws[i - 1], e);
    }
  }

  /** In every state of every run, for any item count, capacities and interleaving: no freed cell has
      been touched and stage 3 has received 2, 4, 6, ... in order. No run is longer than 90 n events,
      and a run stops only when every stage has finished and all n results have arrived. */
  lemma ExactAndDeadlockFree(ws: seq<World>, i: nat)
    requires Run(ws) && i < |ws|
    ensures !ws[i].fault && |ws[i].out| <= ws[i].n == ws[0].n
    ensures forall k | 0 <= k < |ws[i].out| :: ws[i].out[k] == 2 * (k + 1)
    ensures i <= 90 * ws[0].n
    ensures (forall e :: !Enabled(ws[i], e)) ==>
      |ws[i].a.pc| == |ws[i].b.pc| == 3 && AllDone(ws[i]) && |ws[i].out| == ws[i].n && ws[i].cells == map[]
  {
    RunKeeps(ws, i);
    LeftBound(ws[i]);
    if forall e :: !Enabled(ws[i], e) { Stuck(ws[i]); }
    hide C.Inv, Run, Enabled;
  }
}
