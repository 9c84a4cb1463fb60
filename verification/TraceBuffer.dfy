/** The lock-free saturating recorder: trace_emit by any number of concurrent emitters, one shared
    access per step. */
module TraceBuffer {
  import opened Basics
  import Trace

  datatype Record = Record(tid: int, kind: Trace.EventType, core: int)

  /** trace_event_t */
  datatype Slot = Slot(rec: Record, ts: int)

  /** An emitter is outside trace_emit, has claimed slot idx and written its first n fields (tid, type,
      timestamp, core), or has overrun the buffer and must still take its increment back. */
  datatype Emitter = Outside | Writing(idx: int, rec: Record, n: nat) | Undo

  /** safe: no store has missed the buffer. claims is history: what the successful claims will record,
      in claim order. */
  datatype World = World(count: int, buffer: seq<Slot>, safe: bool, emitters: seq<Emitter>, claims: seq<Record>)

  function Init(buffer: seq<Slot>, emitters: nat): World {
    World(0, buffer, true, seq(emitters, _ => Outside), [])
  }

  /** Field n of the slot is stored. */
  function Store(s: Slot, rec: Record, n: nat, now: int): Slot {
    if n == 0 then s.(rec := s.rec.(tid := rec.tid))
    else if n == 1 then s.(rec := s.rec.(kind := rec.kind))
    else if n == 2 then s.(ts := now)
    else s.(rec := s.rec.(core := rec.core))
  }

  /** The next shared access of emitter e; an emitter that is outside begins to record rec. */
  function Step(w: World, e: nat, rec: Record, now: int): World
    requires e < |w.emitters|
  {
    match w.emitters[e]
    case Outside =>
      if w.count >= |w.buffer| then w.(count := w.count + 1, emitters := w.emitters[e := Undo])
      else w.(count := w.count + 1, emitters := w.emitters[e := Writing(w.count, rec, 0)], claims := w.claims + [rec])
    case Undo => w.(count := w.count - 1, emitters := w.emitters[e := Outside])
    case Writing(idx, r, n) =>
      var w1 := w.(emitters := w.emitters[e := if n < 3 then Writing(idx, r, n + 1) else Outside]);
      if 0 <= idx < |w.buffer| then w1.(buffer := w.buffer[idx := Store(w.buffer[idx], r, n, now)])
      else w1.(safe := false)
  }

  /** Whose turn it is, with what it records if it is outside, and the clock. */
  datatype Turn = Turn(e: nat, rec: Record, now: int)

  ghost predicate Next(w: World, t: Turn, w': World) { t.e < |w.emitters| && w' == Step(w, t.e, t.rec, t.now) }

  /** A run with its schedule: turns[i] leads from ws[i] to ws[i + 1]. */
  ghost predicate Run(ws: seq<World>, turns: seq<Turn>) {
    && |ws| == |turns| + 1 && ws[0] == Init(ws[0].buffer, |ws[0].emitters|)
    && forall i, j | 0 <= i && j == i + 1 < |ws| :: Next(ws[i], turns[i], ws[j])
  }

  /** A call of trace_emit begins with this turn, and there is room. */
  predicate Admitted(w: World, t: Turn) {
    t.e < |w.emitters| && w.emitters[t.e].Outside? && w.count < |w.buffer|
  }

  /** What the calls that found room were asked to record, in the order of their beginnings. */
  function Asked(ws: seq<World>, turns: seq<Turn>, j: nat): seq<Record>
    requires j <= |turns| < |ws|
  {
    if j == 0 then []
    else Asked(ws, turns, j - 1) + if Admitted(ws[j - 1], turns[j - 1]) then [turns[j - 1].rec] else []
  }

  /** Slot idx has the time at which its writer made its third store. */
  ghost predicate Timed(ws: seq<World>, turns: seq<Turn>, j: nat, idx: int)
    requires j <= |turns| < |ws|
  {
    exists h :: 0 <= h < j && StoresTime(ws[h], turns[h], idx)
      && 0 <= idx < |ws[j].buffer| && ws[j].buffer[idx].ts == turns[h].now
  }

  predicate StoresTime(w: World, t: Turn, idx: int) {
    t.e < |w.emitters| && w.emitters[t.e].Writing? && w.emitters[t.e].idx == idx && w.emitters[t.e].n == 2
  }

  function Undoing(e: Emitter): int { if e.Undo? then 1 else 0 }

  /** How many increments are still to be taken back. */
  ghost function Pending(w: World): int { SumF(w.emitters, Undoing) }

  /** Nobody is writing slot idx. */
  ghost predicate Settled(emitters: seq<Emitter>, idx: int) {
    forall e | 0 <= e < |emitters| && emitters[e].Writing? :: emitters[e].idx != idx
  }

  /** What a writer has stored so far is in its slot, which is the slot of its claim. */
  ghost predicate WriterOk(x: Emitter, buffer: seq<Slot>, claims: seq<Record>) {
    x.Writing? ==>
      && 0 <= x.idx < |claims| <= |buffer| && claims[x.idx] == x.rec && x.n < 4
      && (x.n > 0 ==> buffer[x.idx].rec.tid == x.rec.tid)
      && (x.n > 1 ==> buffer[x.idx].rec.kind == x.rec.kind)
  }

  ghost predicate Distinct(emitters: seq<Emitter>) {
    forall e, f | 0 <= e < |emitters| && 0 <= f < |emitters| && e != f && emitters[e].Writing? && emitters[f].Writing? ::
      emitters[e].idx != emitters[f].idx
  }

  ghost predicate SlotsOk(buffer: seq<Slot>, claims: seq<Record>, emitters: seq<Emitter>) {
    && |claims| <= |buffer| && Distinct(emitters)
    && (forall e | 0 <= e < |emitters| :: WriterOk(emitters[e], buffer, claims))
    && (forall idx | 0 <= idx < |claims| && Settled(emitters, idx) :: buffer[idx].rec == claims[idx])
  }

  ghost predicate Inv(w: World) {
    && w.safe && SlotsOk(w.buffer, w.claims, w.emitters) && w.count == |w.claims| + Pending(w)
    && (Pending(w) > 0 ==> |w.claims| == |w.buffer|)
  }

  lemma PendingBounds(w: World)
    ensures Pending(w) >= 0
    ensures forall e | 0 <= e < |w.emitters| && w.emitters[e].Undo? :: Pending(w) >= 1
  {
    SumFBound(w.emitters, Undoing);
    forall e | 0 <= e < |w.emitters| && w.emitters[e].Undo? ensures Pending(w) >= 1 {
      assert Undoing(w.emitters[e]) == 1;
    }
  }

  /** Changing emitter e to something that does not settle idx: who had settled it before still has. */
  lemma SettledBefore(emitters: seq<Emitter>, e: nat, x: Emitter, idx: int)
    requires e < |emitters| && Settled(emitters[e := x], idx)
    requires emitters[e].Writing? ==> emitters[e].idx != idx
    ensures Settled(emitters, idx)
  {
    forall f | 0 <= f < |emitters| && emitters[f].Writing? ensures emitters[f].idx != idx {
      if f != e { assert emitters[e := x][f] == emitters[f]; }
    }
  }

  /** An emitter comes or goes without touching a slot. */
  lemma QuietSlots(w: World, e: nat, x: Emitter)
    requires SlotsOk(w.buffer, w.claims, w.emitters) && e < |w.emitters| && !x.Writing? && !w.emitters[e].Writing?
    ensures SlotsOk(w.buffer, w.claims, w.emitters[e := x])
  {
    forall idx | 0 <= idx < |w.claims| && Settled(w.emitters[e := x], idx) ensures w.buffer[idx].rec == w.claims[idx] {
      SettledBefore(w.emitters, e, x, idx);
    }
  }

  lemma ClaimSlots(w: World, e: nat, rec: Record)
    requires SlotsOk(w.buffer, w.claims, w.emitters) && e < |w.emitters| && w.emitters[e].Outside? && |w.claims| < |w.buffer|
    ensures SlotsOk(w.buffer, w.claims + [rec], w.emitters[e := Writing(|w.claims|, rec, 0)])
  {
    var em := w.emitters[e := Writing(|w.claims|, rec, 0)];
    assert em[e].Writing? && !Settled(em, |w.claims|);
    forall f | 0 <= f < |em| ensures WriterOk(em[f], w.buffer, w.claims + [rec]) {
      if f != e { assert WriterOk(w.emitters[f], w.buffer, w.claims); }
    }
    forall f, g | 0 <= f < |em| && 0 <= g < |em| && f != g && em[f].Writing? && em[g].Writing?
      ensures em[f].idx != em[g].idx
    {
      if f != e { assert WriterOk(w.emitters[f], w.buffer, w.claims); }
      if g != e { assert WriterOk(w.emitters[g], w.buffer, w.claims); }
    }
    forall idx | 0 <= idx < |w.claims| + 1 && Settled(em, idx) ensures w.buffer[idx].rec == (w.claims + [rec])[idx] {
      if idx < |w.claims| { SettledBefore(w.emitters, e, em[e], idx); }
    }
  }

  lemma StoreSlots(w: World, e: nat, now: int)
    requires SlotsOk(w.buffer, w.claims, w.emitters) && e < |w.emitters| && w.emitters[e].Writing?
    ensures var w' := Step(w, e, w.emitters[e].rec, now); SlotsOk(w'.buffer, w'.claims, w'.emitters)
  {
    var x := w.emitters[e];
    assert WriterOk(x, w.buffer, w.claims);
    var w' := Step(w, e, x.rec, now);
    forall f | 0 <= f < |w.emitters| ensures WriterOk(w'.emitters[f], w'.buffer, w'.claims) {
      if f != e { assert WriterOk(w.emitters[f], w.buffer, w.claims); }
    }
    forall idx | 0 <= idx < |w.claims| && Settled(w'.emitters, idx) ensures w'.buffer[idx].rec == w'.claims[idx] {
      if idx == x.idx {
        assert !w'.emitters[e].Writing?;
      } else {
        SettledBefore(w.emitters, e, w'.emitters[e], idx);
      }
    }
  }

  lemma SlotsBound(w: World)
    requires SlotsOk(w.buffer, w.claims, w.emitters)
    ensures |w.claims| <= |w.buffer|
    ensures forall e | 0 <= e < |w.emitters| && w.emitters[e].Writing? :: 0 <= w.emitters[e].idx < |w.buffer|
  {
    forall e | 0 <= e < |w.emitters| && w.emitters[e].Writing? ensures 0 <= w.emitters[e].idx < |w.buffer| {
      assert WriterOk(w.emitters[e], w.buffer, w.claims);
    }
  }

  lemma StepKeeps(w: World, e: nat, rec: Record, now: int)
    requires Inv(w) && e < |w.emitters|
    ensures Inv(Step(w, e, rec, now)) && w.claims <= Step(w, e, rec, now).claims
  {
    hide SlotsOk, WriterOk, Distinct, Settled;
    SlotsBound(w);
    PendingBounds(w);
    match w.emitters[e]
    case Outside =>
      SumFUpdate(w.emitters, Undoing, e, Undo);
      SumFUpdate(w.emitters, Undoing, e, Writing(w.count, rec, 0));
      if w.count >= |w.buffer| { QuietSlots(w, e, Undo); } else { ClaimSlots(w, e, rec); }
    case Undo =>
      SumFUpdate(w.emitters, Undoing, e, Outside);
      QuietSlots(w, e, Outside);
    case Writing(i, r, n) =>
      SumFUpdate(w.emitters, Undoing, e, if n < 3 then Writing(i, r, n + 1) else Outside);
      StoreSlots(w, e, now);
  }

  lemma {:induction false} RunKeeps(ws: seq<World>, turns: seq<Turn>, i: nat, j: nat)
    requires Run(ws, turns) && i <= j < |ws|
    ensures Inv(ws[i]) && Inv(ws[j]) && ws[i].claims <= ws[j].claims && |ws[j].buffer| == |ws[i].buffer|
    decreases j
  {
    hide Inv;
    if j > 0 {
      var h := if i < j then i else j - 1;
      RunKeeps(ws, turns, h, j - 1);
      assert Next(ws[j - 1], turns[j - 1], ws[j]);
      StepKeeps(ws[j - 1], turns[j - 1].e, turns[j - 1].rec, turns[j - 1].now);
    } else {
      InitOk(ws[0]);
    }
  }

  /** Each claim is what its call was asked to record. */
  lemma {:induction false} ClaimsAsked(ws: seq<World>, turns: seq<Turn>, j: nat)
    requires Run(ws, turns) && j < |ws|
    ensures ws[j].claims == Asked(ws, turns, j)
    decreases j
  {
    if j > 0 {
      ClaimsAsked(ws, turns, j - 1);
      assert Next(ws[j - 1], turns[j - 1], ws[j]);
    }
  }

  /** The writer of slot idx, if there still is one, has stored the time. */
  ghost predicate TimeStored(w: World, idx: int) {
    && 0 <= idx < |w.claims|
    && forall e | 0 <= e < |w.emitters| && w.emitters[e].Writing? && w.emitters[e].idx == idx :: w.emitters[e].n >= 3
  }

  lemma TimeStep(w: World, t: Turn, w': World, idx: int)
    requires Inv(w) && Next(w, t, w') && TimeStored(w', idx)
    ensures 0 <= idx < |w.buffer| == |w'.buffer|
    ensures || (StoresTime(w, t, idx) && w'.buffer[idx].ts == t.now)
            || (TimeStored(w, idx) && w'.buffer[idx].ts == w.buffer[idx].ts)
  {
    var x := w.emitters[t.e];
    assert forall e | 0 <= e < |w.emitters| && e != t.e :: w'.emitters[e] == w.emitters[e];
    SlotsBound(w);
    PendingBounds(w);
    hide Settled, Distinct, WriterOk, Pending;
    if x.Outside? && w.count < |w.buffer| {
      assert w'.emitters[t.e].Writing? && w'.emitters[t.e].n == 0;
      assert idx < |w.claims|;
    } else if x.Writing? && x.n < 3 {
      assert w'.emitters[t.e].Writing? && w'.emitters[t.e].n == x.n + 1 && w'.emitters[t.e].idx == x.idx;
    }
  }

  /** A slot whose writer has stored the time has the time of that store. */
  lemma {:induction false} TimesAre(ws: seq<World>, turns: seq<Turn>, j: nat, idx: int)
    requires Run(ws, turns) && j < |ws| && TimeStored(ws[j], idx)
    ensures Timed(ws, turns, j, idx)
    decreases j
  {
    hide Inv, Step;
    if j > 0 {
      RunKeeps(ws, turns, j - 1, j - 1);
      assert Next(ws[j - 1], turns[j - 1], ws[j]);
      TimeStep(ws[j - 1], turns[j - 1], ws[j], idx);
      if !StoresTime(ws[j - 1], turns[j - 1], idx) || ws[j].buffer[idx].ts != turns[j - 1].now {
        TimesAre(ws, turns, j - 1, idx);
      }
    }
  }

  lemma InitOk(w: World)
    requires w == Init(w.buffer, |w.emitters|)
    ensures Inv(w)
  {
    SumFConst(w.emitters, Undoing, 0);
  }

  /** In every state of every run: no store misses the buffer; the slots 0, 1, 2, ... are claimed by the calls that
      found room, in the order of their beginnings, and written by different emitters; the counter is the number of
      claims plus the increments still to be taken back; once full it stays at or above the buffer size; and every
      claimed slot that nobody is still writing holds what its call was asked to record, with the time at which its
      own writer stored the time. */
  lemma Recording(ws: seq<World>, turns: seq<Turn>, i: nat, j: nat)
    requires Run(ws, turns) && i <= j < |ws|
    ensures var (w, asked) := (ws[j], Asked(ws, turns, j));
      && w.safe && w.claims == asked && ws[i].claims <= asked && |asked| <= |w.buffer|
      && w.count == |asked| + Pending(w)
      && (|ws[i].claims| == |w.buffer| ==> w.count >= |w.buffer|)
      && (forall e, f | 0 <= e < f < |w.emitters| && w.emitters[e].Writing? && w.emitters[f].Writing? ::
            w.emitters[e].idx != w.emitters[f].idx)
      && (forall idx | 0 <= idx < |asked| && Settled(w.emitters, idx) ::
            w.buffer[idx].rec == asked[idx] && Timed(ws, turns, j, idx))
  {
    RunKeeps(ws, turns, i, j);
    ClaimsAsked(ws, turns, j);
    PendingBounds(ws[j]);
    forall idx | 0 <= idx < |ws[j].claims| && Settled(ws[j].emitters, idx) ensures Timed(ws, turns, j, idx) {
      TimesAre(ws, turns, j, idx);
    }
    hide Run, Timed;
  }

  /** uthread_dump_trace with no emitter at work writes out exactly what the calls that found room were asked to
      record, in the order of their beginnings. */
  lemma DumpExact(ws: seq<World>, turns: seq<Turn>, j: nat)
    requires Run(ws, turns) && j < |ws| && forall e | 0 <= e < |ws[j].emitters| :: ws[j].emitters[e].Outside?
    ensures var (w, asked) := (ws[j], Asked(ws, turns, j));
      && w.count == |asked| <= |w.buffer|
      && forall idx | 0 <= idx < w.count :: w.buffer[idx].rec == asked[idx] && Timed(ws, turns, j, idx)
  {
    Recording(ws, turns, j, j);
    SumFConst(ws[j].emitters, Undoing, 0);
    forall idx | 0 <= idx < |ws[j].claims| ensures Settled(ws[j].emitters, idx) {
    }
    hide Run, Timed;
  }

  /** An uninterrupted call, all of whose accesses happen at the time now: one more record while there is room, and
      otherwise no change. */
  lemma Uninterrupted(w: World, e: nat, rec: Record, now: int) returns (ws: seq<World>)
    requires e < |w.emitters| && w.emitters[e].Outside? && w.count >= 0
    ensures ws != [] && ws[0] == w && forall i, j | 0 <= i && j == i + 1 < |ws| :: Next(ws[i], Turn(e, rec, now), ws[j])
    ensures var r := ws[|ws| - 1];
      if w.count < |w.buffer| then
        r == w.(count := w.count + 1, buffer := w.buffer[w.count := Slot(rec, now)], claims := w.claims + [rec])
      else r == w
  {
    var w1 := Step(w, e, rec, now);
    var w2 := Step(w1, e, rec, now);
    if w.count >= |w.buffer| {
      assert w2.emitters == w.emitters;
      ws := [w, w1, w2];
    } else {
      var w3 := Step(w2, e, rec, now);
      var w4 := Step(w3, e, rec, now);
      var w5 := Step(w4, e, rec, now);
      assert w5.emitters == w.emitters && w5.buffer == w.buffer[w.count := Slot(rec, now)];
      ws := [w, w1, w2, w3, w4, w5];
    }
  }

  // ----- the recorder itself -----

  class Recorder {
    const buffer: array<Slot>
    var count: int

    constructor (size: nat)
      ensures buffer.Length == size && count == 0 && fresh(buffer)
    {
      buffer := new Slot[size](_ => Slot(Record(0, Trace.Create, 0), 0));
      count := 0;
    }

    /** trace_emit without interference: one more claim while there is room, otherwise no change. */
    method Emit(rec: Record, now: int)
      requires count >= 0
      modifies this`count, buffer
      ensures count == if old(count) < buffer.Length then old(count) + 1 else old(count)
      ensures buffer[..] == if old(count) < buffer.Length then old(buffer[..])[old(count) := Slot(rec, now)]
                            else old(buffer[..])
    {
      var idx := count;
      count := count + 1;
      if idx >= buffer.Length {
        count := count - 1;
        return;
      }
      buffer[idx] := Store(buffer[idx], rec, 0, now);
      buffer[idx] := Store(buffer[idx], rec, 1, now);
      buffer[idx] := Store(buffer[idx], rec, 2, now);
      buffer[idx] := Store(buffer[idx], rec, 3, now);
    }
  }
}
