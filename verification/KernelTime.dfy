/** Sleeping threads: check_sleep_list as a stable partition, and no early wake-up over whole runs. */
module KernelTime {
  import opened Basics
  import opened Kernel
  import opened KernelSteps
  import opened KernelRuns
  import Trace

  // ----- check_sleep_list splits the list in place -----

  /** q without the members of ts, taken out one after the other. */
  ghost function Removing(q: seq<Tid>, ts: seq<Tid>): seq<Tid> {
    if ts == [] then q else Without(Removing(q, ts[..|ts| - 1]), ts[|ts| - 1])
  }

  lemma {:induction false} AdmitAllSleepers(k: Kernel, ts: seq<Tid>, e: Trace.EventType)
    requires Domain(k) && Within(k.threads, ts)
    ensures AdmitAll(k, ts, e).sleepers == Removing(k.sleepers, ts)
  {
    if ts != [] { AdmitAllSleepers(k, ts[..|ts| - 1], e); }
  }

  lemma {:induction false} WithoutSnoc(q: seq<Tid>, x: Tid, y: Tid)
    ensures Without(q + [x], y) == if y in q then Without(q, y) + [x] else if x == y then q else q + [x]
  {
    if q == [] {
      assert q + [x] == [x];
    } else {
      assert (q + [x])[1..] == q[1..] + [x];
      WithoutSnoc(q[1..], x, y);
      assert q == [q[0]] + q[1..];
    }
  }

  lemma {:induction false} RemovingSnoc(q: seq<Tid>, x: Tid, ts: seq<Tid>)
    requires NoDup(ts) && x !in ts
    requires forall t | t in ts :: t in q
    ensures Removing(q + [x], ts) == Removing(q, ts) + [x]
    ensures forall t :: t in q && t !in ts ==> t in Removing(q, ts)
  {
    if ts != [] {
      var n := |ts| - 1;
      var r := Removing(q, ts[..n]);
      RemovingSnoc(q, x, ts[..n]);
      WithoutSnoc(r, x, ts[n]);
      assert ts[n] in r;
      forall t | t in q && t !in ts ensures t in Without(r, ts[n]) {
        WithoutOther(r, ts[n], t);
      }
    }
  }

  lemma {:induction false} WithoutOther(q: seq<Tid>, x: Tid, t: Tid)
    requires t in q && t != x
    ensures t in Without(q, x)
  {
    if q[0] != x && q[0] != t { WithoutOther(q[1..], x, t); }
  }

  /** Taking the expired members out one by one leaves the unexpired ones in their order. */
  lemma {:induction false} RemovingDue(k: Kernel, q: seq<Tid>, now: nat)
    requires NoDup(q) && forall i | 0 <= i < |q| :: q[i] in k.threads
    ensures Removing(q, Due(k, q, now, true)) == Due(k, q, now, false)
  {
    if q != [] {
      var n := |q| - 1;
      var (q0, x) := (q[..n], q[n]);
      var d := Due(k, q0, now, true);
      RemovingDue(k, q0, now);
      DueMembers(k, q0, now, true);
      assert q == q0 + [x] && x !in q0;
      RemovingSnoc(q0, x, d);
      if k.threads[x].due <= now {
        DueMembers(k, q0, now, false);
        assert (d + [x])[..|d|] == d;
        WithoutSnoc(Removing(q0, d), x, x);
      }
    }
  }

  /** check_sleep_list is a stable partition of the sleep list: expired threads are appended to the
      ready queue in list order, the others stay in list order, and nobody overdue is left. */
  lemma SleepPartition(k: Kernel, now: nat)
    requires Inv(k) && k.clock <= now
    ensures var r := CheckSleep(k, now);
      && r.ready == k.ready + Due(k, k.sleepers, now, true)
      && r.sleepers == Due(k, k.sleepers, now, false)
      && (forall t :: t in r.sleepers <==> t in k.sleepers && k.threads[t].due > now)
  {
    var ts := Due(k, k.sleepers, now, true);
    DueMembers(k, k.sleepers, now, true);
    DueMembers(k, k.sleepers, now, false);
    AdmitAllFields(k.(clock := now), ts, Trace.Wakeup);
    AdmitAllSleepers(k.(clock := now), ts, Trace.Wakeup);
    RemovingDue(k, k.sleepers, now);
    hide Inv, AdmitAll;
  }

  // ----- nobody wakes early -----

  /** No thread of k' asks to wake up earlier than it did in k. */
  ghost predicate DueGrows(k: Kernel, k': Kernel) {
    forall t | t in k'.threads && t in k.h.created :: t in k.threads && k.threads[t].due <= k'.threads[t].due
  }

  lemma DueGrowsTrans(k1: Kernel, k2: Kernel, k3: Kernel)
    requires DueGrows(k1, k2) && DueGrows(k2, k3) && k1.h.created <= k2.h.created
    ensures DueGrows(k1, k3)
  {
  }

  lemma PassDue(k: Kernel, e: World)
    requires Domain(k) && Fits(k, e)
    ensures DueGrows(k, Pass(k, e)) && Pass(k, e).h.created == k.h.created
  {
    var k1 := AdmitAll(k, e.events, Trace.IoUnblock);
    var k2 := k1.(clock := e.now);
    AdmitAllFields(k, e.events, Trace.IoUnblock);
    AdmitAllFields(k2, Due(k1, k1.sleepers, e.now, true), Trace.Wakeup);
    hide Domain, AdmitAll;
    forall t | t in k.threads ensures k.threads[t].due == Pass(k, e).threads[t].due {
      AdmitAllThreads(k, e.events, Trace.IoUnblock, t);
      AdmitAllThreads(k2, Due(k1, k1.sleepers, e.now, true), Trace.Wakeup, t);
    }
  }

  lemma QuietDue(k: Kernel)
    ensures DueGrows(k, Gc(k)) && Gc(k).h.created == k.h.created
    ensures DueGrows(k, k.(phase := Idle))
    ensures Domain(k) ==> DueGrows(k, Requeue(k)) && Requeue(k).h.created == k.h.created
    ensures Domain(k) ==> DueGrows(k, Schedule(k)) && Schedule(k).h.created == k.h.created
  {
  }

  lemma ResumeDue(k: Kernel, e: World)
    requires Inv(k) && Fits(k, e)
    ensures DueGrows(k, Resume(k, e)) && Resume(k, e).h.created == k.h.created
  {
    hide Inv, Domain, Fits, Pass, Schedule, Requeue, Gc, DueGrows;
    GcFits(k, e);
    QuietDue(k);
    PassDue(Gc(k), e);
    var k1 := Pass(Gc(k), e);
    QuietDue(k1);
    QuietDue(Requeue(k1));
    DueGrowsTrans(k, Gc(k), k1);
    DueGrowsTrans(k, k1, Requeue(k1));
    DueGrowsTrans(k, Requeue(k1), Schedule(Requeue(k1)));
  }

  lemma EnteredDue(k: Kernel, op: Op)
    requires Inv(k) && Enabled(k, op)
    ensures var k1 := Entered(k, op); k1.Some? ==> DueGrows(k, k1.value) && k1.value.h.created == k.h.created
  {
    hide ListsOk, OrdersOk, LivesOk;
  }

  lemma StepDue(k: Kernel, op: Op)
    requires Inv(k) && Enabled(k, op)
    ensures DueGrows(k, Apply(k, op)) && k.h.created <= Apply(k, op).h.created
  {
    if op.OpPoll? || op.OpExit? {
      PollDue(k, op);
    } else if Entered(k, op).Some? {
      hide Domain, Fits, ListsOk, ThreadsOk, OrdersOk, LivesOk, DueGrows, Resume;
      EnteredKeeps(k, op);
      EnteredDue(k, op);
      ResumeDue(Entered(k, op).value, op.e);
      DueGrowsTrans(k, Entered(k, op).value, Apply(k, op));
    } else {
      OtherDue(k, op);
    }
  }

  lemma OtherDue(k: Kernel, op: Op)
    requires Inv(k) && Enabled(k, op) && !op.OpPoll? && Entered(k, op).None?
    ensures DueGrows(k, Apply(k, op)) && k.h.created <= Apply(k, op).h.created
  {
    hide Fits, ListsOk, ThreadsOk, OrdersOk, Domain;
  }

  lemma PollDue(k: Kernel, op: Op)
    requires Inv(k) && Enabled(k, op) && (op.OpPoll? || op.OpExit?)
    ensures DueGrows(k, Apply(k, op)) && Apply(k, op).h.created == k.h.created
  {
    hide Inv, Domain, Fits, Pass, Schedule, DueGrows;
    EnteredKeeps(k, op);
    EnteredDue(k, op);
    var k0 := Entered(k, op).value;
    PassDue(k0, op.e);
    var k1 := Pass(k0, op.e);
    QuietDue(k1);
    DueGrowsTrans(k, k0, k1);
    DueGrowsTrans(k, k1, Schedule(k1));
    DueGrowsTrans(k, k1, Apply(k, op));
  }

  lemma {:induction false} RunDue(ks: seq<Kernel>, ops: seq<Op>, i: nat, j: nat)
    requires Run(ks, ops) && i <= j < |ks|
    ensures DueGrows(ks[i], ks[j]) && ks[i].h.created <= ks[j].h.created
    decreases j
  {
    hide Inv, Apply, Enabled;
    if i < j {
      RunDue(ks, ops, i, j - 1);
      RunKeeps(ks, ops, j - 1);
      assert Follows(ks[j - 1], ops[j - 1], ks[j]);
      StepDue(ks[j - 1], ops[j - 1]);
      DueGrowsTrans(ks[i], ks[j - 1], ks[j]);
    }
  }

  /** No thread returns from uthread_sleep(ms) before ms milliseconds have passed since the call:
      whenever it runs again, the clock has reached its wake-up time. */
  lemma NoEarlyWakeup(ks: seq<Kernel>, ops: seq<Op>, i: nat, j: nat)
    requires Run(ks, ops) && i < j < |ks| && ops[i].OpSleep?
    requires ks[j].phase == User && ks[j].current == ks[i].current
    ensures ks[j].clock >= ops[i].at + ops[i].ms * 1000000
  {
    var (k, op, t) := (ks[i], ops[i], ks[i].current);
    RunKeeps(ks, ops, i);
    RunKeeps(ks, ops, j);
    assert Follows(ks[i], ops[i], ks[i + 1]);
    RunDue(ks, ops, i + 1, j);
    hide ListsOk, OrdersOk, Fits, Resume, Run;
    EnteredKeeps(k, op);
    var k0 := Entered(k, op).value;
    ResumeDue(k0, op.e);
    assert k0.threads[t].due == op.at + op.ms * 1000000;
    DueGrowsTrans(k0, ks[i + 1], ks[j]);
  }
}
