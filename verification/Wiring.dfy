/** How the pointer writes of each scheduler block keep all lists of a kernel linked through the one
    `next` field: every thread is in at most one list, so a write concerns at most the lists it is for. */
module Wiring {
  import opened Basics
  import opened Chains
  import K = Kernel

  /** nx links the ready queue, the sleep list and every wait list of k. */
  ghost predicate Wired(nx: Pointers, k: K.Kernel) {
    && nx.Keys == k.threads.Keys
    && Linked(nx, k.ready) && Linked(nx, k.sleepers)
    && (forall w | w in k.waits :: Linked(nx, K.Waiters(k.waits[w])))
    && forall t | t in k.threads && Loose(k.threads[t].place) :: nx[t] == None
  }

  /** In no list: such a thread's next field is NULL, so no pointer leads to it or from it. */
  predicate Loose(p: K.Place) { p.Nowhere? || p.InEpoll? }

  ghost predicate Linked(nx: Pointers, q: seq<Id>) { Chain(nx, First(q), q) }

  ghost predicate Apart(q: seq<Id>, a: seq<Id>) { forall t | t in q :: t !in a }

  /** The pointers of a have changed: a list is either linked anew or has nothing to do with a. */
  ghost predicate Kept(nx': Pointers, q: seq<Id>, q': seq<Id>, a: seq<Id>) {
    Linked(nx', q') || (q' == q && Apart(q, a))
  }

  lemma KeptLinked(nx: Pointers, nx': Pointers, q: seq<Id>, q': seq<Id>, a: seq<Id>)
    requires Linked(nx, q) && Kept(nx', q, q', a) && OutsideSame(nx, nx', a)
    ensures Linked(nx', q')
  {
    if q' == q && Apart(q, a) { ChainOutside(nx, nx', a, First(q), q); }
  }

  /** Only t goes somewhere else. */
  ghost predicate OnlyMoves(k: K.Kernel, k': K.Kernel, t: Id) {
    k'.threads.Keys == k.threads.Keys
    && forall u | u in k.threads && u != t :: k'.threads[u].place == k.threads[u].place
  }

  /** Threads whose pointers change are in lists, all but t. */
  ghost predicate Listed(k: K.Kernel, a: seq<Id>, t: Id) {
    forall u | u in a && u != t :: u in k.threads && !Loose(k.threads[u].place)
  }

  lemma Rewired(nx: Pointers, nx': Pointers, k: K.Kernel, k': K.Kernel, a: seq<Id>, t: Id)
    requires Wired(nx, k) && OutsideSame(nx, nx', a) && nx'.Keys == k'.threads.Keys
    requires OnlyMoves(k, k', t) && Listed(k, a, t) && t in k.threads && (Loose(k'.threads[t].place) ==> nx'[t] == None)
    requires Kept(nx', k.ready, k'.ready, a) && Kept(nx', k.sleepers, k'.sleepers, a)
    requires forall w | w in k'.waits ::
      w in k.waits && Kept(nx', K.Waiters(k.waits[w]), K.Waiters(k'.waits[w]), a)
    ensures Wired(nx', k')
  {
    LooseKept(nx, nx', k, k', a, t);
    hide Linked, Kept, OutsideSame, OnlyMoves, Listed;
    KeptLinked(nx, nx', k.ready, k'.ready, a);
    KeptLinked(nx, nx', k.sleepers, k'.sleepers, a);
    forall w | w in k'.waits ensures Linked(nx', K.Waiters(k'.waits[w])) {
      KeptLinked(nx, nx', K.Waiters(k.waits[w]), K.Waiters(k'.waits[w]), a);
    }
  }

  lemma LooseKept(nx: Pointers, nx': Pointers, k: K.Kernel, k': K.Kernel, a: seq<Id>, t: Id)
    requires Wired(nx, k) && OutsideSame(nx, nx', a) && nx'.Keys == k'.threads.Keys
    requires OnlyMoves(k, k', t) && Listed(k, a, t) && t in k.threads && (Loose(k'.threads[t].place) ==> nx'[t] == None)
    ensures forall u | u in k'.threads && Loose(k'.threads[u].place) :: nx'[u] == None
  {
    hide Linked;
  }

  lemma MembersListed(k: K.Kernel, t: Id)
    requires K.Lists(k)
    ensures Listed(k, k.ready + [t], t) && Listed(k, k.sleepers, t) && Listed(k, [t], t)
    ensures forall w | w in k.waits :: Listed(k, K.Waiters(k.waits[w]) + [t], t)
  {
  }

  /** Lists are apart from threads that are somewhere else. */
  lemma ListsApart(k: K.Kernel, a: seq<Id>)
    requires K.Lists(k) && forall t | t in a :: t in k.threads
    ensures (forall t | t in a :: k.threads[t].place != K.InReady) ==> Apart(k.ready, a)
    ensures (forall t | t in a :: k.threads[t].place != K.InSleep) ==> Apart(k.sleepers, a)
    ensures forall w | w in k.waits ::
      (forall t | t in a :: k.threads[t].place != K.InWait(w)) ==> Apart(K.Waiters(k.waits[w]), a)
  {
  }

  /** The members of the ready queue with t. */
  lemma AppendOutside(nx: Pointers, q: seq<Id>, t: Id)
    requires t in nx && forall i | 0 <= i < |q| :: q[i] in nx
    ensures OutsideSame(nx, AppendNx(nx, Last(q), t), q + [t])
  {
  }

  /** No list of k but the ready queue has anything to do with a. */
  ghost predicate OthersApart(k: K.Kernel, a: seq<Id>) {
    Apart(k.sleepers, a) && forall w | w in k.waits :: Apart(K.Waiters(k.waits[w]), a)
  }

  lemma WiredAppend(nx: Pointers, k: K.Kernel, k': K.Kernel, t: Id)
    requires Wired(nx, k) && t in nx && t !in k.ready && OthersApart(k, k.ready + [t]) && Listed(k, k.ready + [t], t)
    requires k'.ready == k.ready + [t] && k'.sleepers == k.sleepers && OnlyMoves(k, k', t) && !Loose(k'.threads[t].place)
    requires k'.waits.Keys == k.waits.Keys && forall w | w in k.waits :: K.Waiters(k'.waits[w]) == K.Waiters(k.waits[w])
    ensures Wired(AppendNx(nx, Last(k.ready), t), k')
  {
    var (a, nx') := (k.ready + [t], AppendNx(nx, Last(k.ready), t));
    ChainAppend(nx, First(k.ready), k.ready, t);
    AppendOutside(nx, k.ready, t);
    hide Chain, OutsideSame, Apart, AppendNx, OnlyMoves, Listed;
    Rewired(nx, nx', k, k', a, t);
  }

  /** t, which is in no list, is appended to the ready queue. */
  lemma WiredReady(nx: Pointers, k: K.Kernel, k': K.Kernel, t: Id)
    requires Wired(nx, k) && K.Lists(k) && t in k.threads && (k.threads[t].place.Nowhere? || k.threads[t].place.InEpoll?)
    requires k'.ready == k.ready + [t] && k'.sleepers == k.sleepers && OnlyMoves(k, k', t) && !Loose(k'.threads[t].place)
    requires k'.waits.Keys == k.waits.Keys && forall w | w in k.waits :: K.Waiters(k'.waits[w]) == K.Waiters(k.waits[w])
    ensures Wired(AppendNx(nx, Last(k.ready), t), k')
  {
    assert t !in k.ready;
    ListsApart(k, k.ready + [t]);
    MembersListed(k, t);
    hide Wired, Apart, AppendNx, K.ListsOk, OnlyMoves, Listed;
    assert t in nx by { WiredKeys(nx, k); }
    WiredAppend(nx, k, k', t);
  }

  lemma WiredKeys(nx: Pointers, k: K.Kernel)
    requires Wired(nx, k)
    ensures nx.Keys == k.threads.Keys
  {
  }

  lemma PopOutside(nx: Pointers, t: Id, x: Option<Id>)
    requires t in nx
    ensures OutsideSame(nx, nx[t := x], [t])
  {
  }

  /** t goes to the head of the sleep list. */
  lemma WiredSleep(nx: Pointers, k: K.Kernel, k': K.Kernel, t: Id)
    requires Wired(nx, k) && K.Lists(k) && t in k.threads && k.threads[t].place.Nowhere?
    requires k'.ready == k.ready && k'.sleepers == [t] + k.sleepers && k'.waits == k.waits
    requires OnlyMoves(k, k', t) && !Loose(k'.threads[t].place)
    ensures Wired(nx[t := First(k.sleepers)], k')
  {
    assert t !in k.sleepers;
    ChainPush(nx, First(k.sleepers), k.sleepers, t);
    PopOutside(nx, t, First(k.sleepers));
    ListsApart(k, [t]);
    MembersListed(k, t);
    hide Chain, OutsideSame, Apart, OnlyMoves, Listed;
    Rewired(nx, nx[t := First(k.sleepers)], k, k', [t], t);
  }

  /** t goes to the tail of the wait list of w. */
  lemma WiredWait(nx: Pointers, k: K.Kernel, k': K.Kernel, t: Id, w: int)
    requires Wired(nx, k) && K.Lists(k) && t in k.threads && k.threads[t].place.Nowhere? && w in k.waits
    requires k'.ready == k.ready && k'.sleepers == k.sleepers && OnlyMoves(k, k', t) && !Loose(k'.threads[t].place)
    requires k'.waits.Keys == k.waits.Keys && K.Waiters(k'.waits[w]) == K.Waiters(k.waits[w]) + [t]
    requires forall v | v in k.waits && v != w :: k'.waits[v] == k.waits[v]
    ensures Wired(AppendNx(nx, Last(K.Waiters(k.waits[w])), t), k')
  {
    var q := K.Waiters(k.waits[w]);
    var (a, nx') := (q + [t], AppendNx(nx, Last(q), t));
    assert t !in q;
    ChainAppend(nx, First(q), q, t);
    AppendOutside(nx, q, t);
    WaitersPlaces(k, w);
    ListsApart(k, a);
    MembersListed(k, t);
    hide Chain, OutsideSame, Apart, AppendNx, OnlyMoves, Listed;
    Rewired(nx, nx', k, k', a, t);
  }

  lemma WaitersPlaces(k: K.Kernel, w: int)
    requires K.Lists(k) && w in k.waits
    ensures forall t | t in K.Waiters(k.waits[w]) :: t in k.threads && k.threads[t].place == K.InWait(w)
  {
  }

  /** The head of the wait list of w is unlinked. */
  lemma WiredPop(nx: Pointers, k: K.Kernel, k': K.Kernel, w: int)
    requires Wired(nx, k) && K.Lists(k) && w in k.waits && K.Waiters(k.waits[w]) != []
    requires k'.ready == k.ready && k'.sleepers == k.sleepers && k'.threads == k.threads
    requires w in k'.waits && K.Waiters(k'.waits[w]) == K.Waiters(k.waits[w])[1..]
    requires k'.waits.Keys == k.waits.Keys && forall v | v in k.waits && v != w :: k'.waits[v] == k.waits[v]
    ensures Wired(nx[K.Waiters(k.waits[w])[0] := None], k')
  {
    var q := K.Waiters(k.waits[w]);
    WaitersPlaces(k, w);
    assert q[0] in q;
    ChainPop(nx, First(q), q);
    PopOutside(nx, q[0], None);
    ListsApart(k, [q[0]]);
    MembersListed(k, q[0]);
    hide Chain, OutsideSame, Apart, K.ListsOk, Listed;
    Rewired(nx, nx[q[0] := None], k, k', [q[0]], q[0]);
  }

  /** It then goes to the tail of the ready queue. */
  lemma WiredRelease(nx: Pointers, k: K.Kernel, k': K.Kernel, w: int)
    requires Wired(nx, k) && K.Lists(k) && w in k.waits && K.Waiters(k.waits[w]) != []
    requires k'.ready == k.ready + [K.Waiters(k.waits[w])[0]] && k'.sleepers == k.sleepers
    requires OnlyMoves(k, k', K.Waiters(k.waits[w])[0]) && w in k'.waits && K.Waiters(k'.waits[w]) == K.Waiters(k.waits[w])[1..]
    requires var t := K.Waiters(k.waits[w])[0]; t in k'.threads ==> !Loose(k'.threads[t].place)
    requires k'.waits.Keys == k.waits.Keys && forall v | v in k.waits && v != w :: k'.waits[v] == k.waits[v]
    ensures var t := K.Waiters(k.waits[w])[0]; Wired(AppendNx(nx[t := None], Last(k.ready), t), k')
  {
    var (q, k1) := (K.Waiters(k.waits[w]), k.(waits := k'.waits));
    WiredPop(nx, k, k1, w);
    PoppedApart(k, k1, w);
    MembersListed(k, q[0]);
    WaitersPlaces(k, w);
    assert q[0] in q;
    hide Wired, Apart, AppendNx, K.ListsOk;
    WiredKeys(nx[q[0] := None], k1);
    WiredAppend(nx[q[0] := None], k1, k', q[0]);
  }

  lemma PoppedApart(k: K.Kernel, k1: K.Kernel, w: int)
    requires K.Lists(k) && w in k.waits && K.Waiters(k.waits[w]) != []
    requires k1.sleepers == k.sleepers && w in k1.waits && K.Waiters(k1.waits[w]) == K.Waiters(k.waits[w])[1..]
    requires k1.waits.Keys == k.waits.Keys && forall v | v in k.waits && v != w :: k1.waits[v] == k.waits[v]
    ensures var t := K.Waiters(k.waits[w])[0]; t !in k.ready && OthersApart(k1, k.ready + [t])
  {
    var (q, t) := (K.Waiters(k.waits[w]), K.Waiters(k.waits[w])[0]);
    WaitersPlaces(k, w);
    assert t in q;
    RestApart(k, w);
    ListsApart(k, k.ready + [t]);
    hide Apart;
  }

  lemma RestApart(k: K.Kernel, w: int)
    requires K.Lists(k) && w in k.waits && K.Waiters(k.waits[w]) != []
    ensures Apart(K.Waiters(k.waits[w])[1..], k.ready + [K.Waiters(k.waits[w])[0]])
  {
    var q := K.Waiters(k.waits[w]);
    forall t | t in q[1..] ensures t !in k.ready + [q[0]] { assert t in q; }
  }

  // ----- check_sleep_list -----

  lemma UnlinkOutside(nx: Pointers, q: seq<Id>, i: nat)
    requires i < |q| && forall j | 0 <= j < |q| :: q[j] in nx
    ensures OutsideSame(nx, UnlinkNx(nx, Before(q, i), q[i]), q)
  {
  }

  lemma WiredUnsleep(nx: Pointers, k: K.Kernel, k1: K.Kernel, i: nat)
    requires Wired(nx, k) && K.Lists(k) && i < |k.sleepers|
    requires k1 == k.(sleepers := k.sleepers[..i] + k.sleepers[i + 1..])
    ensures k.sleepers[i] in nx && Wired(UnlinkNx(nx, Before(k.sleepers, i), k.sleepers[i]), k1)
  {
    var q := k.sleepers;
    ChainUnlink(nx, First(q), q, i);
    UnlinkOutside(nx, q, i);
    UnlinkFirst(nx, First(q), q, i);
    ListsApart(k, q);
    MembersListed(k, q[i]);
    assert q[i] in k.threads;
    hide OutsideSame, Apart, K.ListsOk, Listed, Chain, UnlinkNx;
    Rewired(nx, UnlinkNx(nx, Before(q, i), q[i]), k, k1, q, q[i]);
  }

  lemma AwakeApart(k: K.Kernel, k1: K.Kernel, i: nat)
    requires K.Lists(k) && i < |k.sleepers| && k1 == k.(sleepers := k.sleepers[..i] + k.sleepers[i + 1..])
    ensures var t := k.sleepers[i]; t !in k.ready && OthersApart(k1, k.ready + [t]) && k1.sleepers == Without(k.sleepers, t)
  {
    var (q, t) := (k.sleepers, k.sleepers[i]);
    WithoutSplit(q, t, i);
    assert t in q;
    forall x | x in k1.sleepers ensures x !in k.ready + [t] { assert x in q; }
    ListsApart(k, k.ready + [t]);
    hide Apart;
  }

  /** The sleeper at position i is unlinked and goes to the tail of the ready queue. */
  lemma WiredWake(nx: Pointers, k: K.Kernel, k': K.Kernel, i: nat)
    requires Wired(nx, k) && K.Lists(k) && i < |k.sleepers| && k.sleepers[i] in nx
    requires k'.ready == k.ready + [k.sleepers[i]] && k'.sleepers == Without(k.sleepers, k.sleepers[i]) && k'.waits == k.waits
    requires OnlyMoves(k, k', k.sleepers[i])
    requires k.sleepers[i] in k'.threads ==> !Loose(k'.threads[k.sleepers[i]].place)
    ensures var t := k.sleepers[i]; Wired(AppendNx(UnlinkNx(nx, Before(k.sleepers, i), t), Last(k.ready), t), k')
  {
    var (t, k1) := (k.sleepers[i], k.(sleepers := k.sleepers[..i] + k.sleepers[i + 1..]));
    WiredUnsleep(nx, k, k1, i);
    AwakeApart(k, k1, i);
    MembersListed(k, t);
    hide Wired, Apart, AppendNx, K.ListsOk;
    var nx1 := UnlinkNx(nx, Before(k.sleepers, i), t);
    WiredKeys(nx1, k1);
    WiredAppend(nx1, k1, k', t);
  }

  // ----- dispatch, garbage collection, creation -----

  lemma WiredDispatch(nx: Pointers, nx': Pointers, k: K.Kernel, k': K.Kernel, t: Id)
    requires Wired(nx, k) && K.Lists(k) && Linked(nx', Without(k.ready, t)) && OutsideSame(nx, nx', k.ready)
    requires k'.ready == Without(k.ready, t) && k'.sleepers == k.sleepers && k'.waits == k.waits
    requires OnlyMoves(k, k', t) && t in nx' && nx'[t] == None
    ensures Wired(nx', k')
  {
    ListsApart(k, k.ready);
    MembersListed(k, t);
    assert nx'.Keys == nx.Keys;
    assert forall u | u in k.ready :: u in k.ready + [t];
    hide Chain, OutsideSame, Apart, K.ListsOk, OnlyMoves;
    Rewired(nx, nx', k, k', k.ready, t);
  }

  lemma LinkedOn(nx: Pointers, nx': Pointers, q: seq<Id>)
    requires Linked(nx, q) && forall t | t in q :: t in nx' && nx'[t] == nx[t]
    ensures Linked(nx', q)
  {
    forall i | 0 <= i < |q| ensures q[i] in nx' && nx'[q[i]] == Succ(q, i) {
      var t := q[i];
      assert t in q;
      assert nx'[t] == nx[t];
    }
  }

  /** No pointer leads to a control block that garbage collection frees. */
  lemma PointersSurvive(nx: Pointers, k: K.Kernel, t: Id)
    requires Wired(nx, k) && K.Inv(k) && t in nx && nx[t].Some?
    ensures nx[t].value in K.Gc(k).threads
  {
    var p := k.threads[t].place;
    assert !Loose(p);
    if p.InReady? {
      SuccSurvives(nx, k, k.ready, t);
    } else if p.InSleep? {
      SuccSurvives(nx, k, k.sleepers, t);
    } else {
      WaitPlace(k, t);
      SuccSurvives(nx, k, K.Waiters(k.waits[p.w]), t);
    }
  }

  lemma WaitPlace(k: K.Kernel, t: Id)
    requires K.Inv(k) && t in k.threads && k.threads[t].place.InWait?
    ensures var w := k.threads[t].place.w; w in k.waits && t in K.Waiters(k.waits[w])
  {
  }

  lemma SuccSurvives(nx: Pointers, k: K.Kernel, q: seq<Id>, t: Id)
    requires K.Inv(k) && Linked(nx, q) && t in q && t in nx && nx[t].Some?
    requires forall u | u in q :: u in k.threads && !Loose(k.threads[u].place)
    ensures nx[t].value in K.Gc(k).threads
  {
    var i :| 0 <= i < |q| && q[i] == t;
    assert nx[q[i]] == Succ(q, i);
    MemberSurvives(k, q[i + 1]);
  }

  /** A thread in a list has not finished. */
  lemma MemberSurvives(k: K.Kernel, t: Id)
    requires K.Inv(k) && t in k.threads && !Loose(k.threads[t].place)
    ensures t in K.Gc(k).threads && k.threads[t].state != K.Finished
  {
  }

  /** The control blocks of threads that are in no list go away. */
  lemma WiredGc(nx: Pointers, nx': Pointers, k: K.Kernel)
    requires Wired(nx, k) && K.Lists(K.Gc(k))
    requires nx'.Keys == K.Gc(k).threads.Keys && forall t | t in nx' :: t in nx && nx'[t] == nx[t]
    ensures Wired(nx', K.Gc(k))
  {
    var r := K.Gc(k);
    GcMembers(r, nx');
    assert forall t | t in r.threads :: t in k.threads && r.threads[t] == k.threads[t];
    hide Linked, K.ListsOk;
    LinkedOn(nx, nx', r.ready);
    LinkedOn(nx, nx', r.sleepers);
    forall w | w in r.waits ensures Linked(nx', K.Waiters(r.waits[w])) { LinkedOn(nx, nx', K.Waiters(r.waits[w])); }
  }

  lemma GcMembers(r: K.Kernel, nx': Pointers)
    requires K.Lists(r) && nx'.Keys == r.threads.Keys
    ensures (forall t | t in r.ready :: t in nx') && (forall t | t in r.sleepers :: t in nx')
    ensures forall w, t | w in r.waits && t in K.Waiters(r.waits[w]) :: t in nx'
  {
  }

  /** A new control block, whose next field is NULL. */
  lemma WiredNew(nx: Pointers, k: K.Kernel, t: Id, x: K.Thread)
    requires Wired(nx, k) && K.Lists(k) && K.Domain(k) && t !in k.threads && x.place.Nowhere?
    ensures Wired(nx[t := None], k.(threads := k.threads[t := x]))
  {
    var nx' := nx[t := None];
    assert t !in k.ready && t !in k.sleepers;
    hide K.ListsOk;
    ChainFrame(nx, First(k.ready), k.ready, t, None);
    ChainFrame(nx, First(k.sleepers), k.sleepers, t, None);
    forall w | w in k.waits ensures Linked(nx', K.Waiters(k.waits[w])) {
      assert t !in K.Waiters(k.waits[w]);
      ChainFrame(nx, First(K.Waiters(k.waits[w])), K.Waiters(k.waits[w]), t, None);
    }
    hide Chain;
  }

  lemma WiredSpawn(nx: Pointers, k: K.Kernel, k': K.Kernel, t: Id, x: K.Thread)
    requires Wired(nx, k) && K.Lists(k) && K.Domain(k) && t !in k.threads && x.place.InReady?
    requires k'.threads == k.threads[t := x] && k'.ready == k.ready + [t] && k'.sleepers == k.sleepers && k'.waits == k.waits
    ensures Wired(AppendNx(nx[t := None], Last(k.ready), t), k')
  {
    var k1 := k.(threads := k.threads[t := x.(place := K.Nowhere)]);
    WiredNew(nx, k, t, x.(place := K.Nowhere));
    SpawnApart(k, k1, t);
    assert OnlyMoves(k1, k', t);
    hide Wired, AppendNx, K.ListsOk, K.Domain, OnlyMoves;
    WiredKeys(nx[t := None], k1);
    WiredAppend(nx[t := None], k1, k', t);
  }

  lemma SpawnApart(k: K.Kernel, k1: K.Kernel, t: Id)
    requires K.Lists(k) && K.Domain(k) && t !in k.threads
    requires k1.threads.Keys == k.threads.Keys + {t} && forall u | u in k.threads :: k1.threads[u] == k.threads[u]
    requires k1.ready == k.ready && k1.sleepers == k.sleepers && k1.waits == k.waits
    ensures t !in k1.ready && OthersApart(k1, k1.ready + [t]) && Listed(k1, k1.ready + [t], t)
  {
    ListsApart(k, k.ready);
    assert forall u | u in k.sleepers :: u in k.threads;
    assert forall w, u | w in k.waits && u in K.Waiters(k.waits[w]) :: u in k.threads;
    assert Apart(k.sleepers, k.ready + [t]);
  }

  // ----- the global list under garbage collection -----

  /** What gc_finished_threads leaves of the list q, in order. */
  function Survivors(q: seq<Id>, threads: map<Id, K.Thread>, current: Id): seq<Id> {
    if q == [] then []
    else
      var (n, r) := (|q| - 1, Survivors(q[..|q| - 1], threads, current));
      if q[n] in threads && threads[q[n]].state == K.Finished && q[n] != current then r else r + [q[n]]
  }

  lemma SurvivorsNone(q: seq<Id>, threads: map<Id, K.Thread>, current: Id)
    requires q == []
    ensures Survivors(q, threads, current) == []
  {
  }

  lemma SurvivorsNext(q: seq<Id>, j: nat, threads: map<Id, K.Thread>, current: Id)
    requires j < |q| && q[j] in threads
    ensures q[j..] == [q[j]] + q[j + 1..]
    ensures Survivors(q[..j + 1], threads, current) == Survivors(q[..j], threads, current)
      + if threads[q[j]].state == K.Finished && q[j] != current then [] else [q[j]]
  {
    assert q[..j + 1][..j] == q[..j];
  }

  lemma {:induction false} SurvivorsAre(q: seq<Id>, threads: map<Id, K.Thread>, current: Id, t: Id)
    ensures t in Survivors(q, threads, current)
      <==> t in q && !(t in threads && threads[t].state == K.Finished && t != current)
  {
    if q != [] {
      SurvivorsAre(q[..|q| - 1], threads, current, t);
      assert q == q[..|q| - 1] + [q[|q| - 1]];
    }
  }
}
