/** Singly linked lists as pointer maps: nx says for every thread which thread its `next` field points
    to, None standing for NULL. All lists of the runtime share this one field. */
module Chains {
  import opened Basics

  type Id = int
  type Pointers = map<Id, Option<Id>>

  function First(q: seq<Id>): Option<Id> { if q == [] then None else Some(q[0]) }
  function Last(q: seq<Id>): Option<Id> { if q == [] then None else Some(q[|q| - 1]) }

  function Succ(q: seq<Id>, i: nat): Option<Id> { if i + 1 < |q| then Some(q[i + 1]) else None }

  /** From head, following nx, come exactly the elements of q, and then NULL. */
  ghost predicate Chain(nx: Pointers, head: Option<Id>, q: seq<Id>) {
    && NoDup(q) && head == First(q)
    && forall i | 0 <= i < |q| :: q[i] in nx && nx[q[i]] == Succ(q, i)
  }

  lemma ChainFrame(nx: Pointers, head: Option<Id>, q: seq<Id>, t: Id, x: Option<Id>)
    requires Chain(nx, head, q) && t !in q
    ensures Chain(nx[t := x], head, q)
  {
  }

  /** The pointer writes of an append at the tail. */
  function AppendNx(nx: Pointers, tail: Option<Id>, t: Id): Pointers {
    if tail.Some? then nx[t := None][tail.value := Some(t)] else nx[t := None]
  }

  lemma ChainAppend(nx: Pointers, head: Option<Id>, q: seq<Id>, t: Id)
    requires Chain(nx, head, q) && t !in q
    ensures head == First(q) && Chain(AppendNx(nx, Last(q), t), if head.Some? then head else Some(t), q + [t])
  {
  }

  lemma ChainPush(nx: Pointers, head: Option<Id>, q: seq<Id>, t: Id)
    requires Chain(nx, head, q) && t !in q
    ensures Chain(nx[t := head], Some(t), [t] + q)
  {
    var r := [t] + q;
    forall i | 0 <= i < |r| ensures r[i] in nx[t := head] && nx[t := head][r[i]] == Succ(r, i) {
      assert i > 0 ==> r[i] == q[i - 1];
      assert i + 1 < |r| ==> r[i + 1] == q[i];
    }
  }

  lemma ChainPop(nx: Pointers, head: Option<Id>, q: seq<Id>)
    requires Chain(nx, head, q) && q != []
    ensures q[0] in nx && nx[q[0]] == First(q[1..]) && Chain(nx[q[0] := None], nx[q[0]], q[1..])
  {
    var r := q[1..];
    assert r != [] ==> r[0] == q[1];
    forall i | 0 <= i < |r|
      ensures r[i] in nx && r[i] != q[0] && nx[r[i]] == Succ(r, i)
    {
      assert r[i] == q[i + 1];
      assert i + 1 < |r| ==> r[i + 1] == q[i + 2];
    }
  }

  /** The writes that unlink the element after prev, or the head when prev is NULL. */
  function UnlinkNx(nx: Pointers, prev: Option<Id>, t: Id): Pointers
    requires t in nx
  {
    (if prev.Some? then nx[prev.value := nx[t]] else nx)[t := None]
  }

  lemma ChainUnlink(nx: Pointers, head: Option<Id>, q: seq<Id>, i: nat)
    requires Chain(nx, head, q) && i < |q|
    ensures q[i] in nx
    ensures Chain(UnlinkNx(nx, if i == 0 then None else Some(q[i - 1]), q[i]), if i == 0 then nx[q[0]] else head,
                  q[..i] + q[i + 1..])
  {
    var (nx', r) := (UnlinkNx(nx, if i == 0 then None else Some(q[i - 1]), q[i]), q[..i] + q[i + 1..]);
    assert i == 0 && r != [] ==> r[0] == q[1];
    assert i > 0 ==> r[0] == q[0];
    forall j | 0 <= j < |r| ensures r[j] in nx' && nx'[r[j]] == Succ(r, j) {
      assert r[j] == if j < i then q[j] else q[j + 1];
      assert j + 1 < |r| ==> r[j + 1] == if j + 1 < i then q[j + 1] else q[j + 2];
    }
  }

  function At(q: seq<Id>, i: nat): Option<Id> { if i < |q| then Some(q[i]) else None }
  function Before(q: seq<Id>, i: nat): Option<Id> { if 0 < i <= |q| then Some(q[i - 1]) else None }

  /** No pointer outside q has changed. */
  ghost predicate OutsideSame(nx: Pointers, nx': Pointers, q: seq<Id>) {
    nx'.Keys == nx.Keys && forall t | t in nx && t !in q :: nx'[t] == nx[t]
  }

  lemma ChainOutside(nx: Pointers, nx': Pointers, q: seq<Id>, head: Option<Id>, other: seq<Id>)
    requires Chain(nx, head, other) && OutsideSame(nx, nx', q) && forall t | t in other :: t !in q
    ensures Chain(nx', head, other)
  {
    forall i | 0 <= i < |other| ensures other[i] in nx' && nx'[other[i]] == Succ(other, i) {
      var t := other[i];
      assert t in other && t in nx && nx[t] == Succ(other, i);
      assert nx'[t] == nx[t];
    }
  }

  lemma UnlinkLast(nx: Pointers, head: Option<Id>, q: seq<Id>, i: nat)
    requires Chain(nx, head, q) && i < |q|
    ensures Last(q[..i] + q[i + 1..]) == if Last(q) == Some(q[i]) then Before(q, i) else Last(q)
  {
  }

  lemma UnlinkFirst(nx: Pointers, head: Option<Id>, q: seq<Id>, i: nat)
    requires Chain(nx, head, q) && i < |q|
    ensures First(q[..i] + q[i + 1..]) == if i == 0 then nx[q[0]] else head
  {
    assert i == 0 && |q| > 1 ==> (q[..i] + q[i + 1..])[0] == q[1];
  }

  // ----- doubly linked -----

  /** q in both directions: next pointers forwards, prev pointers backwards, NULL at both ends. */
  ghost predicate Double(gn: Pointers, gp: Pointers, q: seq<Id>) {
    && Chain(gn, First(q), q)
    && forall i | 0 <= i < |q| :: q[i] in gp && gp[q[i]] == Before(q, i)
  }

  lemma DoublePush(gn: Pointers, gp: Pointers, q: seq<Id>, t: Id)
    requires Double(gn, gp, q) && t !in q
    ensures Double(gn[t := First(q)], if q == [] then gp[t := None] else gp[t := None][q[0] := Some(t)], [t] + q)
  {
    ChainPush(gn, First(q), q, t);
    var (r, gp') := ([t] + q, if q == [] then gp[t := None] else gp[t := None][q[0] := Some(t)]);
    forall i | 0 <= i < |r| ensures r[i] in gp' && gp'[r[i]] == Before(r, i) {
      assert i > 0 ==> r[i] == q[i - 1] && gp[q[i - 1]] == Before(q, i - 1);
      assert i > 1 ==> r[i - 1] == q[i - 2];
    }
  }

  /** The writes of global_list_remove. */
  function UnlinkBack(gn: Pointers, gp: Pointers, t: Id): Pointers
    requires t in gn && t in gp
  {
    (if gn[t].Some? then gp[gn[t].value := gp[t]] else gp)[t := None]
  }

  lemma DoubleAt(gn: Pointers, gp: Pointers, q: seq<Id>, i: nat)
    requires Double(gn, gp, q) && i < |q|
    ensures q[i] in gn && q[i] in gp && gn[q[i]] == At(q, i + 1) && gp[q[i]] == Before(q, i)
  {
    assert gn[q[i]] == Succ(q, i);
  }

  lemma DoubleUnlink(gn: Pointers, gp: Pointers, q: seq<Id>, i: nat)
    requires Double(gn, gp, q) && i < |q|
    ensures q[i] in gn && q[i] in gp && gn[q[i]] == At(q, i + 1) && gp[q[i]] == Before(q, i)
    ensures Double(UnlinkNx(gn, Before(q, i), q[i]), UnlinkBack(gn, gp, q[i]), q[..i] + q[i + 1..])
  {
    DoubleAt(gn, gp, q, i);
    ChainUnlink(gn, First(q), q, i);
    UnlinkFirst(gn, First(q), q, i);
    var (gp', r) := (UnlinkBack(gn, gp, q[i]), q[..i] + q[i + 1..]);
    forall j | 0 <= j < |r| ensures r[j] in gp' && gp'[r[j]] == Before(r, j) {
      var h := if j < i then j else j + 1;
      assert r[j] == q[h] && gp[q[h]] == Before(q, h);
      assert j > 0 ==> r[j - 1] == if j - 1 < i then q[j - 1] else q[j];
    }
  }

  lemma DoubleFirst(gn: Pointers, gp: Pointers, q: seq<Id>, i: nat)
    requires Double(gn, gp, q) && i < |q|
    ensures First(q[..i] + q[i + 1..]) == if i == 0 then At(q, 1) else First(q)
    ensures Before(q, i) != Some(q[i]) && At(q, i + 1) != Some(q[i])
    ensures Before(q, i).Some? ==> Before(q, i) != At(q, i + 1)
  {
    assert i == 0 && |q| > 1 ==> (q[..i] + q[i + 1..])[0] == q[1];
  }
}
