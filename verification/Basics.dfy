/** Sequence and counting vocabulary shared by the models. */
module Basics {

  datatype Option<+T> = None | Some(value: T)

  ghost predicate NoDup<T>(q: seq<T>) {
    forall i, j | 0 <= i < j < |q| :: q[i] != q[j]
  }

  /** The first occurrence of x removed; q itself when x does not occur. */
  function Without<T(==)>(q: seq<T>, x: T): (r: seq<T>)
    ensures forall i | 0 <= i < |r| :: r[i] in q
  {
    if q == [] then [] else if q[0] == x then q[1..] else [q[0]] + Without(q[1..], x)
  }

  /** Without(q, x) cuts exactly the first occurrence out and keeps the order of the rest. */
  lemma {:induction false} WithoutSplit<T>(q: seq<T>, x: T, i: nat)
    requires i < |q| && q[i] == x && x !in q[..i]
    ensures Without(q, x) == q[..i] + q[i + 1..]
  {
    if i > 0 {
      assert q[1..][..i - 1] == q[..i][1..];
      WithoutSplit(q[1..], x, i - 1);
      assert q[1..][i..] == q[i + 1..];
      assert [q[0]] + q[1..i] == q[..i];
    }
  }

  lemma {:induction false} WithoutAbsent<T>(q: seq<T>, x: T)
    requires x !in q
    ensures Without(q, x) == q
  {
    if q != [] {
      WithoutAbsent(q[1..], x);
      assert q == [q[0]] + q[1..];
    }
  }

  /** On a duplicate-free sequence Without is set difference. */
  lemma WithoutNoDup<T>(q: seq<T>, x: T)
    requires NoDup(q)
    ensures NoDup(Without(q, x))
    ensures forall y :: y in Without(q, x) <==> y in q && y != x
  {
    if x in q {
      var i :| 0 <= i < |q| && q[i] == x;
      WithoutSplit(q, x, i);
      var r := q[..i] + q[i + 1..];
      forall y | y in q && y != x ensures y in r {
        var j :| 0 <= j < |q| && q[j] == y;
        assert y == if j < i then r[j] else r[j - 1];
      }
    } else {
      WithoutAbsent(q, x);
    }
  }

  /** The sum of f over q. */
  ghost function SumF<T>(q: seq<T>, f: T -> int): int {
    if q == [] then 0 else f(q[0]) + SumF(q[1..], f)
  }

  lemma {:induction false} SumFUpdate<T>(q: seq<T>, f: T -> int, i: nat, x: T)
    requires i < |q|
    ensures SumF(q[i := x], f) == SumF(q, f) - f(q[i]) + f(x)
  {
    if i == 0 {
      assert q[0 := x][1..] == q[1..];
    } else {
      assert q[i := x][1..] == q[1..][i - 1 := x];
      SumFUpdate(q[1..], f, i - 1, x);
    }
  }

  /** A sum of terms each at least 0 is at least every single term. */
  lemma {:induction false} SumFBound<T>(q: seq<T>, f: T -> int)
    requires forall i | 0 <= i < |q| :: f(q[i]) >= 0
    ensures SumF(q, f) >= 0
    ensures forall i | 0 <= i < |q| :: f(q[i]) <= SumF(q, f)
  {
    if q != [] {
      forall i | 0 <= i < |q[1..]| ensures f(q[1..][i]) >= 0 { assert q[1..][i] == q[i + 1]; }
      SumFBound(q[1..], f);
      forall i | 0 <= i < |q| ensures f(q[i]) <= SumF(q, f) {
        if i > 0 { assert q[i] == q[1..][i - 1]; }
      }
    }
  }

  lemma {:induction false} SumFConst<T>(q: seq<T>, f: T -> int, c: int)
    requires forall i | 0 <= i < |q| :: f(q[i]) == c
    ensures SumF(q, f) == c * |q|
  {
    if q != [] {
      forall i | 0 <= i < |q[1..]| ensures f(q[1..][i]) == c { assert q[1..][i] == q[i + 1]; }
      SumFConst(q[1..], f, c);
    }
  }

  /** The multiset sum of f over q. */
  ghost function UnionF<T, X>(q: seq<T>, f: T -> multiset<X>): multiset<X> {
    if q == [] then multiset{} else f(q[0]) + UnionF(q[1..], f)
  }

  lemma {:induction false} UnionFUpdate<T, X>(q: seq<T>, f: T -> multiset<X>, i: nat, x: T)
    requires i < |q|
    ensures UnionF(q[i := x], f) + f(q[i]) == UnionF(q, f) + f(x)
  {
    if i == 0 {
      assert q[0 := x][1..] == q[1..];
    } else {
      assert q[i := x][1..] == q[1..][i - 1 := x];
      UnionFUpdate(q[1..], f, i - 1, x);
      var after, before := UnionF(q[1..][i - 1 := x], f), UnionF(q[1..], f);
      assert f(q[0]) + after + f(q[i]) == f(q[0]) + (after + f(q[i]));
      assert f(q[0]) + before + f(x) == f(q[0]) + (before + f(x));
    }
  }

  /** Two different positions contribute separately. */
  lemma {:induction false} UnionFTwo<T, X>(q: seq<T>, f: T -> multiset<X>, i: nat, j: nat, x: X)
    requires i < |q| && j < |q| && i != j
    ensures UnionF(q, f)[x] >= f(q[i])[x] + f(q[j])[x]
  {
    if i == 0 {
      UnionFOne(q[1..], f, j - 1, x);
    } else if j == 0 {
      UnionFOne(q[1..], f, i - 1, x);
    } else {
      UnionFTwo(q[1..], f, i - 1, j - 1, x);
    }
  }

  lemma {:induction false} UnionFOne<T, X>(q: seq<T>, f: T -> multiset<X>, i: nat, x: X)
    requires i < |q|
    ensures UnionF(q, f)[x] >= f(q[i])[x]
  {
    if i > 0 { UnionFOne(q[1..], f, i - 1, x); }
  }

  lemma {:induction false} UnionFWitness<T, X>(q: seq<T>, f: T -> multiset<X>, x: X) returns (i: nat)
    requires x in UnionF(q, f)
    ensures i < |q| && x in f(q[i])
  {
    if x in f(q[0]) {
      i := 0;
    } else {
      var j := UnionFWitness(q[1..], f, x);
      i := j + 1;
    }
  }

  // ----- division -----

  lemma MulMono(m: nat, a: int, b: int)
    requires a < b
    ensures m * a + m <= m * b
  {
    assert m * (b - a - 1) >= 0;
    assert m * (b - a - 1) == m * b - m * a - m;
  }

  lemma DivUnique(n: nat, m: nat, q: nat, r: nat)
    requires m > 0 && n == m * q + r && r < m
    ensures n % m == r
  {
    var a := n / m;
    assert n == m * a + n % m;
    if a < q { MulMono(m, a, q); }
    if a > q { MulMono(m, q, a); }
  }

  lemma ModSucc(n: nat, m: nat)
    requires m > 0
    ensures (n % m + 1) % m == (n + 1) % m
  {
    var (q, r) := (n / m, n % m);
    assert n == m * q + r;
    if r + 1 < m {
      DivUnique(n + 1, m, q, r + 1);
      DivUnique(r + 1, m, 0, r + 1);
    } else {
      assert m * (q + 1) == m * q + m;
      DivUnique(n + 1, m, q + 1, 0);
      DivUnique(r + 1, m, 1, 0);
    }
  }

  /** Different indices less than a full turn apart use different slots. */
  lemma ModDistinct(i: nat, j: nat, m: nat)
    requires 0 < m && i < j < i + m
    ensures i % m != j % m
  {
    var (a, b) := (i / m, j / m);
    assert i == m * a + i % m;
    assert j == m * b + j % m;
    if a < b { MulMono(m, a, b); }
    if a > b { MulMono(m, b, a); }
  }
}
