/** Duplicate-free sequences of indices, and the pigeonhole arguments on them. */
module Counting {
  import opened Rings

  predicate NoDup(q: seq<nat>)
  {
    forall i, j :: 0 <= i < j < |q| ==> q[i] != q[j]
  }

  ghost function Elements(q: seq<nat>): set<nat>
  {
    set i | 0 <= i < |q| :: q[i]
  }

  ghost function Range(n: nat): (r: set<nat>)
    ensures forall x :: x in r <==> 1 <= x <= n
    ensures |r| == n
  {
    if n == 0 then {} else Range(n - 1) + {n}
  }

  lemma {:induction false} ElementsCard(q: seq<nat>)
    requires NoDup(q)
    ensures |Elements(q)| == |q|
  {
    if q != [] {
      var r := q[..|q| - 1];
      ElementsCard(r);
      assert Elements(q) == Elements(r) + {q[|q| - 1]};
    }
  }

  lemma SubsetCard(a: set<nat>, b: set<nat>)
    requires a <= b
    ensures |a| <= |b|
    ensures |a| == |b| ==> a == b
  {
    assert b == a + (b - a);
    assert |b| == |a| + |b - a|;
  }

  /** A duplicate-free queue of indices 1..n has at most n of them. */
  lemma Pigeonhole(q: seq<nat>, n: nat)
    requires NoDup(q) && InRange(q, n)
    ensures |q| <= n
  {
    ElementsCard(q);
    SubsetCard(Elements(q), Range(n));
  }

  /** If it has fewer, one is missing. */
  lemma MissingIndex(q: seq<nat>, n: nat) returns (k: nat)
    requires |q| < n
    ensures 1 <= k <= n && k !in q
  {
    if forall x :: x in Range(n) ==> x in q {
      assert Range(n) <= Elements(q);
      SubsetCard(Range(n), Elements(q));
      ElementsAtMost(q);
      assert false;
    }
    k :| k in Range(n) && k !in q;
  }

  lemma {:induction false} ElementsAtMost(q: seq<nat>)
    ensures |Elements(q)| <= |q|
  {
    if q != [] {
      var r := q[..|q| - 1];
      ElementsAtMost(r);
      assert Elements(q) == Elements(r) + {q[|q| - 1]};
    }
  }

  lemma RangePush(q: seq<nat>, x: nat, n: nat)
    requires InRange(q, n) && 1 <= x <= n
    ensures InRange(q + [x], n)
  {
  }

  lemma InPush(q: seq<nat>, x: nat, y: nat)
    ensures y in q + [x] <==> y in q || y == x
  {
  }

  lemma InPop(q: seq<nat>, y: nat)
    requires q != [] && NoDup(q)
    ensures NoDup(q[1..])
    ensures y in q <==> y == q[0] || y in q[1..]
    ensures q[0] !in q[1..]
  {
    assert q == [q[0]] + q[1..];
  }

  lemma RangePop(q: seq<nat>, n: nat)
    requires q != [] && InRange(q, n)
    ensures 1 <= q[0] <= n && InRange(q[1..], n)
  {
    assert [q[0]] + q[1..] == q;
    RangeOfTail(q[0], q[1..], n);
  }

  lemma NonEmptyRange(q: seq<nat>, n: nat)
    requires InRange(q, n)
    ensures q == [] || n >= 1
  {
    if q != [] {
      assert 1 <= q[0] <= n;
    }
  }

  /** A new index always fits behind the others. */
  lemma Fits(q: seq<nat>, x: nat, n: nat)
    requires NoDup(q) && InRange(q, n) && x !in q && 1 <= x <= n
    ensures PushOk(n, q, x) && Pushed(n, q, x) == q + [x]
    ensures NoDup(q + [x]) && InRange(q + [x], n)
  {
    RangePush(q, x, n);
    Pigeonhole(q + [x], n);
  }

  /** How often `x` occurs. */
  function Occurs(q: seq<nat>, x: nat): nat
  {
    multiset(q)[x]
  }

  lemma OccursPop(q: seq<nat>, g: nat)
    requires q != []
    ensures Occurs(q, g) == Occurs(q[1..], g) + if q[0] == g then 1 else 0
  {
    assert q == [q[0]] + q[1..];
  }

  lemma OccursSplit(q: seq<nat>, k: nat, g: nat)
    requires k <= |q|
    ensures Occurs(q, g) == Occurs(q[..k], g) + Occurs(q[k..], g)
  {
    assert q == q[..k] + q[k..];
  }

  lemma OccursIn(q: seq<nat>, g: nat)
    ensures Occurs(q, g) > 0 <==> g in q
  {
  }

  lemma {:induction false} OnceEach(q: seq<nat>)
    requires forall g :: g in q ==> Occurs(q, g) <= 1
    ensures NoDup(q)
  {
    if !NoDup(q) {
      var i, j :| 0 <= i < j < |q| && q[i] == q[j];
      OccursSplit(q, j, q[i]);
      assert q[..j][i] == q[i] && q[j..][0] == q[i];
      OccursIn(q[..j], q[i]);
      OccursIn(q[j..], q[i]);
    }
  }
}
