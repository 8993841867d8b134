/** The multiset of things owned by the elements of a sequence. */
module Bags {

  function Bag<T>(q: seq<T>, f: T -> multiset<nat>): multiset<nat> {
    if q == [] then multiset{} else Bag(q[..|q| - 1], f) + f(q[|q| - 1])
  }

  function Without<T>(q: seq<T>, i: nat): seq<T>
    requires i < |q|
  {
    q[..i] + q[i + 1..]
  }

  lemma BagOne<T>(x: T, f: T -> multiset<nat>)
    ensures Bag([x], f) == f(x)
  {
    assert [x][..0] == [];
  }

  lemma {:induction false} BagAppend<T>(a: seq<T>, b: seq<T>, f: T -> multiset<nat>)
    ensures Bag(a + b, f) == Bag(a, f) + Bag(b, f)
  {
    if b == [] {
      assert a + b == a;
    } else {
      assert (a + b)[..|a + b| - 1] == a + b[..|b| - 1];
      BagAppend(a, b[..|b| - 1], f);
    }
  }

  lemma BagSnoc<T>(a: seq<T>, x: T, f: T -> multiset<nat>)
    ensures Bag(a + [x], f) == Bag(a, f) + f(x)
  {
    assert (a + [x])[..|a|] == a;
  }

  lemma BagHead<T>(q: seq<T>, f: T -> multiset<nat>)
    requires q != []
    ensures Bag(q, f) == f(q[0]) + Bag(q[1..], f)
  {
    assert q == [q[0]] + q[1..];
    BagAppend([q[0]], q[1..], f);
    BagOne(q[0], f);
  }

  lemma BagWithout<T>(q: seq<T>, i: nat, f: T -> multiset<nat>)
    requires i < |q|
    ensures Bag(q, f) == Bag(Without(q, i), f) + f(q[i])
  {
    assert q == q[..i] + q[i..];
    BagAppend(q[..i], q[i..], f);
    BagHead(q[i..], f);
    assert q[i..][1..] == q[i + 1..];
    BagAppend(q[..i], q[i + 1..], f);
  }

  lemma BagUpdate<T>(q: seq<T>, i: nat, x: T, f: T -> multiset<nat>)
    requires i < |q|
    ensures f(q[i]) <= Bag(q, f)
    ensures Bag(q[i := x], f) == Bag(q, f) - f(q[i]) + f(x)
  {
    BagWithout(q, i, f);
    BagWithout(q[i := x], i, f);
    assert Without(q[i := x], i) == Without(q, i);
  }

  lemma {:induction false} BagMember<T>(q: seq<T>, f: T -> multiset<nat>, x: T)
    requires x in q
    ensures f(x) <= Bag(q, f)
  {
    var i :| 0 <= i < |q| && q[i] == x;
    BagWithout(q, i, f);
  }

  function Sum<T>(q: seq<T>, n: T -> nat): nat {
    if q == [] then 0 else Sum(q[..|q| - 1], n) + n(q[|q| - 1])
  }

  lemma {:induction false} SumMember<T>(q: seq<T>, n: T -> nat, x: T)
    requires x in q
    ensures n(x) <= Sum(q, n)
  {
    if q[|q| - 1] != x {
      assert q == q[..|q| - 1] + [q[|q| - 1]];
      SumMember(q[..|q| - 1], n, x);
    }
  }

  lemma {:induction false} BagSum<T>(q: seq<T>, f: T -> multiset<nat>, n: T -> nat)
    requires forall x | x in q :: |f(x)| == n(x)
    ensures |Bag(q, f)| == Sum(q, n)
  {
    if q != [] {
      assert q[|q| - 1] in q;
      BagSum(q[..|q| - 1], f, n);
    }
  }

  lemma {:induction false} BagSize<T>(q: seq<T>, f: T -> multiset<nat>)
    requires forall x | x in q :: |f(x)| == 1
    ensures |Bag(q, f)| == |q|
  {
    if q != [] {
      assert q[|q| - 1] in q;
      BagSize(q[..|q| - 1], f);
    }
  }

  /** Things that own less, together own less. */
  lemma {:induction false} BagWithin<T>(q: seq<T>, f: T -> multiset<nat>, g: T -> multiset<nat>)
    requires forall x | x in q :: f(x) <= g(x)
    ensures Bag(q, f) <= Bag(q, g)
  {
    if q != [] {
      assert q[|q| - 1] in q;
      BagWithin(q[..|q| - 1], f, g);
    }
  }

  /** Every number below n, once. */
  function UpTo(n: nat): seq<nat> {
    seq(n, i => i)
  }

  lemma {:induction false} UpToOnce(n: nat, i: nat)
    ensures multiset(UpTo(n))[i] == if i < n then 1 else 0
  {
    if n > 0 {
      assert UpTo(n) == UpTo(n - 1) + [n - 1];
      UpToOnce(n - 1, i);
    }
  }

  // ---- moving one index between two multisets

  lemma MovesOut(a: multiset<nat>, b: multiset<nat>, whole: multiset<nat>, part: multiset<nat>, i: nat)
    requires whole <= a && whole == part + multiset{i}
    ensures (a - whole + part) + (b + multiset{i}) == a + b
    ensures (a - whole + part) + b == a + b - multiset{i}
  {
  }

  lemma MovesIn(a: multiset<nat>, b: multiset<nat>, part: multiset<nat>, i: nat)
    requires part <= a
    ensures (a - part + (part + multiset{i})) + b == a + b + multiset{i}
  {
  }
}
