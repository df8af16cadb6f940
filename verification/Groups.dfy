/** Flattened lists of raw locks, and the groups in which a retrying collection takes them. */
module Groups {
  import opened Locks
  import opened Protocol
  import opened Pointers

  lemma LeavesInThree(front: seq<Ptr>, p: Ptr, back: seq<Ptr>)
    ensures LeavesOf((front + [p]) + back) == LeavesOf(front) + Leaves(p) + LeavesOf(back)
  {
    LeavesOfConcat(front + [p], back);
    LeavesOfConcat(front, [p]);
    LeavesOfOne(p);
  }

  // ---------- Positions in a flattened list ----------

  function Offset(ps: seq<Ptr>, k: nat): nat
    requires k <= |ps|
  {
    |LeavesOf(ps[..k])|
  }

  lemma Cut(ps: seq<Ptr>, k: nat)
    requires k < |ps|
    ensures LeavesOf(ps) == LeavesOf(ps[..k]) + Leaves(ps[k]) + LeavesOf(ps[k + 1..])
    ensures LeavesOf(ps[..k + 1]) == LeavesOf(ps[..k]) + Leaves(ps[k])
  {
    hide LeavesOf, Leaves;
    LeavesUpTo(ps, k);
    LeavesInTwo(ps, ps[..k + 1], ps[k + 1..]);
  }

  lemma LeavesInTwo(ps: seq<Ptr>, front: seq<Ptr>, back: seq<Ptr>)
    requires ps == front + back
    ensures LeavesOf(ps) == LeavesOf(front) + LeavesOf(back)
  {
    LeavesOfConcat(front, back);
  }

  lemma LeavesUpTo(ps: seq<Ptr>, k: nat)
    requires k < |ps|
    ensures LeavesOf(ps[..k + 1]) == LeavesOf(ps[..k]) + Leaves(ps[k])
  {
    var front := ps[..k + 1];
    assert front[..|front| - 1] == ps[..k];
  }

  lemma Span(ps: seq<Ptr>, k: nat)
    requires k < |ps|
    ensures Offset(ps, k) + |Leaves(ps[k])| == Offset(ps, k + 1) <= |LeavesOf(ps)|
    ensures forall j | 0 <= j < |Leaves(ps[k])| :: LeavesOf(ps)[Offset(ps, k) + j] == Leaves(ps[k])[j]
  {
    hide LeavesOf, Leaves;
    Cut(ps, k);
    Middle(LeavesOf(ps), LeavesOf(ps[..k]), Leaves(ps[k]), LeavesOf(ps[k + 1..]));
  }

  lemma Middle(s: seq<Lock>, x: seq<Lock>, y: seq<Lock>, z: seq<Lock>)
    requires s == x + y + z
    ensures |x| + |y| <= |s| && forall j | 0 <= j < |y| :: s[|x| + j] == y[j]
  {
  }

  lemma {:induction false} OffsetMonotone(ps: seq<Ptr>, j: nat, k: nat)
    requires j <= k <= |ps|
    ensures Offset(ps, j) <= Offset(ps, k)
  {
    if j < k {
      OffsetMonotone(ps, j, k - 1);
      Span(ps, k - 1);
    }
  }

  /** What a list that takes no leaf twice looks like around element i. */
  lemma Around(ps: seq<Ptr>, i: nat)
    requires NoDup(LeavesOf(ps)) && i < |ps|
    ensures LeavesOf(ps[..i + 1]) == LeavesOf(ps[..i]) + Leaves(ps[i])
    ensures NoDup(Leaves(ps[i])) && NoDup(LeavesOf(ps[..i]))
    ensures LeavesOf(ps[..i + 1]) <= LeavesOf(ps)
    ensures forall l | l in Leaves(ps[i]) :: l !in LeavesOf(ps[..i]) && l in LeavesOf(ps)
    ensures forall l | l in LeavesOf(ps[..i]) :: l in LeavesOf(ps)
  {
    hide LeavesOf, Leaves;
    var x, y, z := LeavesOf(ps[..i]), Leaves(ps[i]), LeavesOf(ps[i + 1..]);
    Cut(ps, i);
    ThreeParts(x, y, z);
    forall l | l in y ensures l in x + y + z {}
  }

  lemma ThreeParts(x: seq<Lock>, y: seq<Lock>, z: seq<Lock>)
    requires NoDup(x + y + z)
    ensures NoDup(x) && NoDup(y) && forall l | l in y :: l !in x
  {
    var s := x + y + z;
    forall p, q | 0 <= p < q < |x| ensures x[p] != x[q] { assert s[p] != s[q]; }
    forall p, q | 0 <= p < q < |y| ensures y[p] != y[q] { assert s[|x| + p] != s[|x| + q]; }
    forall p, q | 0 <= p < |x| && 0 <= q < |y| ensures x[p] != y[q] { assert s[p] != s[|x| + q]; }
  }

  /** Two elements of a list that takes no leaf twice share none. */
  lemma Apart(ps: seq<Ptr>, i: nat, j: nat, l: Lock)
    requires NoDup(LeavesOf(ps)) && i < j < |ps|
    requires l in Leaves(ps[i])
    ensures l !in Leaves(ps[j])
  {
    hide LeavesOf, Leaves, NoDup, Offset;
    Around(ps, j);
    Span(ps[..j], i);
    assert ps[..j][i] == ps[i];
    var q :| 0 <= q < |Leaves(ps[i])| && Leaves(ps[i])[q] == l;
    assert LeavesOf(ps[..j])[Offset(ps[..j], i) + q] == l;
  }

  /** The groups of a retrying collection. */
  function LeavesEach(ps: seq<Ptr>): seq<seq<Lock>> {
    seq(|ps|, i requires 0 <= i < |ps| => Leaves(ps[i]))
  }

  lemma {:induction false} BelowEach(ps: seq<Ptr>, i: nat)
    requires i <= |ps|
    ensures Below(LeavesEach(ps), i) == Elems(LeavesOf(ps[..i]))
  {
    if i > 0 {
      BelowEach(ps, i - 1);
      assert ps[..i][..i - 1] == ps[..i - 1];
    }
  }

  lemma DistinctEach(ps: seq<Ptr>, trying: bool)
    requires NoDup(LeavesOf(ps))
    ensures Distinct(Plan(LeavesEach(ps), trying))
  {
    var gs := LeavesEach(ps);
    forall i, p, j, q | 0 <= i < |gs| && 0 <= p < |gs[i]| && 0 <= j < |gs| && 0 <= q < |gs[j]| && gs[i][p] == gs[j][q]
      ensures i == j && p == q
    {
      Span(ps, i);
      Span(ps, j);
      assert Offset(ps, i) + p == Offset(ps, j) + q;
      if i < j { OffsetMonotone(ps, i + 1, j); }
      if j < i { OffsetMonotone(ps, j + 1, i); }
    }
  }

  // ---------- Lists in another order ----------

  lemma LeavesWithout(ps: seq<Ptr>, k: nat)
    requires k < |ps|
    ensures multiset(LeavesOf(ps)) == multiset(LeavesOf(ps[..k] + ps[k + 1..])) + multiset(Leaves(ps[k]))
  {
    var front, back := ps[..k], ps[k + 1..];
    assert ps == (front + [ps[k]]) + back;
    LeavesInThree(front, ps[k], back);
    LeavesOfConcat(front, back);
    var x, y, z := LeavesOf(front), Leaves(ps[k]), LeavesOf(back);
    assert multiset(x + y + z) == multiset(x + z) + multiset(y);
  }

  lemma LeavesOfHead(ps: seq<Ptr>)
    requires ps != []
    ensures multiset(LeavesOf(ps)) == multiset(LeavesOf(ps[1..])) + multiset(Leaves(ps[0]))
  {
    assert ps[..0] + ps[1..] == ps[1..];
    LeavesWithout(ps, 0);
  }

  lemma {:induction false} LeavesOfPermutation(a: seq<Ptr>, b: seq<Ptr>)
    requires multiset(a) == multiset(b)
    ensures multiset(LeavesOf(a)) == multiset(LeavesOf(b))
  {
    if a == [] {
      assert |multiset(a)| == |multiset(b)|;
    } else {
      var k := FindHead(a, b);
      LeavesOfPermutation(a[1..], b[..k] + b[k + 1..]);
      LeavesWithout(b, k);
      LeavesOfHead(a);
    }
  }
}
