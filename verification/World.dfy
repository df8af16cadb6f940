/** One global rank for all leaf locks, from nothing but addresses and ownership: sorted collections take
    their leaves in its order, and accepted collections take no leaf twice. */
module World {
  import opened Locks
  import opened Pointers
  import opened Groups

  // ---------- The world ----------

  lemma {:induction false} LeafHasOwner(ps: seq<Ptr>, x: Lock) returns (k: nat)
    requires x in LeavesOf(ps)
    ensures k < |ps| && x in Leaves(ps[k])
  {
    if x in Leaves(ps[|ps| - 1]) {
      k := |ps| - 1;
    } else {
      k := LeafHasOwner(ps[..|ps| - 1], x);
    }
  }

  /** All raw locks that pointers can reach, in address order; no leaf belongs to two of them. */
  ghost predicate WorldOk(world: seq<Ptr>) {
    && (forall i, j | 0 <= i < j < |world| :: Addr(world[i]) < Addr(world[j]))
    && NoDup(LeavesOf(world))
  }

  /** The pointer refers to raw lock k of the world, whichever vtable it carries. */
  predicate RefersTo(world: seq<Ptr>, p: Ptr, k: nat) {
    k < |world| && Addr(world[k]) == Addr(p) && Leaves(world[k]) == Leaves(p)
  }

  predicate Placed(world: seq<Ptr>, p: Ptr) {
    exists k :: 0 <= k < |world| && RefersTo(world, p, k)
  }

  predicate AllPlaced(world: seq<Ptr>, ps: seq<Ptr>) {
    forall i | 0 <= i < |ps| :: Placed(world, ps[i])
  }

  function IndexOf(s: seq<Lock>, l: Lock): nat {
    if s == [] || s[0] == l then 0 else 1 + IndexOf(s[1..], l)
  }

  lemma {:induction false} IndexOfAt(s: seq<Lock>, k: nat)
    requires NoDup(s) && k < |s|
    ensures IndexOf(s, s[k]) == k
  {
    if k > 0 { IndexOfAt(s[1..], k - 1); }
  }

  /** The global rank of a leaf: by the address of the raw lock it belongs to, then by its position
      in that raw lock's private order. */
  function RankIn(world: seq<Ptr>): Lock -> int {
    (l: Lock) => IndexOf(LeavesOf(world), l)
  }

  lemma RankOfLeaf(world: seq<Ptr>, p: Ptr, k: nat, j: nat)
    requires WorldOk(world) && RefersTo(world, p, k) && j < |Leaves(p)|
    ensures RankIn(world)(Leaves(p)[j]) == Offset(world, k) + j < Offset(world, k + 1)
  {
    Span(world, k);
    IndexOfAt(LeavesOf(world), Offset(world, k) + j);
  }

  ghost predicate Climbs(rank: Lock -> int, s: seq<Lock>) {
    forall i, j | 0 <= i < j < |s| :: rank(s[i]) < rank(s[j])
  }

  lemma OneClimbs(world: seq<Ptr>, p: Ptr)
    requires WorldOk(world) && Placed(world, p)
    ensures Climbs(RankIn(world), Leaves(p))
  {
    var k :| 0 <= k < |world| && RefersTo(world, p, k);
    forall i, j | 0 <= i < j < |Leaves(p)| ensures RankIn(world)(Leaves(p)[i]) < RankIn(world)(Leaves(p)[j]) {
      RankOfLeaf(world, p, k, i);
      RankOfLeaf(world, p, k, j);
    }
  }

  /** A list of distinct raw locks in address order takes its leaves in rank order. */
  lemma {:induction false} AddressOrderClimbs(world: seq<Ptr>, ps: seq<Ptr>)
    requires WorldOk(world) && AllPlaced(world, ps)
    requires forall i, j | 0 <= i < j < |ps| :: Addr(ps[i]) < Addr(ps[j])
    ensures Climbs(RankIn(world), LeavesOf(ps))
  {
    if ps != [] {
      var rank := RankIn(world);
      var front, last := ps[..|ps| - 1], ps[|ps| - 1];
      assert forall i | 0 <= i < |front| :: front[i] == ps[i];
      AddressOrderClimbs(world, front);
      OneClimbs(world, last);
      var k :| 0 <= k < |world| && RefersTo(world, last, k);
      var a, b := LeavesOf(front), Leaves(last);
      forall x | x in a ensures rank(x) < Offset(world, k) {
        EarlierRank(world, front, last, k, x);
      }
      forall i, j | 0 <= i < j < |a + b| ensures rank((a + b)[i]) < rank((a + b)[j]) {
        if j >= |a| {
          RankOfLeaf(world, last, k, j - |a|);
          if i < |a| { assert a[i] in a; }
        }
      }
    }
  }

  lemma EarlierRank(world: seq<Ptr>, front: seq<Ptr>, last: Ptr, k: nat, x: Lock)
    requires WorldOk(world) && AllPlaced(world, front) && RefersTo(world, last, k)
    requires forall i | 0 <= i < |front| :: Addr(front[i]) < Addr(last)
    requires x in LeavesOf(front)
    ensures RankIn(world)(x) < Offset(world, k)
  {
    var i := LeafHasOwner(front, x);
    var h :| 0 <= h < |world| && RefersTo(world, front[i], h);
    var j :| 0 <= j < |Leaves(front[i])| && Leaves(front[i])[j] == x;
    RankOfLeaf(world, front[i], h, j);
    assert h < k;
    OffsetMonotone(world, h + 1, k);
  }

  lemma SortedStrictly(le: (Ptr, Ptr) -> bool, ps: seq<Ptr>)
    requires ByAddress(le) && !HasDup(ps)
    ensures forall i, j | 0 <= i < j < |Sort(le, ps)| :: Addr(Sort(le, ps)[i]) < Addr(Sort(le, ps)[j])
  {
    SortSorts(le, ps);
    DupOfPermutation(Sort(le, ps), ps);
  }

  lemma PlacedAfterSort(world: seq<Ptr>, ps: seq<Ptr>, qs: seq<Ptr>)
    requires multiset(ps) == multiset(qs)
    ensures AllPlaced(world, ps) <==> AllPlaced(world, qs)
  {
    forall p ensures p in ps <==> p in qs {
      assert p in ps <==> p in multiset(ps);
      assert p in qs <==> p in multiset(qs);
    }
    assert AllPlaced(world, ps) <==> forall p | p in ps :: Placed(world, p);
    assert AllPlaced(world, qs) <==> forall p | p in qs :: Placed(world, p);
  }

  /** Any two sorted collections take the locks they share in the same relative order. */
  lemma SameRelativeOrder(world: seq<Ptr>, le: (Ptr, Ptr) -> bool, ps: seq<Ptr>,
                          ge: (Ptr, Ptr) -> bool, qs: seq<Ptr>, i: nat, j: nat, m: nat, n: nat)
    requires WorldOk(world) && ByAddress(le) && ByAddress(ge)
    requires AllPlaced(world, ps) && !HasDup(ps) && AllPlaced(world, qs) && !HasDup(qs)
    requires var a, b := LeavesOf(Sort(le, ps)), LeavesOf(Sort(ge, qs));
             i < |a| && j < |a| && m < |b| && n < |b| && a[i] == b[m] && a[j] == b[n]
    ensures i < j <==> m < n
  {
    SortedCollectionClimbs(world, le, ps);
    SortedCollectionClimbs(world, ge, qs);
    var a, b := LeavesOf(Sort(le, ps)), LeavesOf(Sort(ge, qs));
    var rank := RankIn(world);
    assert i < j ==> rank(a[i]) < rank(a[j]);
    assert j < i ==> rank(a[j]) < rank(a[i]);
    assert m < n ==> rank(b[m]) < rank(b[n]);
    assert n < m ==> rank(b[n]) < rank(b[m]);
  }

  lemma SortedCollectionClimbs(world: seq<Ptr>, le: (Ptr, Ptr) -> bool, ps: seq<Ptr>)
    requires WorldOk(world) && ByAddress(le) && AllPlaced(world, ps) && !HasDup(ps)
    ensures Climbs(RankIn(world), LeavesOf(Sort(le, ps)))
  {
    SortSorts(le, ps);
    SortedStrictly(le, ps);
    PlacedAfterSort(world, ps, Sort(le, ps));
    AddressOrderClimbs(world, Sort(le, ps));
  }

  // ---------- No leaf twice ----------

  /** Acceptance by any constructor, on locks that belong to one owner each, means that no leaf lock
      occurs twice; and the constructors accept every such list of locks that have a leaf at all. */
  lemma AcceptedMeansNoLeafTwice(world: seq<Ptr>, ps: seq<Ptr>)
    requires WorldOk(world) && AllPlaced(world, ps)
    ensures !HasDup(ps) ==> NoDup(LeavesOf(ps))
    ensures (forall i | 0 <= i < |ps| :: Leaves(ps[i]) != []) && NoDup(LeavesOf(ps)) ==> !HasDup(ps)
  {
    if !HasDup(ps) {
      OrdersByAddress();
      SortSorts(ThinLe, ps);
      SortedCollectionClimbs(world, ThinLe, ps);
      ClimbsMeansNoDup(RankIn(world), LeavesOf(Sort(ThinLe, ps)));
      LeavesOfPermutation(Sort(ThinLe, ps), ps);
      NoDupCounts(LeavesOf(Sort(ThinLe, ps)));
      NoDupCounts(LeavesOf(ps));
    } else if (forall i | 0 <= i < |ps| :: Leaves(ps[i]) != []) {
      DupRepeatsLeaf(world, ps);
    }
  }

  lemma ClimbsMeansNoDup(rank: Lock -> int, s: seq<Lock>)
    requires Climbs(rank, s)
    ensures NoDup(s)
  {
    forall p, q | 0 <= p < q < |s| ensures s[p] != s[q] {
      assert rank(s[p]) < rank(s[q]);
    }
  }

  lemma DupRepeatsLeaf(world: seq<Ptr>, ps: seq<Ptr>)
    requires WorldOk(world) && AllPlaced(world, ps) && HasDup(ps)
    requires forall i | 0 <= i < |ps| :: Leaves(ps[i]) != []
    ensures !NoDup(LeavesOf(ps))
  {
    var i, j :| 0 <= i < j < |ps| && Addr(ps[i]) == Addr(ps[j]);
    var h :| 0 <= h < |world| && RefersTo(world, ps[i], h);
    var k :| 0 <= k < |world| && RefersTo(world, ps[j], k);
    assert h == k;
    SameLeafTwice(ps, i, j);
  }

  lemma SameLeafTwice(ps: seq<Ptr>, i: nat, j: nat)
    requires i < j < |ps| && Leaves(ps[i]) == Leaves(ps[j]) != []
    ensures !NoDup(LeavesOf(ps))
  {
    hide Offset, NoDup;
    var x := FirstLeafAt(ps, i);
    var y := FirstLeafAt(ps, j);
    OffsetMonotone(ps, i + 1, j);
    Repeats(LeavesOf(ps), x, y);
  }

  lemma FirstLeafAt(ps: seq<Ptr>, i: nat) returns (x: nat)
    requires i < |ps| && Leaves(ps[i]) != []
    ensures Offset(ps, i) == x < Offset(ps, i + 1) <= |LeavesOf(ps)| && LeavesOf(ps)[x] == Leaves(ps[i])[0]
  {
    hide LeavesOf, Leaves, Offset;
    Span(ps, i);
    x := Offset(ps, i) + 0;
    assert LeavesOf(ps)[Offset(ps, i) + 0] == Leaves(ps[i])[0];
  }

  lemma Repeats(s: seq<Lock>, x: nat, y: nat)
    requires x < y < |s| && s[x] == s[y]
    ensures !NoDup(s)
  {
  }
}
