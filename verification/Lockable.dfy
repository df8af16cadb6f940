/** What `get_ptrs` lists of a tree, and which trees a constructor accepts. */
module Lockable {
  import opened Locks
  import opened Protocol
  import opened Pointers
  import opened Trees

  // ---------- get_ptrs ----------

  /** The raw locks a tree lists. The sorting collections list their cached sorted pointers; an owned
      collection lists only itself. */
  function Ptrs(t: Tree): seq<Ptr>
    decreases t
  {
    match t
    case Leaf(lock, vtable) => [LeafPtr(lock, vtable)]
    case Branch(kids) => PtrsOf(kids)
    case Poisonable(_, inner) => Ptrs(inner)
    case Boxed(child) => Sort(ThinLe, Ptrs(child))
    case Ref(child) => Sort(FatLe, Ptrs(child))
    case Retrying(child) => Ptrs(child)
    case Owned(at, vtable, child) => [OwnedPtr(at, vtable, Ptrs(child))]
  }

  function PtrsOf(kids: seq<Tree>): seq<Ptr>
    decreases kids
  {
    if kids == [] then [] else PtrsOf(kids[..|kids| - 1]) + Ptrs(kids[|kids| - 1])
  }

  /** The caller's growing list of pointers. */
  class PtrVec {
    var items: seq<Ptr>

    constructor ()
      ensures items == []
    {
      items := [];
    }

    method Push(p: Ptr)
      modifies this
      ensures items == old(items) + [p]
    {
      items := items + [p];
    }

    method Extend(ps: seq<Ptr>)
      modifies this
      ensures items == old(items) + ps
    {
      items := items + ps;
    }

    method SortByKey(le: (Ptr, Ptr) -> bool)
      modifies this
      ensures items == Sort(le, old(items))
    {
      items := Sort(le, items);
    }
  }

  /** `get_ptrs`: each kind of tree appends its pointers to the caller's list. */
  method GetPtrs(t: Tree, ptrs: PtrVec)
    modifies ptrs
    ensures ptrs.items == old(ptrs.items) + Ptrs(t)
    decreases t, 0
  {
    match t
    case Leaf(lock, vtable) => ptrs.Push(LeafPtr(lock, vtable));
    case Branch(kids) =>
      ghost var before := ptrs.items;
      for i := 0 to |kids|
        invariant ptrs.items == before + PtrsOf(kids[..i])
      {
        GetPtrs(kids[i], ptrs);
        assert kids[..i + 1][..i] == kids[..i];
      }
      assert kids[..|kids|] == kids;
    case Poisonable(_, inner) => GetPtrs(inner, ptrs);
    case Boxed(child) =>
      var locks := NewUnchecked(child);
      ptrs.Extend(locks);
    case Ref(child) =>
      var locks := GetLocks(child);
      ptrs.Extend(locks);
    case Retrying(child) => GetPtrs(child, ptrs);
    case Owned(at, vtable, child) =>
      var locks := GetLocksUnsorted(child);
      ptrs.Push(OwnedPtr(at, vtable, locks));
  }

  method GetLocksUnsorted(data: Tree) returns (locks: seq<Ptr>)
    ensures locks == Ptrs(data)
    decreases data, 1
  {
    var ptrs := new PtrVec();
    GetPtrs(data, ptrs);
    locks := ptrs.items;
  }

  method GetLocks(data: Tree) returns (locks: seq<Ptr>)
    ensures locks == Sort(FatLe, Ptrs(data))
    decreases data, 1
  {
    var ptrs := new PtrVec();
    GetPtrs(data, ptrs);
    assert ptrs.items == Ptrs(data);
    ptrs.SortByKey(FatLe);
    locks := ptrs.items;
  }

  /** The sorted list a `BoxedLockCollection` caches. */
  method NewUnchecked(data: Tree) returns (locks: seq<Ptr>)
    ensures locks == Sort(ThinLe, Ptrs(data))
    decreases data, 1
  {
    var ptrs := new PtrVec();
    GetPtrs(data, ptrs);
    assert ptrs.items == Ptrs(data);
    ptrs.SortByKey(ThinLe);
    locks := ptrs.items;
  }

  // ---------- What the list points to ----------

  /** A pointer to this leaf or owned collection. Behind the second is the list of its child. */
  ghost predicate PointsTo(p: Ptr, t: Tree) {
    match t
    case Leaf(lock, vtable) => p == LeafPtr(lock, vtable)
    case Owned(at, vtable, child) => p == OwnedPtr(at, vtable, Ptrs(child))
    case _ => false
  }

  ghost predicate PointsAt(t: Tree, p: Ptr, path: seq<nat>) {
    Outer(t, path).Some? && PointsTo(p, Outer(t, path).value)
  }

  /** Pointer k is to what is at path k. */
  ghost predicate PointAt(t: Tree, ps: seq<Ptr>, paths: seq<seq<nat>>) {
    |ps| == |paths| && forall k | 0 <= k < |ps| :: PointsAt(t, ps[k], paths[k])
  }

  /** `get_ptrs` lists every outermost leaf and owned collection of a tree, each place once; and from left
      to right, unless a sorting collection is above them. */
  lemma {:induction false} PtrsListOutermost(t: Tree) returns (paths: seq<seq<nat>>)
    ensures ListsOuter(t, paths) && PointAt(t, Ptrs(t), paths)
    ensures Unsorted(t) ==> LeftToRight(paths)
    decreases t, 0
  {
    match t
    case Leaf(_, _) => paths := [[]];
    case Owned(_, _, _) => paths := [[]];
    case Branch(kids) => paths := KidsListOutermost(kids);
    case Poisonable(_, inner) => paths := PtrsListOutermost(inner);
    case Retrying(child) => paths := PtrsListOutermost(child);
    case Boxed(child) => paths := SortedListOutermost(child, ThinLe);
    case Ref(child) => paths := SortedListOutermost(child, FatLe);
  }

  lemma {:induction false} KidsListOutermost(kids: seq<Tree>) returns (paths: seq<seq<nat>>)
    ensures ListsOuter(Branch(kids), paths) && PointAt(Branch(kids), PtrsOf(kids), paths)
    ensures Unsorted(Branch(kids)) ==> LeftToRight(paths)
    decreases kids
  {
    paths := [];
    if kids != [] {
      var n := |kids| - 1;
      var before := KidsListOutermost(kids[..n]);
      var last := PtrsListOutermost(kids[n]);
      JoinLists(kids, n, before, last);
      JoinPoints(kids, n, before, last);
      paths := before + Under(n, last);
    }
  }

  lemma JoinLists(kids: seq<Tree>, n: nat, before: seq<seq<nat>>, last: seq<seq<nat>>)
    requires |kids| == n + 1 && ListsOuter(Branch(kids[..n]), before) && ListsOuter(kids[n], last)
    ensures ListsOuter(Branch(kids), before + Under(n, last))
    ensures LeftToRight(before) && LeftToRight(last) ==> LeftToRight(before + Under(n, last))
  {
    forall p ensures Outer(Branch(kids), p).Some?
                     <==> p != [] && (if p[0] == n then Outer(kids[n], p[1..]).Some?
                                      else p[0] < n && Outer(Branch(kids[..n]), p).Some?) {}
    NextChild(n, before, last);
  }

  lemma JoinPoints(kids: seq<Tree>, n: nat, before: seq<seq<nat>>, last: seq<seq<nat>>)
    requires |kids| == n + 1 && PointAt(Branch(kids[..n]), PtrsOf(kids[..n]), before)
    requires PointAt(kids[n], Ptrs(kids[n]), last)
    ensures PointAt(Branch(kids), PtrsOf(kids), before + Under(n, last))
  {
    var ps, qs := PtrsOf(kids[..n]), Ptrs(kids[n]);
    assert PtrsOf(kids) == ps + qs;
    hide PointsAt, Ptrs, PtrsOf;
    assert PointAt(Branch(kids), ps, before) by {
      forall k | 0 <= k < |ps| ensures PointsAt(Branch(kids), ps[k], before[k]) {
        PointInKid(kids, n, ps[k], before[k]);
      }
    }
    assert PointAt(Branch(kids), qs, Under(n, last)) by {
      forall k | 0 <= k < |qs| ensures PointsAt(Branch(kids), qs[k], Under(n, last)[k]) {
        PointInKid(kids, n, qs[k], last[k]);
      }
    }
    PointConcat(Branch(kids), ps, before, qs, Under(n, last));
  }

  lemma PointConcat(t: Tree, ps: seq<Ptr>, a: seq<seq<nat>>, qs: seq<Ptr>, b: seq<seq<nat>>)
    requires PointAt(t, ps, a) && PointAt(t, qs, b)
    ensures PointAt(t, ps + qs, a + b)
  {
    hide PointsAt;
  }

  lemma PointInKid(kids: seq<Tree>, n: nat, p: Ptr, path: seq<nat>)
    requires |kids| == n + 1
    ensures PointsAt(Branch(kids[..n]), p, path) ==> PointsAt(Branch(kids), p, path)
    ensures PointsAt(kids[n], p, path) ==> PointsAt(Branch(kids), p, [n] + path)
  {
    assert ([n] + path)[1..] == path;
  }

  lemma {:induction false} SortedListOutermost(child: Tree, le: (Ptr, Ptr) -> bool) returns (paths: seq<seq<nat>>)
    requires ByAddress(le)
    ensures ListsOuter(child, paths) && PointAt(child, Sort(le, Ptrs(child)), paths)
    decreases child, 1
  {
    var unsorted := PtrsListOutermost(child);
    SortSorts(le, Ptrs(child));
    paths := Reorder(child, Ptrs(child), unsorted, Sort(le, Ptrs(child)));
    NoDupCounts(unsorted);
    NoDupCounts(paths);
    forall p ensures p in paths <==> p in unsorted {
      assert p in paths <==> p in multiset(paths);
      assert p in unsorted <==> p in multiset(unsorted);
    }
  }

  /** Places go along when pointers are put in another order. */
  lemma {:induction false} Reorder(t: Tree, ps: seq<Ptr>, paths: seq<seq<nat>>, qs: seq<Ptr>)
    returns (paths': seq<seq<nat>>)
    requires PointAt(t, ps, paths) && multiset(ps) == multiset(qs)
    ensures PointAt(t, qs, paths') && multiset(paths) == multiset(paths')
  {
    assert |multiset(ps)| == |multiset(qs)|;
    if qs == [] {
      paths' := [];
    } else {
      var k := FindHead(qs, ps);
      PointWithout(t, ps, paths, k);
      hide PointAt, PointsAt;
      var rest := Reorder(t, ps[..k] + ps[k + 1..], paths[..k] + paths[k + 1..], qs[1..]);
      paths' := [paths[k]] + rest;
      PointConcat(t, [qs[0]], [paths[k]], qs[1..], rest);
      assert [qs[0]] + qs[1..] == qs;
      PutBack(paths, k, rest);
    }
  }

  lemma PutBack(paths: seq<seq<nat>>, k: nat, rest: seq<seq<nat>>)
    requires k < |paths| && multiset(paths[..k] + paths[k + 1..]) == multiset(rest)
    ensures multiset(paths) == multiset([paths[k]] + rest)
  {
    WithoutOne(paths, k);
    assert paths[k] in multiset(paths);
  }

  lemma PointWithout(t: Tree, ps: seq<Ptr>, paths: seq<seq<nat>>, k: nat)
    requires PointAt(t, ps, paths) && k < |ps|
    ensures |paths| == |ps| && PointAt(t, [ps[k]], [paths[k]])
    ensures PointAt(t, ps[..k] + ps[k + 1..], paths[..k] + paths[k + 1..])
  {
    hide PointsAt;
  }

  /** The list has an address twice exactly if two places of the tree hold the same lock. */
  lemma DupIsSharing(t: Tree)
    ensures HasDup(Ptrs(t)) <==> SharesLock(t)
  {
    var ps := Ptrs(t);
    var paths := PtrsListOutermost(t);
    forall k | 0 <= k < |ps|
      ensures Outer(t, paths[k]).Some? && Address(Outer(t, paths[k]).value) == Some(Addr(ps[k]))
    {
      assert PointsAt(t, ps[k], paths[k]);
    }
    hide Ptrs, Outer, PointAt, PointsAt, Address, Addr;
    if i, j :| 0 <= i < j < |ps| && Addr(ps[i]) == Addr(ps[j]) {
      assert SameLock(t, paths[i], paths[j]);
    }
    if p, q :| p != q && SameLock(t, p, q) {
      assert p in paths && q in paths;
      var i :| 0 <= i < |paths| && paths[i] == p;
      var j :| 0 <= j < |paths| && paths[j] == q;
      assert Addr(ps[i]) == Addr(ps[j]);
    }
  }

  // ---------- Constructors ----------

  method BoxedTryNew(data: Tree) returns (r: Option<Tree>)
    ensures r == if SharesLock(data) then None else Some(Boxed(data))
  {
    var locks := NewUnchecked(data);
    ChecksAgree(Ptrs(data));
    DupIsSharing(data);
    if OrderedContainsDuplicates(locks) {
      return None;
    }
    return Some(Boxed(data));
  }

  method RefTryNew(data: Tree) returns (r: Option<Tree>)
    ensures r == if SharesLock(data) then None else Some(Ref(data))
  {
    var locks := GetLocks(data);
    ChecksAgree(Ptrs(data));
    DupIsSharing(data);
    if OrderedContainsDuplicates(locks) {
      return None;
    }
    return Some(Ref(data));
  }

  method RetryingTryNew(data: Tree) returns (r: Option<Tree>)
    ensures r == if SharesLock(data) then None else Some(Retrying(data))
  {
    var locks := GetLocksUnsorted(data);
    DupIsSharing(data);
    var found := ContainsDuplicates(locks);
    return if found then None else Some(Retrying(data));
  }
}
