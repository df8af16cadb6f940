/** Lists of raw lock pointers: sorting them by address, and finding a lock that occurs twice. */
module Pointers {
  import opened Locks

  /** A pointer to a raw lock. A leaf lock is its own address; an owned collection is one raw lock,
      whose leaves are fixed and cannot be reached except through it. */
  datatype Ptr =
    | LeafPtr(lock: Lock, vtable: nat)
    | OwnedPtr(at: nat, vtable: nat, kids: seq<Ptr>)

  function Addr(p: Ptr): nat {
    match p
    case LeafPtr(lock, _) => lock
    case OwnedPtr(at, _, _) => at
  }

  /** The leaf locks a raw lock takes, in the order in which it takes them. */
  function Leaves(p: Ptr): seq<Lock>
    decreases p
  {
    match p
    case LeafPtr(lock, _) => [lock]
    case OwnedPtr(_, _, kids) => LeavesOf(kids)
  }

  function LeavesOf(ps: seq<Ptr>): seq<Lock>
    decreases ps
  {
    if ps == [] then [] else LeavesOf(ps[..|ps| - 1]) + Leaves(ps[|ps| - 1])
  }

  lemma {:induction false} LeavesOfConcat(a: seq<Ptr>, b: seq<Ptr>)
    ensures LeavesOf(a + b) == LeavesOf(a) + LeavesOf(b)
    decreases |b|
  {
    if b == [] {
      assert a + b == a;
    } else {
      var front := b[..|b| - 1];
      assert (a + b)[..|a + b| - 1] == a + front;
      LeavesOfConcat(a, front);
    }
  }

  lemma LeavesOfOne(p: Ptr)
    ensures LeavesOf([p]) == Leaves(p)
  {
    assert [p][..0] == [];
  }

  // ---------- Sorting ----------

  /** The order of `sort_by_key` on the thin address. */
  predicate ThinLe(p: Ptr, q: Ptr) {
    Addr(p) <= Addr(q)
  }

  /** The order of `sort_by_key` on the fat pointer: address first, then metadata. */
  predicate FatLe(p: Ptr, q: Ptr) {
    Addr(p) < Addr(q) || (Addr(p) == Addr(q) && p.vtable <= q.vtable)
  }

  function Insert(le: (Ptr, Ptr) -> bool, p: Ptr, s: seq<Ptr>): seq<Ptr> {
    if s == [] then [p]
    else if le(p, s[0]) then [p] + s
    else [s[0]] + Insert(le, p, s[1..])
  }

  /** A stable sort. */
  function Sort(le: (Ptr, Ptr) -> bool, ps: seq<Ptr>): seq<Ptr> {
    if ps == [] then [] else Insert(le, ps[0], Sort(le, ps[1..]))
  }

  /** An order that sorts by address before anything else. */
  ghost predicate ByAddress(le: (Ptr, Ptr) -> bool) {
    forall p, q :: (le(p, q) ==> Addr(p) <= Addr(q)) && (!le(p, q) ==> Addr(q) <= Addr(p))
  }

  predicate Ascending(ps: seq<Ptr>) {
    forall i, j | 0 <= i < j < |ps| :: Addr(ps[i]) <= Addr(ps[j])
  }

  function Addrs(ps: seq<Ptr>): seq<nat> {
    if ps == [] then [] else [Addr(ps[0])] + Addrs(ps[1..])
  }

  lemma {:induction false} AddrsAt(ps: seq<Ptr>)
    ensures |Addrs(ps)| == |ps|
    ensures forall k | 0 <= k < |ps| :: Addrs(ps)[k] == Addr(ps[k])
  {
    if ps != [] { AddrsAt(ps[1..]); }
  }

  lemma HeadOf<T>(s: seq<T>)
    requires s != []
    ensures multiset(s) == multiset{s[0]} + multiset(s[1..])
    ensures multiset(s[1..]) == multiset(s) - multiset{s[0]}
  {
    assert s == [s[0]] + s[1..];
  }

  lemma WithoutOne<T>(s: seq<T>, k: nat)
    requires k < |s|
    ensures multiset(s[..k] + s[k + 1..]) == multiset(s) - multiset{s[k]}
  {
    assert s == s[..k] + [s[k]] + s[k + 1..];
  }

  /** The head of a permutation, found in the other list and taken out of it. */
  lemma FindHead<T>(a: seq<T>, b: seq<T>) returns (k: nat)
    requires a != [] && multiset(a) == multiset(b)
    ensures k < |b| && b[k] == a[0] && multiset(a[1..]) == multiset(b[..k] + b[k + 1..])
  {
    assert a[0] in multiset(b);
    k :| 0 <= k < |b| && b[k] == a[0];
    HeadOf(a);
    WithoutOne(b, k);
  }

  lemma {:induction false} NoDupCounts<T>(s: seq<T>)
    ensures NoDup(s) <==> forall x :: multiset(s)[x] <= 1
  {
    if s != [] {
      NoDupCounts(s[1..]);
      HeadOf(s);
      if NoDup(s) {
        forall x ensures multiset(s)[x] <= 1 { assert x == s[0] ==> x !in s[1..]; }
      } else if NoDup(s[1..]) {
        var p, q :| 0 <= p < q < |s| && s[p] == s[q];
        assert s[1..][q - 1] == s[q];
        assert multiset(s)[s[0]] >= 2;
      } else {
        var x :| multiset(s[1..])[x] > 1;
        assert multiset(s)[x] > 1;
      }
    }
  }

  lemma {:induction false} InsertKeeps(le: (Ptr, Ptr) -> bool, p: Ptr, s: seq<Ptr>)
    ensures multiset(Insert(le, p, s)) == multiset{p} + multiset(s)
  {
    if s != [] {
      HeadOf(s);
      if !le(p, s[0]) { InsertKeeps(le, p, s[1..]); }
    }
  }

  lemma {:induction false} InsertSorts(le: (Ptr, Ptr) -> bool, p: Ptr, s: seq<Ptr>)
    requires ByAddress(le) && Ascending(s)
    ensures Ascending(Insert(le, p, s))
  {
    if s != [] && !le(p, s[0]) {
      var out := Insert(le, p, s[1..]);
      InsertSorts(le, p, s[1..]);
      InsertKeeps(le, p, s[1..]);
      forall j | 0 <= j < |out| ensures Addr(s[0]) <= Addr(out[j]) {
        assert out[j] in multiset(out);
        assert out[j] == p || out[j] in s[1..];
      }
    }
  }

  lemma {:induction false} SortSorts(le: (Ptr, Ptr) -> bool, ps: seq<Ptr>)
    requires ByAddress(le)
    ensures multiset(Sort(le, ps)) == multiset(ps) && |Sort(le, ps)| == |ps|
    ensures Ascending(Sort(le, ps))
  {
    if ps != [] {
      SortSorts(le, ps[1..]);
      InsertSorts(le, ps[0], Sort(le, ps[1..]));
      InsertKeeps(le, ps[0], Sort(le, ps[1..]));
      HeadOf(ps);
    }
    assert |multiset(Sort(le, ps))| == |multiset(ps)|;
  }

  lemma OneLess(ps: seq<Ptr>, k: nat, xs: seq<nat>, ys: seq<nat>)
    requires k < |ps| == |xs| && |ys| == |ps| - 1
    requires forall i | 0 <= i < |ps| :: xs[i] == Addr(ps[i])
    requires forall i | 0 <= i < |ys| :: ys[i] == Addr((ps[..k] + ps[k + 1..])[i])
    ensures multiset(xs) == multiset(ys) + multiset{Addr(ps[k])}
  {
    assert ys == xs[..k] + xs[k + 1..];
    WithoutOne(xs, k);
  }

  lemma AddrsCount(ps: seq<Ptr>, k: nat)
    requires k < |ps|
    ensures multiset(Addrs(ps)) == multiset(Addrs(ps[..k] + ps[k + 1..])) + multiset{Addr(ps[k])}
  {
    var rest := ps[..k] + ps[k + 1..];
    AddrsAt(ps);
    AddrsAt(rest);
    OneLess(ps, k, Addrs(ps), Addrs(rest));
  }

  lemma {:induction false} AddrsOfPermutation(a: seq<Ptr>, b: seq<Ptr>)
    requires multiset(a) == multiset(b)
    ensures multiset(Addrs(a)) == multiset(Addrs(b))
  {
    if a == [] {
      assert |multiset(a)| == |multiset(b)|;
    } else {
      var k := FindHead(a, b);
      AddrsOfPermutation(a[1..], b[..k] + b[k + 1..]);
      AddrsCount(b, k);
    }
  }

  predicate Rising(s: seq<nat>) {
    forall i, j | 0 <= i < j < |s| :: s[i] <= s[j]
  }

  lemma SameLeast(a: seq<nat>, b: seq<nat>)
    requires Rising(a) && Rising(b) && multiset(a) == multiset(b) && a != []
    ensures b != [] && a[0] == b[0]
  {
    assert |multiset(a)| == |multiset(b)|;
    assert a[0] in multiset(b) && b[0] in multiset(a);
    var j :| 0 <= j < |b| && b[j] == a[0];
    var i :| 0 <= i < |a| && a[i] == b[0];
  }

  lemma {:induction false} RisingUnique(a: seq<nat>, b: seq<nat>)
    requires Rising(a) && Rising(b) && multiset(a) == multiset(b)
    ensures a == b
  {
    if a == [] {
      assert |multiset(a)| == |multiset(b)|;
    } else {
      SameLeast(a, b);
      HeadOf(a);
      HeadOf(b);
      RisingUnique(a[1..], b[1..]);
      assert a == [a[0]] + a[1..] && b == [b[0]] + b[1..];
    }
  }

  /** Two ascending lists of the same addresses agree position by position. */
  lemma AscendingUnique(a: seq<Ptr>, b: seq<Ptr>)
    requires Ascending(a) && Ascending(b) && multiset(a) == multiset(b)
    ensures Addrs(a) == Addrs(b)
  {
    AddrsAt(a);
    AddrsAt(b);
    AddrsOfPermutation(a, b);
    RisingUnique(Addrs(a), Addrs(b));
  }

  ghost predicate HasDup(ps: seq<Ptr>) {
    exists i, j :: 0 <= i < j < |ps| && Addr(ps[i]) == Addr(ps[j])
  }

  lemma OrdersByAddress()
    ensures ByAddress(ThinLe) && ByAddress(FatLe)
  {
  }

  /** Thin and fat sorting visit the same addresses in the same order, always; with no lock listed
      twice they give the same list of pointers. */
  lemma ThinAndFatAgree(ps: seq<Ptr>)
    ensures Addrs(Sort(ThinLe, ps)) == Addrs(Sort(FatLe, ps))
    ensures !HasDup(ps) ==> Sort(ThinLe, ps) == Sort(FatLe, ps)
  {
    var thin, fat := Sort(ThinLe, ps), Sort(FatLe, ps);
    OrdersByAddress();
    SortSorts(ThinLe, ps);
    SortSorts(FatLe, ps);
    AscendingUnique(thin, fat);
    AddrsAt(thin);
    AddrsAt(fat);
    if !HasDup(ps) {
      forall k | 0 <= k < |thin| ensures thin[k] == fat[k] {
        assert thin[k] in multiset(ps) && fat[k] in multiset(ps);
        assert Addr(thin[k]) == Addr(fat[k]);
      }
    }
  }

  // ---------- Duplicates ----------

  /** The check made on a sorted list: some two neighbours have the same address. */
  predicate OrderedContainsDuplicates(l: seq<Ptr>) {
    exists k :: 0 <= k < |l| - 1 && SameAsNext(l, k)
  }

  predicate SameAsNext(l: seq<Ptr>, k: nat)
    requires k < |l| - 1
  {
    Addr(l[k]) == Addr(l[k + 1])
  }

  lemma NeighboursSuffice(l: seq<Ptr>)
    requires Ascending(l)
    ensures OrderedContainsDuplicates(l) <==> HasDup(l)
  {
    if i, j :| 0 <= i < j < |l| && Addr(l[i]) == Addr(l[j]) {
      assert Addr(l[i]) <= Addr(l[i + 1]) && (i + 1 == j || Addr(l[i + 1]) <= Addr(l[j]));
      assert SameAsNext(l, i);
    }
    if k :| 0 <= k < |l| - 1 && SameAsNext(l, k) {
      assert Addr(l[k]) == Addr(l[k + 1]);
    }
  }

  function AddrSet(ps: seq<Ptr>): set<nat> {
    set p | p in ps :: Addr(p)
  }

  lemma {:induction false} DupByCount(ps: seq<Ptr>)
    ensures |AddrSet(ps)| <= |ps|
    ensures HasDup(ps) <==> |AddrSet(ps)| < |ps|
  {
    if ps != [] {
      var rest := ps[1..];
      DupByCount(rest);
      assert AddrSet(ps) == {Addr(ps[0])} + AddrSet(rest);
      if HasDup(rest) {
        var i, j :| 0 <= i < j < |rest| && Addr(rest[i]) == Addr(rest[j]);
        assert Addr(ps[i + 1]) == Addr(ps[j + 1]);
      }
      if Addr(ps[0]) in AddrSet(rest) {
        var k :| 0 <= k < |rest| && Addr(rest[k]) == Addr(ps[0]);
        assert Addr(ps[0]) == Addr(ps[k + 1]);
      } else if i, j :| 0 <= i < j < |ps| && Addr(ps[i]) == Addr(ps[j]) {
        assert ps[j] in rest && (i == 0 || Addr(rest[i - 1]) == Addr(rest[j - 1]));
      }
    }
  }

  lemma DupOfPermutation(a: seq<Ptr>, b: seq<Ptr>)
    requires multiset(a) == multiset(b)
    ensures HasDup(a) <==> HasDup(b)
  {
    assert |multiset(a)| == |multiset(b)|;
    assert forall p :: p in a <==> p in multiset(a);
    assert AddrSet(a) == AddrSet(b);
    DupByCount(a);
    DupByCount(b);
  }

  /** The check made on an unsorted list: insert each address in a set, stop at the first refusal. */
  method ContainsDuplicates(locks: seq<Ptr>) returns (found: bool)
    ensures found <==> HasDup(locks)
  {
    var seen: set<nat> := {};
    for i := 0 to |locks|
      invariant seen == set k | 0 <= k < i :: Addr(locks[k])
      invariant forall j, k | 0 <= j < k < i :: Addr(locks[j]) != Addr(locks[k])
    {
      if Addr(locks[i]) in seen {
        return true;
      }
      seen := seen + {Addr(locks[i])};
    }
    return false;
  }

  /** Sorting and then looking at neighbours, by thin or by fat address, and looking for any two equal
      addresses, accept the same lists. */
  lemma ChecksAgree(ps: seq<Ptr>)
    ensures OrderedContainsDuplicates(Sort(ThinLe, ps)) <==> HasDup(ps)
    ensures OrderedContainsDuplicates(Sort(FatLe, ps)) <==> HasDup(ps)
  {
    OrdersByAddress();
    SortSorts(ThinLe, ps);
    SortSorts(FatLe, ps);
    NeighboursSuffice(Sort(ThinLe, ps));
    NeighboursSuffice(Sort(FatLe, ps));
    DupOfPermutation(Sort(ThinLe, ps), ps);
    DupOfPermutation(Sort(FatLe, ps), ps);
  }
}
