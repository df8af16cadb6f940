/** Lockable values as trees, and the places in them. */
module Trees {
  import opened Locks
  import opened Protocol

  /** A lockable value. References are transparent; a branch is a tuple, an array, a boxed slice or a
      vector. A `Poisonable` has a flag of its own. */
  datatype Tree =
    | Leaf(lock: Lock, vtable: nat)
    | Branch(kids: seq<Tree>)
    | Poisonable(flag: nat, inner: Tree)
    | Boxed(child: Tree)
    | Ref(child: Tree)
    | Retrying(child: Tree)
    | Owned(at: nat, vtable: nat, child: Tree)

  /** The subtree at a path of child positions; collections and poison wrappers take no step. */
  function Follow(t: Tree, path: seq<nat>): Option<Tree>
    decreases t
  {
    match t
    case Leaf(_, _) => if path == [] then Some(t) else None
    case Branch(kids) =>
      if path == [] then Some(t)
      else if path[0] < |kids| then Follow(kids[path[0]], path[1..])
      else None
    case Poisonable(_, inner) => Follow(inner, path)
    case Boxed(child) => Follow(child, path)
    case Ref(child) => Follow(child, path)
    case Retrying(child) => Follow(child, path)
    case Owned(_, _, child) => Follow(child, path)
  }

  /** The leaf or owned collection at a path, if it is outermost: nothing inside an owned collection can
      be reached except through it. */
  function Outer(t: Tree, path: seq<nat>): Option<Tree>
    decreases t
  {
    match t
    case Leaf(_, _) => if path == [] then Some(t) else None
    case Owned(_, _, _) => if path == [] then Some(t) else None
    case Branch(kids) =>
      if path != [] && path[0] < |kids| then Outer(kids[path[0]], path[1..]) else None
    case Poisonable(_, inner) => Outer(inner, path)
    case Boxed(child) => Outer(child, path)
    case Ref(child) => Outer(child, path)
    case Retrying(child) => Outer(child, path)
  }

  /** s is t or somewhere inside it. */
  ghost predicate Within(s: Tree, t: Tree)
    decreases t
  {
    s == t ||
    match t
    case Leaf(_, _) => false
    case Branch(kids) => exists k :: 0 <= k < |kids| && Within(s, kids[k])
    case Poisonable(_, inner) => Within(s, inner)
    case Boxed(child) => Within(s, child)
    case Ref(child) => Within(s, child)
    case Retrying(child) => Within(s, child)
    case Owned(_, _, child) => Within(s, child)
  }

  /** Where a leaf lock or an owned collection is in memory. */
  function Address(t: Tree): Option<nat> {
    match t
    case Leaf(lock, _) => Some(lock)
    case Owned(at, _, _) => Some(at)
    case _ => None
  }

  /** Two places of the tree hold one and the same lock. */
  ghost predicate SharesLock(t: Tree) {
    exists p, q :: p != q && SameLock(t, p, q)
  }

  ghost predicate SameLock(t: Tree, p: seq<nat>, q: seq<nat>) {
    Outer(t, p).Some? && Outer(t, q).Some? && Address(Outer(t, p).value) == Address(Outer(t, q).value)
  }

  /** The paths are those of the outermost leaves and owned collections, each once. */
  ghost predicate ListsOuter(t: Tree, paths: seq<seq<nat>>) {
    NoDup(paths) && forall p :: p in paths <==> Outer(t, p).Some?
  }

  /** The paths are those of the leaf locks, each once. */
  ghost predicate ListsLeaves(t: Tree, paths: seq<seq<nat>>) {
    NoDup(paths) && forall p :: p in paths <==> LeafAt(t, p)
  }

  predicate LeafAt(t: Tree, path: seq<nat>) {
    Follow(t, path).Some? && Follow(t, path).value.Leaf?
  }

  ghost predicate HasLeaf(t: Tree, l: Lock) {
    exists path :: LeafAt(t, path) && Follow(t, path).value.lock == l
  }

  /** One place comes before another, from left to right. */
  predicate LeftOf(p: seq<nat>, q: seq<nat>) {
    p != [] && q != [] && (p[0] < q[0] || (p[0] == q[0] && LeftOf(p[1..], q[1..])))
  }

  ghost predicate LeftToRight(paths: seq<seq<nat>>) {
    forall i, j | 0 <= i < j < |paths| :: LeftOf(paths[i], paths[j])
  }

  /** No collection above the outermost locks sorts them. */
  predicate Unsorted(t: Tree)
    decreases t
  {
    match t
    case Leaf(_, _) => true
    case Owned(_, _, _) => true
    case Branch(kids) => forall k | 0 <= k < |kids| :: Unsorted(kids[k])
    case Poisonable(_, inner) => Unsorted(inner)
    case Retrying(child) => Unsorted(child)
    case _ => false
  }

  // ---------- Lists of places ----------

  function Under(n: nat, paths: seq<seq<nat>>): (r: seq<seq<nat>>)
    ensures |r| == |paths| && forall k | 0 <= k < |paths| :: r[k] == [n] + paths[k]
  {
    seq(|paths|, k requires 0 <= k < |paths| => [n] + paths[k])
  }

  /** The places below a node: those below its earlier children, and then those of child n. */
  lemma NextChild(n: nat, before: seq<seq<nat>>, last: seq<seq<nat>>)
    requires NoDup(before) && NoDup(last) && forall p | p in before :: p != [] && p[0] < n
    ensures NoDup(before + Under(n, last))
    ensures forall p :: p in before + Under(n, last)
                        <==> p != [] && (if p[0] == n then p[1..] in last else p[0] < n && p in before)
    ensures LeftToRight(before) && LeftToRight(last) ==> LeftToRight(before + Under(n, last))
  {
    var b := Under(n, last);
    forall i, j | 0 <= i < j < |before + b| ensures (before + b)[i] != (before + b)[j] {
      if j < |before| {
      } else if i < |before| {
        assert before[i] in before;
      } else {
        assert b[i - |before|][1..] == last[i - |before|] && b[j - |before|][1..] == last[j - |before|];
      }
    }
    forall p ensures p in b <==> p != [] && p[0] == n && p[1..] in last {
      if p in b {
        var k :| 0 <= k < |b| && b[k] == p;
        assert p[1..] == last[k];
      }
      if p != [] && p[0] == n && p[1..] in last {
        var k :| 0 <= k < |last| && last[k] == p[1..];
        assert b[k] == p;
      }
    }
    if LeftToRight(before) && LeftToRight(last) {
      forall i, j | 0 <= i < j < |before + b| ensures LeftOf((before + b)[i], (before + b)[j]) {
        if i < |before| <= j {
          assert before[i] in before;
        } else if |before| <= i {
          assert b[i - |before|][1..] == last[i - |before|] && b[j - |before|][1..] == last[j - |before|];
          assert LeftOf(last[i - |before|], last[j - |before|]);
        }
      }
    }
  }
}
