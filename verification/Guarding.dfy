/** Guards: what they mirror, what dropping them releases and in which order, and which poison flags a
    panicking drop sets. */
module Guarding {
  import opened Locks
  import opened Protocol
  import opened Pointers
  import opened Groups
  import opened Trees
  import opened Lockable

  datatype Guard =
    | LockRef(lock: Lock)
    | Guards(kids: seq<Guard>)
    | PoisonRef(flag: nat, inner: Guard)

  function GuardOf(t: Tree): Guard
    decreases t
  {
    match t
    case Leaf(lock, _) => LockRef(lock)
    case Branch(kids) => Guards(GuardsOf(kids))
    case Poisonable(flag, inner) => PoisonRef(flag, GuardOf(inner))
    case Boxed(child) => GuardOf(child)
    case Ref(child) => GuardOf(child)
    case Retrying(child) => GuardOf(child)
    case Owned(_, _, child) => GuardOf(child)
  }

  function GuardsOf(kids: seq<Tree>): seq<Guard>
    decreases kids
  {
    if kids == [] then [] else GuardsOf(kids[..|kids| - 1]) + [GuardOf(kids[|kids| - 1])]
  }

  /** An array's guards are filled in by index. */
  method ArrayGuard(kids: seq<Tree>) returns (guards: array<Guard>)
    ensures guards[..] == GuardsOf(kids)
  {
    guards := new Guard[|kids|];
    for i := 0 to |kids|
      invariant guards[..i] == GuardsOf(kids[..i])
    {
      guards[i] := GuardOf(kids[i]);
      assert kids[..i + 1][..i] == kids[..i];
      assert guards[..i + 1] == guards[..i] + [guards[i]];
    }
    assert kids[..|kids|] == kids && guards[..|kids|] == guards[..];
  }

  /** The order in which dropping a guard releases the leaves: fields in order. */
  function DropOrder(g: Guard): seq<Lock>
    decreases g
  {
    match g
    case LockRef(lock) => [lock]
    case Guards(kids) => DropOrderOf(kids)
    case PoisonRef(_, inner) => DropOrder(inner)
  }

  function DropOrderOf(kids: seq<Guard>): seq<Lock>
    decreases kids
  {
    if kids == [] then [] else DropOrderOf(kids[..|kids| - 1]) + DropOrder(kids[|kids| - 1])
  }

  /** Whatever order the locks were taken in, dropping the guard releases exactly the leaves that the
      tree's list takes, each as often. */
  lemma {:induction false} GuardReleasesWhatWasTaken(t: Tree)
    ensures multiset(DropOrder(GuardOf(t))) == multiset(LeavesOf(Ptrs(t)))
    decreases t
  {
    OrdersByAddress();
    match t
    case Leaf(lock, vtable) => LeavesOfOne(LeafPtr(lock, vtable));
    case Branch(kids) => GuardsReleaseWhatWasTaken(kids);
    case Poisonable(_, inner) => GuardReleasesWhatWasTaken(inner);
    case Boxed(child) =>
      GuardReleasesWhatWasTaken(child);
      SortSorts(ThinLe, Ptrs(child));
      LeavesOfPermutation(Sort(ThinLe, Ptrs(child)), Ptrs(child));
    case Ref(child) =>
      GuardReleasesWhatWasTaken(child);
      SortSorts(FatLe, Ptrs(child));
      LeavesOfPermutation(Sort(FatLe, Ptrs(child)), Ptrs(child));
    case Retrying(child) => GuardReleasesWhatWasTaken(child);
    case Owned(at, vtable, child) =>
      GuardReleasesWhatWasTaken(child);
      LeavesOfOne(OwnedPtr(at, vtable, Ptrs(child)));
  }

  lemma {:induction false} GuardsReleaseWhatWasTaken(kids: seq<Tree>)
    ensures multiset(DropOrderOf(GuardsOf(kids))) == multiset(LeavesOf(PtrsOf(kids)))
    decreases kids
  {
    if kids != [] {
      var front, last := kids[..|kids| - 1], kids[|kids| - 1];
      GuardsReleaseWhatWasTaken(front);
      GuardReleasesWhatWasTaken(last);
      assert GuardsOf(kids)[..|GuardsOf(kids)| - 1] == GuardsOf(front);
      LeavesOfConcat(PtrsOf(front), Ptrs(last));
    }
  }

  function FollowGuard(g: Guard, path: seq<nat>): Option<Guard>
    decreases g
  {
    match g
    case LockRef(_) => if path == [] then Some(g) else None
    case Guards(kids) =>
      if path == [] then Some(g)
      else if path[0] < |kids| then FollowGuard(kids[path[0]], path[1..])
      else None
    case PoisonRef(_, inner) => FollowGuard(inner, path)
  }

  lemma {:induction false} GuardsOfAt(kids: seq<Tree>)
    ensures |GuardsOf(kids)| == |kids|
    ensures forall k | 0 <= k < |kids| :: GuardsOf(kids)[k] == GuardOf(kids[k])
    decreases |kids|
  {
    if kids != [] { GuardsOfAt(kids[..|kids| - 1]); }
  }

  /** The guard at a path is the guard of the subtree at that path, however the locks were sorted. */
  lemma {:induction false} GuardMirrorsTree(t: Tree, path: seq<nat>)
    ensures Follow(t, path).None? <==> FollowGuard(GuardOf(t), path).None?
    ensures Follow(t, path).Some? ==> FollowGuard(GuardOf(t), path).value == GuardOf(Follow(t, path).value)
    decreases t
  {
    match t
    case Leaf(_, _) =>
    case Branch(kids) =>
      GuardsOfAt(kids);
      if path != [] && path[0] < |kids| { GuardMirrorsTree(kids[path[0]], path[1..]); }
    case Poisonable(_, inner) => GuardMirrorsTree(inner, path);
    case Boxed(child) => GuardMirrorsTree(child, path);
    case Ref(child) => GuardMirrorsTree(child, path);
    case Retrying(child) => GuardMirrorsTree(child, path);
    case Owned(_, _, child) => GuardMirrorsTree(child, path);
  }

  /** Dropping the guard of a tree unlocks its leaves from left to right, each place once, however they
      were sorted for locking. */
  lemma {:induction false} DropsFromLeftToRight(t: Tree) returns (paths: seq<seq<nat>>)
    ensures ListsLeaves(t, paths) && LeftToRight(paths) && DropsAt(t, DropOrder(GuardOf(t)), paths)
    decreases t
  {
    match t
    case Leaf(_, _) => paths := [[]];
    case Branch(kids) => paths := KidsDropFromLeftToRight(kids);
    case Poisonable(_, inner) => paths := DropsFromLeftToRight(inner);
    case Boxed(child) => paths := DropsFromLeftToRight(child);
    case Ref(child) => paths := DropsFromLeftToRight(child);
    case Retrying(child) => paths := DropsFromLeftToRight(child);
    case Owned(_, _, child) => paths := DropsFromLeftToRight(child);
  }

  /** Lock k is the leaf at path k. */
  ghost predicate DropsAt(t: Tree, s: seq<Lock>, paths: seq<seq<nat>>) {
    |s| == |paths| && forall k | 0 <= k < |s| :: LeafAt(t, paths[k]) && Follow(t, paths[k]).value.lock == s[k]
  }

  lemma {:induction false} KidsDropFromLeftToRight(kids: seq<Tree>) returns (paths: seq<seq<nat>>)
    ensures ListsLeaves(Branch(kids), paths) && LeftToRight(paths)
    ensures DropsAt(Branch(kids), DropOrderOf(GuardsOf(kids)), paths)
    decreases kids
  {
    paths := [];
    if kids != [] {
      var n := |kids| - 1;
      var before := KidsDropFromLeftToRight(kids[..n]);
      var last := DropsFromLeftToRight(kids[n]);
      forall p ensures LeafAt(Branch(kids), p)
                       <==> p != [] && (if p[0] == n then LeafAt(kids[n], p[1..])
                                        else p[0] < n && LeafAt(Branch(kids[..n]), p)) {}
      NextChild(n, before, last);
      paths := before + Under(n, last);
      assert GuardsOf(kids)[..|GuardsOf(kids)| - 1] == GuardsOf(kids[..n]);
    }
  }

  /** The list takes the leaves of the tree, and no others. */
  lemma LeavesAreListed(t: Tree)
    ensures forall l: Lock :: l in LeavesOf(Ptrs(t)) <==> HasLeaf(t, l)
  {
    GuardReleasesWhatWasTaken(t);
    var paths := DropsFromLeftToRight(t);
    var order, leaves := DropOrder(GuardOf(t)), LeavesOf(Ptrs(t));
    hide LeavesOf, Ptrs, DropOrder, GuardOf, Follow;
    forall l: Lock ensures l in leaves <==> HasLeaf(t, l) {
      assert l in leaves <==> l in multiset(order);
      if l in order {
        var k :| 0 <= k < |order| && order[k] == l;
        assert LeafAt(t, paths[k]) && Follow(t, paths[k]).value.lock == l;
      }
      if path :| LeafAt(t, path) && Follow(t, path).value.lock == l {
        assert path in paths;
      }
    }
  }

  // ---------- What a dropped guard does to the poison flags ----------

  /** A drop stores to a flag or unlocks a leaf. */
  datatype Note = Sets(flag: nat) | Frees(lock: Lock)

  /** What dropping a guard does, in order: the drop code of a `PoisonRef` runs before its fields are
      dropped, and stores only if the thread is panicking. */
  function Notes(g: Guard, panicking: bool): seq<Note>
    decreases g
  {
    match g
    case LockRef(lock) => [Frees(lock)]
    case Guards(kids) => NotesOf(kids, panicking)
    case PoisonRef(flag, inner) => (if panicking then [Sets(flag)] else []) + Notes(inner, panicking)
  }

  function NotesOf(kids: seq<Guard>, panicking: bool): seq<Note>
    decreases kids
  {
    if kids == [] then [] else NotesOf(kids[..|kids| - 1], panicking) + Notes(kids[|kids| - 1], panicking)
  }

  function Freed(notes: seq<Note>): seq<Lock> {
    if notes == [] then []
    else Freed(notes[..|notes| - 1]) + if notes[|notes| - 1].Frees? then [notes[|notes| - 1].lock] else []
  }

  lemma {:induction false} FreedConcat(a: seq<Note>, b: seq<Note>)
    ensures Freed(a + b) == Freed(a) + Freed(b)
    decreases |b|
  {
    if b == [] {
      assert a + b == a;
    } else {
      FreedConcat(a, b[..|b| - 1]);
      assert (a + b)[..|a + b| - 1] == a + b[..|b| - 1];
    }
  }

  /** Panicking or not, the leaves are unlocked in the same order, and only a panicking drop stores. */
  lemma {:induction false} NotesFree(g: Guard, panicking: bool)
    ensures Freed(Notes(g, panicking)) == DropOrder(g)
    ensures !panicking ==> forall n | n in Notes(g, panicking) :: n.Frees?
    decreases g
  {
    match g
    case LockRef(lock) => assert [Frees(lock)][..0] == [];
    case Guards(kids) => NotesOfFree(kids, panicking);
    case PoisonRef(flag, inner) =>
      NotesFree(inner, panicking);
      FreedConcat([Sets(flag)], Notes(inner, panicking));
      assert [Sets(flag)][..0] == [];
      assert [] + Notes(inner, panicking) == Notes(inner, panicking);
  }

  lemma {:induction false} NotesOfFree(kids: seq<Guard>, panicking: bool)
    ensures Freed(NotesOf(kids, panicking)) == DropOrderOf(kids)
    ensures !panicking ==> forall n | n in NotesOf(kids, panicking) :: n.Frees?
    decreases kids
  {
    if kids != [] {
      var n := |kids| - 1;
      NotesOfFree(kids[..n], panicking);
      NotesFree(kids[n], panicking);
      FreedConcat(NotesOf(kids[..n], panicking), Notes(kids[n], panicking));
    }
  }

  ghost predicate Encloses(all: seq<Note>, a: seq<Note>, part: seq<Note>, b: seq<Note>) {
    all == a + part + b
  }

  lemma EnclosesMore(all: seq<Note>, x: seq<Note>, inner: seq<Note>, y: seq<Note>,
                     a: seq<Note>, part: seq<Note>, b: seq<Note>)
    requires Encloses(all, x, inner, y) && Encloses(inner, a, part, b)
    ensures Encloses(all, x + a, part, b + y)
  {
  }

  /** When a panicking thread drops the guard of a tree, every `Poisonable` in the tree is published, just
      before the unlocks of its own locks. */
  lemma {:induction false} EachPoisonablePublishes(t: Tree, s: Tree) returns (a: seq<Note>, b: seq<Note>)
    requires Within(s, t) && s.Poisonable?
    ensures Encloses(Notes(GuardOf(t), true), a, [Sets(s.flag)] + Notes(GuardOf(s.inner), true), b)
    decreases t
  {
    if s == t {
      a, b := [], [];
    } else {
      var part := [Sets(s.flag)] + Notes(GuardOf(s.inner), true);
      match t
      case Branch(kids) =>
        var k :| 0 <= k < |kids| && Within(s, kids[k]);
        a, b := EachPoisonablePublishes(kids[k], s);
        var x, y := NotesAround(kids, k);
        EnclosesMore(Notes(GuardOf(t), true), x, Notes(GuardOf(kids[k]), true), y, a, part, b);
        a, b := x + a, b + y;
      case Poisonable(flag, inner) =>
        a, b := EachPoisonablePublishes(inner, s);
        EnclosesMore(Notes(GuardOf(t), true), [Sets(flag)], Notes(GuardOf(inner), true), [], a, part, b);
        a, b := [Sets(flag)] + a, b + [];
      case Boxed(child) => a, b := EachPoisonablePublishes(child, s);
      case Ref(child) => a, b := EachPoisonablePublishes(child, s);
      case Retrying(child) => a, b := EachPoisonablePublishes(child, s);
      case Owned(_, _, child) => a, b := EachPoisonablePublishes(child, s);
    }
  }

  lemma {:induction false} NotesAround(kids: seq<Tree>, k: nat) returns (x: seq<Note>, y: seq<Note>)
    requires k < |kids|
    ensures Encloses(NotesOf(GuardsOf(kids), true), x, Notes(GuardOf(kids[k]), true), y)
  {
    var n := |kids| - 1;
    NotesOfLast(kids, n);
    hide Notes, NotesOf, GuardOf, GuardsOf;
    if k == n {
      x, y := NotesOf(GuardsOf(kids[..n]), true), [];
    } else {
      x, y := NotesAround(kids[..n], k);
      y := y + Notes(GuardOf(kids[n]), true);
    }
  }

  lemma NotesOfLast(kids: seq<Tree>, n: nat)
    requires |kids| == n + 1
    ensures NotesOf(GuardsOf(kids), true) == NotesOf(GuardsOf(kids[..n]), true) + Notes(GuardOf(kids[n]), true)
  {
    assert GuardsOf(kids)[..|GuardsOf(kids)| - 1] == GuardsOf(kids[..n]);
  }

  /** And nothing else is published. */
  lemma {:induction false} OnlyPoisonablesPublish(t: Tree, flag: nat) returns (s: Tree)
    requires Sets(flag) in Notes(GuardOf(t), true)
    ensures Within(s, t) && s.Poisonable? && s.flag == flag
    decreases t
  {
    match t
    case Branch(kids) =>
      var k;
      k, s := SomeKidPublishes(kids, flag);
    case Poisonable(f, inner) => if f == flag { s := t; } else { s := OnlyPoisonablesPublish(inner, flag); }
    case Boxed(child) => s := OnlyPoisonablesPublish(child, flag);
    case Ref(child) => s := OnlyPoisonablesPublish(child, flag);
    case Retrying(child) => s := OnlyPoisonablesPublish(child, flag);
    case Owned(_, _, child) => s := OnlyPoisonablesPublish(child, flag);
  }

  lemma {:induction false} SomeKidPublishes(kids: seq<Tree>, flag: nat) returns (k: nat, s: Tree)
    requires Sets(flag) in NotesOf(GuardsOf(kids), true)
    ensures k < |kids| && Within(s, kids[k]) && s.Poisonable? && s.flag == flag
    decreases kids
  {
    var n := |kids| - 1;
    NotesOfLast(kids, n);
    if Sets(flag) in Notes(GuardOf(kids[n]), true) {
      k := n;
      s := OnlyPoisonablesPublish(kids[n], flag);
    } else {
      k, s := SomeKidPublishes(kids[..n], flag);
    }
  }
}
