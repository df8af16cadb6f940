/** Lock calls on lockable trees, as requests of the concurrent machine. */
module Calls {
  import opened Locks
  import opened Protocol
  import opened Machine
  import opened Pointers
  import opened Groups
  import opened Trees
  import opened Lockable
  import opened Guarding
  import opened World

  /** A call of `lock`, `read`, `try_lock`, `try_read` or one of their scoped forms. */
  datatype Call = Call(target: Tree, mode: Mode, trying: bool, scoped: bool, body: seq<Op>)

  predicate IsRawLock(t: Tree) {
    match t
    case Branch(_) => false
    case Poisonable(_, inner) => IsRawLock(inner)
    case _ => true
  }

  /** How a raw lock is acquired: a retrying collection element by element, anything else as one
      ordered list. */
  function GroupsOf(t: Tree): seq<seq<Lock>> {
    match t
    case Retrying(child) => LeavesEach(Ptrs(child))
    case Poisonable(_, inner) => GroupsOf(inner)
    case _ => [LeavesOf(Ptrs(t))]
  }

  /** A scoped call unlocks through the collection, any other call by dropping the guard. */
  function RequestOf(c: Call): Req {
    Req(Plan(GroupsOf(c.target), c.trying), c.mode,
        if c.scoped then LeavesOf(Ptrs(c.target)) else DropOrder(GuardOf(c.target)),
        c.body)
  }

  /** The call names raw locks of the world, on a tree that the constructors accept, and its closure
      uses only the data of those locks, and only reads under a shared lock. */
  ghost predicate CallOk(world: seq<Ptr>, c: Call) {
    && IsRawLock(c.target)
    && AllPlaced(world, Ptrs(c.target)) && !SharesLock(c.target)
    && forall k | 0 <= k < |c.body| ::
         HasLeaf(c.target, c.body[k].l) && (c.body[k].Put? ==> c.mode == Write)
  }

  /** The plan of an accepted tree takes exactly the tree's leaves, none twice, each blocking group in
      rank order. */
  lemma {:induction false} PlanIsOk(world: seq<Ptr>, t: Tree, trying: bool)
    requires WorldOk(world) && IsRawLock(t) && AllPlaced(world, Ptrs(t)) && !SharesLock(t)
    ensures var plan := Plan(GroupsOf(t), trying);
            && Distinct(plan) && All(plan) == Elems(LeavesOf(Ptrs(t)))
            && forall i | 0 <= i < |plan.groups| :: Climbs(RankIn(world), plan.groups[i])
    decreases t
  {
    OrdersByAddress();
    DupIsSharing(t);
    match t
    case Retrying(child) =>
      var ps := Ptrs(child);
      AcceptedMeansNoLeafTwice(world, ps);
      DistinctEach(ps, trying);
      BelowEach(ps, |ps|);
      assert ps[..|ps|] == ps;
      forall i | 0 <= i < |ps| ensures Climbs(RankIn(world), LeavesEach(ps)[i]) { OneClimbs(world, ps[i]); }
    case Poisonable(_, inner) => DupIsSharing(inner); PlanIsOk(world, inner, trying);
    case Leaf(lock, vtable) => OneGroup(world, t, trying);
    case Owned(at, vtable, child) =>
      OneGroup(world, t, trying);
    case Boxed(child) => SortedGroup(world, ThinLe, Ptrs(child)); OneGroup(world, t, trying);
    case Ref(child) => SortedGroup(world, FatLe, Ptrs(child)); OneGroup(world, t, trying);
  }

  lemma OneGroup(world: seq<Ptr>, t: Tree, trying: bool)
    requires WorldOk(world) && AllPlaced(world, Ptrs(t)) && !HasDup(Ptrs(t))
    requires forall i, j | 0 <= i < j < |Ptrs(t)| :: Addr(Ptrs(t)[i]) < Addr(Ptrs(t)[j])
    requires GroupsOf(t) == [LeavesOf(Ptrs(t))]
    ensures var plan := Plan(GroupsOf(t), trying);
            && Distinct(plan) && All(plan) == Elems(LeavesOf(Ptrs(t)))
            && forall i | 0 <= i < |plan.groups| :: Climbs(RankIn(world), plan.groups[i])
  {
    var leaves := LeavesOf(Ptrs(t));
    AddressOrderClimbs(world, Ptrs(t));
    ClimbsMeansNoDup(RankIn(world), leaves);
    assert Below([leaves], 1) == Below([leaves], 0) + Elems(leaves);
  }

  lemma SortedGroup(world: seq<Ptr>, le: (Ptr, Ptr) -> bool, ps: seq<Ptr>)
    requires ByAddress(le) && !HasDup(Sort(le, ps))
    ensures forall i, j | 0 <= i < j < |Sort(le, ps)| :: Addr(Sort(le, ps)[i]) < Addr(Sort(le, ps)[j])
  {
    SortSorts(le, ps);
    DupOfPermutation(Sort(le, ps), ps);
    SortedStrictly(le, ps);
  }

  /** In either release order, a call releases exactly the leaves that it takes, none twice. */
  lemma ReleasesLeaves(world: seq<Ptr>, c: Call)
    requires WorldOk(world) && CallOk(world, c)
    ensures NoDup(RequestOf(c).release) && Elems(RequestOf(c).release) == Elems(LeavesOf(Ptrs(c.target)))
  {
    var leaves, release := LeavesOf(Ptrs(c.target)), RequestOf(c).release;
    DupIsSharing(c.target);
    AcceptedMeansNoLeafTwice(world, Ptrs(c.target));
    GuardReleasesWhatWasTaken(c.target);
    hide LeavesOf, Ptrs, DropOrder, GuardOf;
    assert multiset(release) == multiset(leaves);
    NoDupCounts(leaves);
    NoDupCounts(release);
    SameElems(release, leaves);
  }

  lemma SameElems(a: seq<Lock>, b: seq<Lock>)
    requires multiset(a) == multiset(b)
    ensures Elems(a) == Elems(b)
  {
    forall l: Lock ensures l in a <==> l in b {
      assert l in a <==> l in multiset(a);
      assert l in b <==> l in multiset(b);
    }
  }

  /** Every lock call on an accepted tree is a well-formed request: what is released is what was
      taken, in either release order. */
  lemma CallIsOk(world: seq<Ptr>, c: Call)
    requires WorldOk(world) && CallOk(world, c)
    ensures ReqOk(RankIn(world), RequestOf(c))
  {
    PlanIsOk(world, c.target, c.trying);
    ReleasesLeaves(world, c);
    LeavesAreListed(c.target);
    hide LeavesOf, Ptrs, DropOrder, GuardOf, GroupsOf, RankIn, Distinct, All;
    var req := RequestOf(c);
    forall i, p, q | 0 <= i < |req.plan.groups| && 0 <= p < q < |req.plan.groups[i]|
      ensures RankIn(world)(req.plan.groups[i][p]) < RankIn(world)(req.plan.groups[i][q])
    {
      assert Climbs(RankIn(world), req.plan.groups[i]);
    }
    forall k | 0 <= k < |req.body|
      ensures req.body[k].l in All(req.plan) && (req.body[k].Put? ==> req.mode == Write)
    {
      assert req.body[k].l in Elems(LeavesOf(Ptrs(c.target)));
    }
  }
}
