/** The calls a user makes: scoped locking on a collection and on a `Poisonable`, and try-locks on
    differently ordered collections of the same locks. */
module Scoped {
  import opened Locks
  import opened Protocol
  import opened Pointers
  import opened Groups
  import opened Traces
  import opened Acquisition
  import opened Trees
  import opened Lockable
  import opened Guarding
  import Calls
  import World
  import Keys
  import Poison

  datatype Algorithm = InOrder | Retrying

  /** A scoped call takes the key itself or borrows it. */
  datatype KeyArg = OwnedKey | BorrowedKey

  datatype Exit =
    | Returned          // the closure ran to its end
    | ClosurePanicked
    | LockPanicked      // locking itself unwound
    | GaveUp            // a try-lock failed; the key is in the result

  function PlanFor(how: Algorithm, locks: seq<Ptr>): Plan {
    Plan(if how.InOrder? then [LeavesOf(locks)] else LeavesEach(locks), false)
  }

  /** What a panic while locking leaves behind: nothing, for the ordered algorithm, which has taken the
      first p leaves in order and given each back once. */
  ghost predicate AfterPanic(how: Algorithm, locks: seq<Ptr>, before: View, after: View, site: Site, p: nat,
                             calls: seq<Event>)
  {
    if how.InOrder? then
      exists order: seq<Lock> :: Stopped(BlockPanic, before, after, LeavesOf(locks), p, order)
    else LeftBehind(locks, before, after, site, p, calls)
  }

  /** The leaf that panicked. */
  function StopLeaf(how: Algorithm, locks: seq<Ptr>, site: Site, p: nat): Option<Lock> {
    var s := if how.InOrder? then LeavesOf(locks)
             else if Element(site) < |locks| then Leaves(locks[Element(site)]) else [];
    if p < |s| then Some(s[p]) else None
  }

  /** This thread killed nothing but the leaf that panicked, which is dead. */
  twostate predicate KilledStop(m: Memory, how: Algorithm, locks: seq<Ptr>, site: Site, p: nat)
    reads m
  {
    var l := StopLeaf(how, locks, site, p);
    l.Some? && m.KilledOnly(l.value)
  }

  method RawLockBy(m: Memory, how: Algorithm, locks: seq<Ptr>)
    returns (o: Outcome, site: Site, ghost p: nat, ghost calls: seq<Event>)
    requires m.Valid() && m.Ready(LeavesOf(locks))
    modifies m
    ensures m.Valid()
    ensures o.Normal? ==> m.mine == old(m.mine) + multiset(LeavesOf(locks)) && m.strays == old(m.strays)
    ensures o.Normal? ==> Reached(PlanFor(how, locks), old(m.Now()), m.Now(), calls, Got) && m.own == old(m.own)
    ensures o.Panicked? ==> AfterPanic(how, locks, old(m.Now()), m.Now(), site, p, calls)
                            && KilledStop(m, how, locks, site, p)
  {
    site := AtBlock(0);
    if how.InOrder? {
      ghost var order;
      o, p, order := m.OrderedLock(locks);
      OrderedLockRuns(LeavesOf(locks));
      calls := Acqs(LeavesOf(locks));
    } else {
      ghost var rollbacks;
      o, site, p, calls, rollbacks := m.RetryLock(locks);
    }
  }

  /** What happens to the key when the call is through with it, or unwinds. */
  method LetKeyGo(m: Memory, cell: Keys.KeyCell, key: KeyArg, ghost k: nat) returns (ghost gone: nat)
    requires k in cell.keys && Keys.Linear(cell.View())
    modifies cell
    ensures cell.isLocked <==> key.BorrowedKey?
    ensures key.BorrowedKey? ==> cell.View() == old(cell.View())
    ensures key.OwnedKey? ==> cell.View() == Keys.Dropped(old(cell.View()), k)
    ensures gone == |m.trace|
  {
    gone := |m.trace|;
    if key.OwnedKey? {
      cell.Drop(k);
    }
  }

  /** Every lock of the list was taken by an accepted acquisition, and then unlocked, once each. */
  ghost predicate CameAndWent(how: Algorithm, locks: seq<Ptr>, before: View, after: View, calls: seq<Event>) {
    && after.mine == before.mine && after.strays == before.strays
    && after.trace == before.trace + calls + Rels(LeavesOf(locks))
    && var plan := PlanFor(how, locks); Run(plan, Start(plan), calls) == Some(Got)
  }

  method ReleaseAll(m: Memory, how: Algorithm, locks: seq<Ptr>, ghost before: View, ghost calls: seq<Event>)
    requires m.Valid() && m.Sound(LeavesOf(locks))
    requires m.mine == before.mine + multiset(LeavesOf(locks)) && m.strays == before.strays
    requires Reached(PlanFor(how, locks), before, m.Now(), calls, Got)
    modifies m
    ensures m.Valid() && CameAndWent(how, locks, before, m.Now(), calls) && m.own == old(m.own)
  {
    var r := m.UnlockAll(locks);
    GaveWhatWasTaken(before.mine, LeavesOf(locks));
  }

  /** `scoped_write` / `scoped_read`. However the call ends, the key is given back, and unless the
      retrying algorithm itself panicked, every lock that was taken has been unlocked exactly once. */
  method ScopedLock(m: Memory, cell: Keys.KeyCell, key: KeyArg, ghost k: nat, how: Algorithm, locks: seq<Ptr>,
                    faulty: bool)
    returns (exit: Exit, site: Site, ghost p: nat, ghost calls: seq<Event>, ghost gone: nat)
    requires m.Valid() && m.Ready(LeavesOf(locks)) && k in cell.keys && Keys.Linear(cell.View())
    modifies m, cell
    ensures m.Valid() && !exit.GaveUp?
    ensures cell.isLocked <==> key.BorrowedKey?
    ensures exit.Returned? ==> !faulty
    ensures exit.ClosurePanicked? ==> faulty
    ensures gone == if exit.Returned? then |old(m.trace) + calls| else |m.trace|
    ensures !exit.LockPanicked? ==> CameAndWent(how, locks, old(m.Now()), m.Now(), calls)
    ensures !exit.LockPanicked? ==> m.own == old(m.own)
    ensures exit.LockPanicked? ==> AfterPanic(how, locks, old(m.Now()), m.Now(), site, p, calls)
                                   && KilledStop(m, how, locks, site, p)
  {
    var o: Outcome;
    o, site, p, calls := RawLockBy(m, how, locks);
    if o.Panicked? {
      gone := LetKeyGo(m, cell, key, k);
      return LockPanicked, site, p, calls, gone;
    }
    m.Interfere();
    if faulty {
      ReleaseAll(m, how, locks, old(m.Now()), calls);
      gone := LetKeyGo(m, cell, key, k);
      return ClosurePanicked, site, p, calls, gone;
    }
    gone := LetKeyGo(m, cell, key, k);
    ReleaseAll(m, how, locks, old(m.Now()), calls);
    return Returned, site, p, calls, gone;
  }

  method ReleaseTried(m: Memory, locks: seq<Ptr>, ghost before: View)
    requires m.Valid() && m.Sound(LeavesOf(locks)) && Tested(before, m.Now(), LeavesOf(locks))
    modifies m
    ensures m.Valid() && m.mine == before.mine && m.strays == before.strays && m.own == old(m.own)
    ensures m.trace == before.trace + Trues(LeavesOf(locks)) + Rels(LeavesOf(locks))
  {
    var r := m.UnlockAll(locks);
    GaveWhatWasTaken(before.mine, LeavesOf(locks));
  }

  /** `scoped_try_write` / `scoped_try_read`. A refused call holds nothing and hands the key back. */
  method ScopedTryLock(m: Memory, cell: Keys.KeyCell, key: KeyArg, ghost k: nat, locks: seq<Ptr>, faulty: bool)
    returns (exit: Exit, ghost p: nat, ghost gone: nat)
    requires m.Valid() && m.Ready(LeavesOf(locks)) && k in cell.keys && Keys.Linear(cell.View())
    modifies m, cell
    ensures m.Valid() && m.mine == old(m.mine) && m.strays == old(m.strays)
    ensures exit.GaveUp? ==> cell.View() == old(cell.View())
    ensures !exit.GaveUp? ==> (cell.isLocked <==> key.BorrowedKey?)
    ensures exit.Returned? ==> !faulty
    ensures exit.ClosurePanicked? ==> faulty
    ensures !exit.GaveUp? ==> gone == if exit.Returned? then |old(m.trace) + Trues(LeavesOf(locks))| else |m.trace|
    ensures exit.Returned? || exit.ClosurePanicked? ==>
              m.trace == old(m.trace) + Trues(LeavesOf(locks)) + Rels(LeavesOf(locks))
    ensures !exit.LockPanicked? ==> m.own == old(m.own)
    ensures exit.LockPanicked? ==> p < |LeavesOf(locks)| && m.KilledOnly(LeavesOf(locks)[p])
    ensures m.quiet ==> (exit.GaveUp? <==> !old(m.AllOpen(LeavesOf(locks)))) && !exit.LockPanicked?
  {
    ghost var order;
    var o: Attempt;
    o, p, order := m.OrderedTry(locks);
    if o.Unwound? {
      gone := LetKeyGo(m, cell, key, k);
      return LockPanicked, p, gone;
    }
    if o.WouldBlock? {
      return GaveUp, p, 0;
    }
    m.Interfere();
    if faulty {
      ReleaseTried(m, locks, old(m.Now()));
      gone := LetKeyGo(m, cell, key, k);
      return ClosurePanicked, p, gone;
    }
    gone := LetKeyGo(m, cell, key, k);
    ReleaseTried(m, locks, old(m.Now()));
    return Returned, p, gone;
  }

  // ---------- Poisonable ----------

  /** `scoped_lock` / `scoped_read` of a `Poisonable`, while other threads set and clear the flag at any
      time. The closure is told what the flag was at some moment at which the locks were held; a panic of
      the closure, and nothing else, makes this call store to the flag, once, before the first unlock;
      the key goes last. */
  method PoisonableScopedLock(m: Memory, flag: Poison.PoisonFlag, cell: Keys.KeyCell, key: KeyArg, ghost k: nat,
                              how: Algorithm, locks: seq<Ptr>, faulty: bool)
    returns (exit: Exit, site: Site, told: bool, ghost asked: nat, ghost p: nat, ghost calls: seq<Event>,
             ghost gone: nat)
    requires m.Valid() && m.Ready(LeavesOf(locks)) && k in cell.keys && Keys.Linear(cell.View()) && flag.Valid()
    modifies m, cell, flag
    ensures m.Valid() && flag.Valid() && !exit.GaveUp?
    ensures cell.isLocked <==> key.BorrowedKey?
    ensures exit.Returned? ==> !faulty
    ensures exit.ClosurePanicked? ==> faulty
    ensures old(flag.writes) <= flag.writes
    ensures !exit.LockPanicked? ==> Poison.ToldAt(old(flag.writes), flag.writes, asked, told)
    ensures Poison.Own(flag.writes[|old(flag.writes)|..])
            == if exit.ClosurePanicked? then [Poison.Stored(true, true, |old(m.trace) + calls|)] else []
    ensures gone == |m.trace|
    ensures !exit.LockPanicked? ==> CameAndWent(how, locks, old(m.Now()), m.Now(), calls)
    ensures !exit.LockPanicked? ==> m.own == old(m.own)
    ensures exit.LockPanicked? ==> AfterPanic(how, locks, old(m.Now()), m.Now(), site, p, calls)
                                   && KilledStop(m, how, locks, site, p)
  {
    hide CameAndWent, Reached, AfterPanic, StopLeaf, Poison.ToldAt, Poison.Own;
    var o: Outcome;
    o, site, p, calls := RawLockBy(m, how, locks);
    flag.Others(|m.trace|);
    if o.Panicked? {
      gone := LetKeyGo(m, cell, key, k);
      return LockPanicked, site, false, 0, p, calls, gone;
    }
    told, asked := flag.IsPoisoned(), |flag.writes|;
    ghost var before := flag.writes;
    UseAndRelease(m, flag, how, locks, old(m.Now()), calls, faulty);
    Poison.OwnSince(old(flag.writes), before, flag.writes);
    Poison.StaysTold(old(flag.writes), before, flag.writes);
    gone := LetKeyGo(m, cell, key, k);
    return if faulty then ClosurePanicked else Returned, site, told, asked, p, calls, gone;
  }

  method UseAndRelease(m: Memory, flag: Poison.PoisonFlag, how: Algorithm, locks: seq<Ptr>, ghost before: View,
                       ghost calls: seq<Event>, faulty: bool)
    requires m.Valid() && m.Sound(LeavesOf(locks)) && flag.Valid()
    requires m.mine == before.mine + multiset(LeavesOf(locks)) && m.strays == before.strays
    requires Reached(PlanFor(how, locks), before, m.Now(), calls, Got)
    modifies m, flag
    ensures m.Valid() && CameAndWent(how, locks, before, m.Now(), calls) && m.own == old(m.own)
    ensures flag.Valid() && old(flag.writes) <= flag.writes
    ensures Poison.Own(flag.writes[|old(flag.writes)|..])
            == if faulty then [Poison.Stored(true, true, |before.trace + calls|)] else []
  {
    UseUnderFlag(m, flag, faulty);
    ReleaseAll(m, how, locks, before, calls);
    ghost var after := flag.writes;
    flag.Others(|m.trace|);
    Poison.OwnSince(old(flag.writes), after, flag.writes);
  }

  /** The closure runs; if it panics, the flag is set before the panic goes on. */
  method UseUnderFlag(m: Memory, flag: Poison.PoisonFlag, faulty: bool)
    requires m.Valid() && flag.Valid()
    modifies m`foreign, m`patience, m`killed, flag
    ensures m.Valid() && flag.Valid() && old(flag.writes) <= flag.writes
    ensures Poison.Own(flag.writes[|old(flag.writes)|..])
            == if faulty then [Poison.Stored(true, true, |m.trace|)] else []
  {
    m.Interfere();
    flag.Others(|m.trace|);
    if faulty {
      ghost var before := flag.writes;
      flag.SetPoison(|m.trace|);
      Poison.OwnSince(old(flag.writes), before, flag.writes);
    }
  }

  // ---------- Guards ----------

  /** Dropping a guard releases its fields in order. */
  method DropLocks(m: Memory, g: Guard)
    requires m.Valid() && m.Sound(DropOrder(g))
    modifies m
    ensures m.Valid() && GaveBack(old(m.Now()), m.Now(), DropOrder(g)) && m.own == old(m.own)
    decreases g
  {
    match g
    case LockRef(lock) =>
      var r := m.LeafUnlock(lock);
      OneRelease(lock);
    case Guards(kids) => DropEach(m, kids);
    case PoisonRef(_, inner) => DropLocks(m, inner);
  }

  method DropEach(m: Memory, kids: seq<Guard>)
    requires m.Valid() && m.Sound(DropOrderOf(kids))
    modifies m
    ensures m.Valid() && GaveBack(old(m.Now()), m.Now(), DropOrderOf(kids)) && m.own == old(m.own)
    decreases kids
  {
    hide GaveBack, DropOrder;
    GaveNothing(m.Now());
    assert kids[..0] == [];
    for i := 0 to |kids|
      invariant m.Valid() && GaveBack(old(m.Now()), m.Now(), DropOrderOf(kids[..i])) && m.own == old(m.own)
    {
      ghost var before := m.Now();
      DropOrderAt(kids, i);
      DropLocks(m, kids[i]);
      GaveMore(old(m.Now()), before, m.Now(), DropOrderOf(kids[..i]), DropOrder(kids[i]));
    }
    assert kids[..|kids|] == kids;
  }

  lemma GaveNothing(v: View)
    ensures GaveBack(v, v, [])
  {
    assert v.trace + Rels([]) == v.trace;
  }

  lemma {:induction false} DropOrderAt(kids: seq<Guard>, i: nat)
    requires i < |kids|
    ensures DropOrderOf(kids[..i + 1]) == DropOrderOf(kids[..i]) + DropOrder(kids[i])
    ensures forall l | l in DropOrder(kids[i]) :: l in DropOrderOf(kids)
    decreases |kids|
  {
    assert kids[..i + 1][..i] == kids[..i];
    var front := kids[..|kids| - 1];
    if i < |front| {
      DropOrderAt(front, i);
      assert front[i] == kids[i];
    }
  }

  /** Dropping a `PoisonRef`: the flag is set first if the thread is panicking, and then the guard
      inside unlocks. */
  method DropPoisonRef(m: Memory, flag: Poison.PoisonFlag, inner: Guard, panicking: bool)
    requires m.Valid() && m.Sound(DropOrder(inner)) && flag.Valid()
    modifies m, flag
    ensures m.Valid() && flag.Valid() && GaveBack(old(m.Now()), m.Now(), DropOrder(inner)) && m.own == old(m.own)
    ensures old(flag.writes) <= flag.writes
    ensures Poison.Own(flag.writes[|old(flag.writes)|..])
            == if panicking then [Poison.Stored(true, true, |old(m.trace)|)] else []
  {
    UseUnderFlag(m, flag, panicking);
    DropLocks(m, inner);
    ghost var before := flag.writes;
    flag.Others(|m.trace|);
    Poison.OwnSince(old(flag.writes), before, flag.writes);
  }

  function HowOf(t: Tree): Algorithm {
    match t
    case Retrying(_) => Algorithm.Retrying
    case Poisonable(_, inner) => HowOf(inner)
    case _ => InOrder
  }

  /** The loops follow the very plan that the concurrent machine runs for the call. */
  lemma {:induction false} SamePlan(t: Tree)
    requires Calls.IsRawLock(t)
    ensures PlanFor(HowOf(t), Ptrs(t)).groups == Calls.GroupsOf(t)
  {
    if t.Poisonable? { SamePlan(t.inner); }
  }

  /** `lock` or `read` on a tree, some use of the data, and the drop of the guard: the guard releases
      exactly what the loop acquired, in its own order, and the key goes last. */
  method LockThenDrop(m: Memory, cell: Keys.KeyCell, ghost k: nat, t: Tree)
    returns (o: Outcome, site: Site, ghost p: nat, ghost calls: seq<Event>, ghost gone: nat)
    requires Calls.IsRawLock(t) && m.Valid() && m.Ready(LeavesOf(Ptrs(t)))
    requires k in cell.keys && Keys.Linear(cell.View())
    modifies m, cell
    ensures m.Valid() && !cell.isLocked && gone == |m.trace|
    ensures o.Panicked? ==> AfterPanic(HowOf(t), Ptrs(t), old(m.Now()), m.Now(), site, p, calls)
                            && KilledStop(m, HowOf(t), Ptrs(t), site, p)
    ensures o.Normal? ==> m.mine == old(m.mine) && m.strays == old(m.strays) && m.own == old(m.own)
    ensures o.Normal? ==> m.trace == old(m.trace) + calls + Rels(DropOrder(GuardOf(t)))
    ensures o.Normal? ==> var plan := Plan(Calls.GroupsOf(t), false); Run(plan, Start(plan), calls) == Some(Got)
  {
    var locks := GetLocksUnsorted(t);
    o, site, p, calls := RawLockBy(m, HowOf(t), locks);
    if o.Normal? {
      SamePlan(t);
      m.Interfere();
      DropAll(m, t, old(m.Now()));
    }
    gone := LetKeyGo(m, cell, OwnedKey, k);
  }

  method DropAll(m: Memory, t: Tree, ghost before: View)
    requires m.Valid() && m.Sound(LeavesOf(Ptrs(t)))
    requires m.mine == before.mine + multiset(LeavesOf(Ptrs(t)))
    modifies m
    ensures m.Valid() && m.mine == before.mine && m.strays == old(m.strays) && m.own == old(m.own)
    ensures m.trace == old(m.trace) + Rels(DropOrder(GuardOf(t)))
  {
    var g := GuardOf(t);
    GuardReleasesWhatWasTaken(t);
    SoundAnyOrder(m, LeavesOf(Ptrs(t)), DropOrder(g));
    DropLocks(m, g);
    GaveWhatWasTaken(before.mine, DropOrder(g));
  }

  lemma SoundAnyOrder(m: Memory, a: seq<Lock>, b: seq<Lock>)
    requires m.Sound(a) && multiset(a) == multiset(b)
    ensures m.Sound(b)
  {
    forall l | l in b ensures l in a { assert l in multiset(b); }
  }

  // ---------- Order does not matter to a try-lock ----------

  lemma OrderBlind(mode: Mode, dead: set<Lock>, sessions: multiset<(Lock, Mode)>, a: seq<Ptr>, b: seq<Ptr>)
    requires multiset(a) == multiset(b)
    ensures Memory.AllOpenIn(mode, dead, sessions, LeavesOf(a)) == Memory.AllOpenIn(mode, dead, sessions, LeavesOf(b))
    ensures multiset(LeavesOf(a)) == multiset(LeavesOf(b))
  {
    LeavesOfPermutation(a, b);
    forall l ensures l in LeavesOf(a) <==> l in LeavesOf(b) {
      assert l in multiset(LeavesOf(a)) <==> l in multiset(LeavesOf(b));
    }
  }

  /** Two quiet copies of the same memory; one tries the locks sorted, by thin or by fat address, the
      other in the order in which the tree lists them. They get the same answer and hold the same. */
  method TrySortedAndUnsorted(m: Memory, n: Memory, child: Tree, byFat: bool) returns (o: Attempt, q: Attempt)
    requires m != n && m.Valid() && n.Valid() && m.quiet && n.quiet && m.mode == n.mode
    requires m.mine == n.mine && m.foreign == n.foreign && m.killed == n.killed
    requires m.Ready(LeavesOf(Ptrs(child))) && n.Ready(LeavesOf(Ptrs(child)))
    modifies m, n
    ensures o == q && !o.Unwound? && m.mine == n.mine
    ensures o.Locked? ==> m.mine == old(m.mine) + multiset(LeavesOf(Ptrs(child)))
    ensures o.WouldBlock? ==> m.mine == old(m.mine)
  {
    var sorted := Sort(if byFat then FatLe else ThinLe, Ptrs(child));
    OrdersByAddress();
    SortSorts(if byFat then FatLe else ThinLe, Ptrs(child));
    OrderBlind(m.mode, m.killed, m.foreign, sorted, Ptrs(child));
    StillReady(m, LeavesOf(Ptrs(child)), LeavesOf(sorted));
    ghost var at, order;
    assert m.AllOpen(LeavesOf(sorted)) == n.AllOpen(LeavesOf(Ptrs(child)));
    o, at, order := m.OrderedTry(sorted);
    q, at, order := n.OrderedTry(Ptrs(child));
  }

  lemma StillReady(m: Memory, a: seq<Lock>, b: seq<Lock>)
    requires m.Ready(a) && multiset(a) == multiset(b)
    ensures m.Ready(b)
  {
    NoDupCounts(a);
    NoDupCounts(b);
    forall l | l in b ensures l in a { assert l in multiset(b); }
  }
}
