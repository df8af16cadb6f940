/** The key of one thread. The cell is a single boolean; that a thread never has two keys, and holds no
    lock while its key can be had or is in hand, follows from where keys may go. */
module Keys {
  import opened Locks

  /** Where a live key is: with the user, inside a guard, or in a scoped call that owns or borrows it;
      or lost, itself or with its guard. */
  datatype Place =
    | InHand
    | InGuard(locks: set<Lock>)
    | InCall(locks: set<Lock>, borrowed: bool)
    | Lost(locks: set<Lock>)

  /** `ending` holds locks that a scoped call still has to release after it dropped the key. */
  datatype Owner = Owner(cell: bool, keys: map<nat, Place>, ending: set<Lock>)

  datatype KeyOp =
    | Get(id: nat)
    | DropKey(k: nat)
    | ForgetKey(k: nat)
    | LockInto(k: nat, locks: set<Lock>)     // lock, try_lock, read, try_read that succeed
    | UnlockGuard(k: nat)                    // the associated function unlock
    | DropGuard(k: nat)
    | ForgetGuard(k: nat)
    | Enter(k: nat, locks: set<Lock>, borrowed: bool)
    | LeaveUnlocking(k: nat)                 // Poisonable's scoped calls, and any closure panic: unlock, then the key
    | LeaveDroppingKey(k: nat)               // the other scoped calls: the key goes first
    | FinishUnlocking

  function Locked(p: Place): set<Lock> {
    if p.InHand? then {} else p.locks
  }

  /** What ownership lets the program do next. While a scoped call is ending, only its library code
      runs. Nothing here asks that there be a single key. */
  predicate Enabled(o: Owner, op: KeyOp) {
    match op
    case FinishUnlocking => o.ending != {}
    case Get(id) => o.ending == {} && id !in o.keys
    case DropKey(k) => o.ending == {} && k in o.keys && o.keys[k].InHand?
    case ForgetKey(k) => o.ending == {} && k in o.keys && o.keys[k].InHand?
    case LockInto(k, _) => o.ending == {} && k in o.keys && o.keys[k].InHand?
    case Enter(k, _, _) => o.ending == {} && k in o.keys && o.keys[k].InHand?
    case UnlockGuard(k) => o.ending == {} && k in o.keys && o.keys[k].InGuard?
    case DropGuard(k) => o.ending == {} && k in o.keys && o.keys[k].InGuard?
    case ForgetGuard(k) => o.ending == {} && k in o.keys && o.keys[k].InGuard?
    case LeaveUnlocking(k) => o.ending == {} && k in o.keys && o.keys[k].InCall?
    case LeaveDroppingKey(k) => o.ending == {} && k in o.keys && o.keys[k].InCall?
  }

  /** Dropping a key unlocks the cell. */
  function Dropped(o: Owner, k: nat): Owner {
    o.(cell := false, keys := o.keys - {k})
  }

  function Do(o: Owner, op: KeyOp): Owner
    requires Enabled(o, op)
  {
    match op
    case Get(id) => if o.cell then o else o.(cell := true, keys := o.keys[id := InHand])
    case DropKey(k) => Dropped(o, k)
    case ForgetKey(k) => o.(keys := o.keys[k := Lost({})])
    case LockInto(k, locks) => o.(keys := o.keys[k := InGuard(locks)])
    case UnlockGuard(k) => o.(keys := o.keys[k := InHand])
    case DropGuard(k) => Dropped(o, k)
    case ForgetGuard(k) => o.(keys := o.keys[k := Lost(o.keys[k].locks)])
    case Enter(k, locks, borrowed) => o.(keys := o.keys[k := InCall(locks, borrowed)])
    case LeaveUnlocking(k) => if o.keys[k].borrowed then o.(keys := o.keys[k := InHand]) else Dropped(o, k)
    case LeaveDroppingKey(k) =>
      if o.keys[k].borrowed then o.(keys := o.keys[k := InHand], ending := o.keys[k].locks)
      else Dropped(o, k).(ending := o.keys[k].locks)
    case FinishUnlocking => o.(ending := {})
  }

  predicate Run(o: Owner, ops: seq<KeyOp>)
    decreases |ops|, 0
  {
    ops == [] || (Run(o, ops[..|ops| - 1]) && Enabled(End(o, ops[..|ops| - 1]), ops[|ops| - 1]))
  }

  function End(o: Owner, ops: seq<KeyOp>): Owner
    requires Run(o, ops)
    decreases |ops|, 1
  {
    if ops == [] then o else Do(End(o, ops[..|ops| - 1]), ops[|ops| - 1])
  }

  /** A thread that has not asked for its key yet. */
  function Fresh(): Owner {
    Owner(false, map[], {})
  }

  /** At most one key, and the cell is locked exactly while there is one. */
  predicate Linear(o: Owner) {
    && (o.cell <==> o.keys != map[])
    && (forall j, k | j in o.keys && k in o.keys :: j == k)
  }

  lemma StepKeepsLinear(o: Owner, op: KeyOp)
    requires Linear(o) && Enabled(o, op)
    ensures Linear(Do(o, op))
  {
  }

  lemma {:induction false} RunKeepsLinear(o: Owner, ops: seq<KeyOp>)
    requires Linear(o) && Run(o, ops)
    ensures Linear(End(o, ops))
    decreases |ops|
  {
    if ops != [] {
      RunKeepsLinear(o, ops[..|ops| - 1]);
      StepKeepsLinear(End(o, ops[..|ops| - 1]), ops[|ops| - 1]);
    }
  }

  /** The thread's locks: those behind its keys, and those a scoped call has yet to release. */
  predicate HoldsLock(o: Owner, l: Lock) {
    l in o.ending || exists k | k in o.keys :: l in Locked(o.keys[k])
  }

  // ---------- Locks, counted from what was done ----------

  /** The locks that were taken with key k and not released since, going by the operations alone.
      Forgetting releases nothing; a scoped call that drops the key first releases only at its end. */
  function TakenWith(ops: seq<KeyOp>, k: nat): set<Lock> {
    if ops == [] then {}
    else
      var front, last := ops[..|ops| - 1], ops[|ops| - 1];
      var before := TakenWith(front, k);
      match last
      case LockInto(j, locks) => if j == k then before + locks else before
      case Enter(j, locks, _) => if j == k then before + locks else before
      case UnlockGuard(j) => if j == k then {} else before
      case DropGuard(j) => if j == k then {} else before
      case LeaveUnlocking(j) => if j == k then {} else before
      case FinishUnlocking => if LeftFirst(front, k) then {} else before
      case _ => before
  }

  /** The last operation was to leave a scoped call by dropping its key k. */
  predicate LeftFirst(ops: seq<KeyOp>, k: nat) {
    ops != [] && ops[|ops| - 1] == LeaveDroppingKey(k)
  }

  ghost predicate Accounted(o: Owner, ops: seq<KeyOp>) {
    && (forall k: nat :: AccountedFor(o, ops, k))
    && (o.ending != {} ==> exists k: nat :: LeftFirst(ops, k))
  }

  predicate AccountedFor(o: Owner, ops: seq<KeyOp>, k: nat) {
    && (LeftFirst(ops, k) && k in o.keys ==> o.keys[k].InHand?)
    && TakenWith(ops, k) == (if k in o.keys then Locked(o.keys[k]) else {})
                            + (if LeftFirst(ops, k) then o.ending else {})
  }

  lemma StepAccountsFor(o: Owner, ops: seq<KeyOp>, op: KeyOp, k: nat)
    requires Linear(o) && Accounted(o, ops) && Enabled(o, op)
    ensures AccountedFor(Do(o, op), ops + [op], k)
  {
    var ops' := ops + [op];
    assert ops'[..|ops'| - 1] == ops;
    assert AccountedFor(o, ops, k);
    hide Accounted, Linear;
    assert op.Get? && !o.cell ==> op.id !in o.keys;
  }

  lemma StepAccounts(o: Owner, ops: seq<KeyOp>, op: KeyOp)
    requires Linear(o) && Accounted(o, ops) && Enabled(o, op)
    ensures Accounted(Do(o, op), ops + [op])
  {
    forall k: nat ensures AccountedFor(Do(o, op), ops + [op], k) {
      StepAccountsFor(o, ops, op, k);
    }
    if Do(o, op).ending != {} {
      assert LeftFirst(ops + [op], op.k);
    }
  }

  lemma {:induction false} RunAccounts(ops: seq<KeyOp>)
    requires Run(Fresh(), ops)
    ensures Accounted(End(Fresh(), ops), ops)
  {
    if ops != [] {
      var front := ops[..|ops| - 1];
      RunAccounts(front);
      RunKeepsLinear(Fresh(), front);
      StepAccounts(End(Fresh(), front), front, ops[|ops| - 1]);
      assert front + [ops[|ops| - 1]] == ops;
    }
  }

  /** Over all runs, a thread holds exactly the locks that it has taken with some key and not released. */
  lemma LocksAreConserved(ops: seq<KeyOp>, l: Lock)
    requires Run(Fresh(), ops)
    ensures HoldsLock(End(Fresh(), ops), l) <==> exists k: nat :: l in TakenWith(ops, k)
  {
    RunAccounts(ops);
    var o := End(Fresh(), ops);
    if k: nat :| l in TakenWith(ops, k) {
      assert AccountedFor(o, ops, k);
    }
    if HoldsLock(o, l) {
      var k := HeldWasTaken(o, ops, l);
    }
  }

  lemma HeldWasTaken(o: Owner, ops: seq<KeyOp>, l: Lock) returns (k: nat)
    requires Accounted(o, ops) && HoldsLock(o, l)
    ensures l in TakenWith(ops, k)
  {
    if l in o.ending {
      k :| LeftFirst(ops, k);
    } else {
      k :| k in o.keys && l in Locked(o.keys[k]);
    }
    assert AccountedFor(o, ops, k);
  }

  /** Over all runs of a thread: there is at most one key; the cell is locked exactly while it is in
      hand, in a guard, in a scoped call, or lost; and between calls, a thread that could get its key or
      has it in hand has released every lock that it ever took. */
  lemma KeyIsLinear(ops: seq<KeyOp>)
    requires Run(Fresh(), ops)
    ensures var o := End(Fresh(), ops);
            && |o.keys| == (if o.cell then 1 else 0)
            && (o.ending == {} && (!o.cell || exists k | k in o.keys :: o.keys[k].InHand?)
                ==> forall k: nat :: TakenWith(ops, k) == {})
  {
    RunKeepsLinear(Fresh(), ops);
    RunAccounts(ops);
    var o := End(Fresh(), ops);
    if o.keys != map[] {
      var k :| k in o.keys;
      assert o.keys.Keys == {k};
      assert |o.keys| == |o.keys.Keys|;
    }
    if o.ending == {} && (!o.cell || exists k | k in o.keys :: o.keys[k].InHand?) {
      forall k: nat ensures TakenWith(ops, k) == {} {
        assert AccountedFor(o, ops, k);
      }
    }
  }

  // ---------- Where a key goes ----------

  /** Locking into a guard and unlocking it gives the key back as it was; dropping the guard is dropping
      the key. */
  lemma GuardRoundTrip(o: Owner, k: nat, locks: set<Lock>)
    requires Linear(o) && Enabled(o, LockInto(k, locks))
    ensures var held := Do(o, LockInto(k, locks));
            && Enabled(held, UnlockGuard(k)) && Do(held, UnlockGuard(k)) == o
            && Enabled(held, KeyOp.DropGuard(k)) && Do(held, KeyOp.DropGuard(k)) == Do(o, DropKey(k))
            && !Do(held, KeyOp.DropGuard(k)).cell
  {
    assert o.keys[k := InGuard(locks)][k := InHand] == o.keys;
    assert o.keys[k := InGuard(locks)] - {k} == o.keys - {k};
  }

  /** A scoped call gives a borrowed key back and drops one that it owns, whichever way it ends. */
  lemma CallRoundTrip(o: Owner, k: nat, locks: set<Lock>, borrowed: bool)
    requires Linear(o) && Enabled(o, Enter(k, locks, borrowed))
    ensures var inside := Do(o, Enter(k, locks, borrowed));
            var after := if borrowed then o else Do(o, DropKey(k));
            && Enabled(inside, LeaveUnlocking(k)) && Do(inside, LeaveUnlocking(k)) == after
            && Enabled(inside, LeaveDroppingKey(k)) && Do(inside, LeaveDroppingKey(k)) == after.(ending := locks)
            && after.(ending := locks).(ending := {}) == after && after.cell == borrowed
  {
    assert o.keys[k := InCall(locks, borrowed)][k := InHand] == o.keys;
    assert o.keys[k := InCall(locks, borrowed)] - {k} == o.keys - {k};
  }

  /** A thread that lost its key, or the guard around it, never gets a key again. */
  lemma {:induction false} LostForGood(o: Owner, ops: seq<KeyOp>, k: nat)
    requires Linear(o) && Run(o, ops) && k in o.keys && o.keys[k].Lost? && o.ending == {}
    ensures End(o, ops) == o
    decreases |ops|
  {
    if ops != [] {
      LostForGood(o, ops[..|ops| - 1], k);
      assert o.cell;
    }
  }

  predicate Forgets(op: KeyOp) {
    op.ForgetGuard? || op.ForgetKey?
  }

  /** Once a run has forgotten a key or a guard, it makes no difference what comes after: the cell stays
      locked, no attempt to get a key succeeds, and every lock of the guard stays taken. */
  lemma ForgottenForGood(ops: seq<KeyOp>, i: nat, id: nat)
    requires Run(Fresh(), ops) && i < |ops| && Forgets(ops[i])
    ensures Run(Fresh(), ops[..i])
    ensures var before, o := End(Fresh(), ops[..i]), End(Fresh(), ops);
            && o.cell && o.keys.Keys == before.keys.Keys
            && (Enabled(o, KeyOp.Get(id)) ==> Do(o, KeyOp.Get(id)) == o)
            && (forall l: Lock :: HoldsLock(before, l) <==> HoldsLock(o, l))
  {
    RunSplits(Fresh(), ops, i);
    var before := End(Fresh(), ops[..i]);
    RunKeepsLinear(Fresh(), ops[..i]);
    RunSplits(Fresh(), ops, i + 1);
    assert ops[..i + 1][..i] == ops[..i];
    ForgettingKeeps(before, ops[i]);
    LostForGood(Do(before, ops[i]), ops[i + 1..], ops[i].k);
  }

  lemma {:induction false} RunSplits(o: Owner, ops: seq<KeyOp>, i: nat)
    requires Run(o, ops) && i <= |ops|
    ensures Run(o, ops[..i]) && Run(End(o, ops[..i]), ops[i..])
    ensures End(o, ops) == End(End(o, ops[..i]), ops[i..])
    decreases |ops|
  {
    if i == |ops| {
      assert ops[..i] == ops;
    } else {
      var n := |ops| - 1;
      RunSplits(o, ops[..n], i);
      assert ops[..n][..i] == ops[..i];
      assert ops[..n][i..] == ops[i..][..n - i];
    }
  }

  lemma ForgettingKeeps(o: Owner, op: KeyOp)
    requires Linear(o) && Enabled(o, op) && Forgets(op)
    ensures Linear(Do(o, op)) && Do(o, op).cell && Do(o, op).keys.Keys == o.keys.Keys
    ensures forall l: Lock :: HoldsLock(o, l) <==> HoldsLock(Do(o, op), l)
  {
    assert op.k in o.keys;
    forall l: Lock ensures HoldsLock(o, l) <==> HoldsLock(Do(o, op), l) {
      assert Locked(o.keys[op.k]) == Locked(Do(o, op).keys[op.k]);
      if HoldsLock(o, l) {
        var k :| k in o.keys && l in Locked(o.keys[k]);
        assert k == op.k && k in Do(o, op).keys;
      }
    }
  }

  // ---------- The cell ----------

  /** The thread-local cell, with the keys that are alive as ghost state. */
  class KeyCell {
    var isLocked: bool
    ghost var keys: map<nat, Place>
    ghost var ending: set<Lock>

    constructor ()
      ensures View() == Owner(false, map[], {})
    {
      isLocked, keys, ending := false, map[], {};
    }

    ghost function View(): Owner
      reads this
    {
      Owner(isLocked, keys, ending)
    }

    method TryLock() returns (ok: bool)
      modifies this`isLocked
      ensures isLocked && ok == !old(isLocked)
    {
      ok := !isLocked;
      isLocked := true;
    }

    method ForceUnlock()
      modifies this`isLocked
      ensures !isLocked
    {
      isLocked := false;
    }

    /** `ThreadKey::get` */
    method Get(ghost id: nat) returns (some: bool)
      requires Enabled(View(), KeyOp.Get(id))
      modifies this
      ensures View() == Do(old(View()), KeyOp.Get(id))
      ensures some <==> id in keys
      ensures Linear(old(View())) ==> (some <==> old(keys) == map[])
    {
      some := TryLock();
      if some {
        keys := keys[id := InHand];
      }
    }

    /** `Drop for ThreadKey`, wherever the key was. */
    method Drop(ghost k: nat)
      requires k in keys && Linear(View())
      modifies this
      ensures View() == Dropped(old(View()), k) && Linear(View())
      ensures keys == map[]
    {
      ForceUnlock();
      keys := keys - {k};
    }
  }
}
