# HappyLock: a verified model of its locking protocol

HappyLock promises that a thread which holds its one `ThreadKey` can lock any collection of locks
without deadlock. This project models how the library keeps that promise, and proves it.

The model has four layers.

* **The concurrent machine** (`Locks`, `Protocol`, `Machine`, `DeadlockFreedom`, `Retries`, `Advice`,
  `Atomicity`, `Commits`, `Examples`). Any number of threads each run a script of critical sections: take the key,
  acquire a collection, use the data, release in the order of the guard or of the collection, give the
  key back or keep it. Each blocking call, trial, unlock and key move is one step, so every
  interleaving is a run. `Protocol` is the acquisition as an automaton: a plan lists the leaf locks in
  groups, one group for a sorted or owned collection, one group per element for a retrying one. A
  section may end early by a panic of its closure, and a guard may be forgotten.
* **The acquisition loops** (`Traces`, `Acquisition`, `Scoped`). The loops of the source, over a class
  `Memory` that holds the leaf locks as one thread sees them. Between any two calls other threads may
  open and end holds of their own and kill locks; a raw lock may panic. Contracts say what is held after
  every way out, and which locks this thread killed, apart from those that others did. A panic is an
  outcome value, and `handle_unwind` is the branch that cleans up on `Panicked` or `Unwound` and passes it
  on. The calls that a loop makes are proved to be a run of the automaton of the first layer, which is how
  the two layers meet.
* **The lockable tree** (`Pointers`, `Groups`, `Trees`, `Lockable`, `Guarding`, `World`, `Calls`,
  `Programs`). `get_ptrs`, sorting by thin and by fat address, the two duplicate checks, and guards, each
  stated by the places of the tree: paths of child positions, read from left to right. `World` derives the
  global rank of a leaf (address of the raw lock it belongs to, then position inside it) from nothing but
  addresses and ownership, and `Calls` turns every lock call on an accepted tree into a request of the
  machine: the theorems of `Programs` are then about every run of every program of lock calls, with no
  hypothesis about ranks.
* **Flags** (`Leaf`, `Keys`, `Poison`). The killed flag of the leaf locks, the key cell and where keys
  may go, and the poison flag under any number of threads.

Three promises turned out not to hold as written; each has a counterexample and the exact condition.

* `src/lib.rs:157-160` says that agreeing on a first lock prevents every re-acquisition by a retrying
  collection. It does not: a thread releases its locks one by one, so another one can get the first lock
  and be refused the next (`Advice.AdviceStillRollsBack`). A program follows the advice if whatever shares
  a lock with a request that makes trials starts with the same lock as it does; sorted collections may
  share locks with each other as they like. For every such program, some run gives back locks that it had
  taken if and only if two different threads make conflicting requests q and r such that q still has to
  release a lock of r after it has released everything r leads with, which is the first element of r, or
  the first lock of a try-lock (`Advice.GivesBackExactly`). If no such clash is in the way of a try-lock,
  in particular without try-locks, the same condition decides whether some run rolls back
  (`Advice.AdviceFailsExactly`). Where r leads with a single lock, which q releases first, it says that q
  and r share any other lock (`Advice.ClashIsSharing`). And a program that follows the advice and has no
  clash cannot livelock (`Advice.AdviceTerminates`).
* The panic cleanup of a retrying acquisition (`src/collection/retry.rs:97-102`) uses the number of
  successful trials as if it were a prefix length. For a panic in the trial of element i after blocking
  on element f it is exact if and only if f > i or f = i - 1, or element i - 1 takes no locks; otherwise
  element i - 1 stays locked (`Acquisition.CleanupIsExactIff`, `Acquisition.CleanupLeaks`). A panic in the
  blocking call also unlocks the element that was never acquired (`Acquisition.Memory.RetryLock`).
* A `Poisonable` can be reported poisoned although no thread panicked while holding it
  (`Poison.GuardTakenWhileUnwindingPoisons`), because `PoisonRef` asks `thread::panicking()` on drop. In
  every run, a hold sets the flag without a panic of its thread during it if and only if it is by a guard
  that was taken while the thread was unwinding an older panic and dropped while it still was
  (`Poison.SpuriousExactly`); and the lock is reported poisoned if and only if an uncleared publication
  stands, each from a panic during the hold or from such a guard (`Poison.ReportsExactly`).

Check everything with `dafny verify dfyconfig.toml`.

## Model

| member | source | states |
|---|---|---|
| `Protocol.NextHeld` | src/collection/retry.rs:57-95 | In every phase of an acquisition, a call takes or gives back exactly the lock it names, never one it already holds or does not hold; a refusal changes nothing that is held. |
| `Protocol.AskedIsNotHeld` | src/collection/retry.rs:61-73 | Neither a blocking call nor a trial is ever made on a lock the acquisition already holds. |
| `Machine.StepKeepsInv` | src/collection/utils.rs:39-67 | Every step of any thread keeps the lock table equal to what the threads hold by their own state: one writer, or counted readers. |
| `Machine.RunKeepsInv` | src/collection/utils.rs:39-67 | The same for every reachable state of every interleaving. |
| `Machine.Exclusive` | src/lockable.rs:20-29 | Two threads hold one lock at once only if both read. |
| `Machine.RefusedByHolder` | src/lockable.rs:31-42 | A lock refuses a request only because another thread holds it in a conflicting mode. |
| `Machine.KeyInHandHoldsNothing` | src/key.rs:77-107 | In every reachable state, a thread whose key can be had or is in hand appears nowhere in the lock table, and its cell is locked exactly while the key is in hand, in use, in a guard or lost with one. |
| `Machine.ForgottenHoldsForever` | src/key.rs:54-60 | Once a thread forgets its guard, every lock of its section stays held in every later state of every run, the thread never moves again, and its cell stays locked. |
| `DeadlockFreedom.BlockedHoldsBelow` | src/collection/utils.rs:39-67 | A thread in a blocking call, by whichever algorithm, holds only locks of smaller global rank than the one it waits for. |
| `DeadlockFreedom.NoWaitCycle` | src/collection/utils.rs:39-67 | No state that satisfies the invariant has a circular wait. |
| `DeadlockFreedom.DeadlockFree` | src/lib.rs:14-33 | In every reachable state of any number of threads mixing single, sorted, owned and retrying collections, in either mode, with panics and forgotten guards, the wait-for graph has no cycle. |
| `DeadlockFreedom.Advance` | src/collection/retry.rs:57-95 | In every unfinished state without forgotten guards some thread has a step, neither a panic nor a leak, that brings the whole system closer to its end. |
| `DeadlockFreedom.CanFinish` | src/collection/retry.rs:57-95 | From every such state some schedule finishes every thread with all locks free, and every section it commits runs to its end. |
| `Retries.MayLivelock` | src/collection.rs:97-102 | For every n there is a run of two threads in which one retrying acquisition rolls back n times, with nothing committed. |
| `DeadlockFreedom.NotStuck` | src/collection/utils.rs:39-67 | Without forgotten guards a state has no step left if and only if every thread is done and every lock is free. |
| `DeadlockFreedom.OrderedRunIsShort` | src/collection/utils.rs:39-67 | Without retrying collections the remaining work shrinks at every step of every run. |
| `DeadlockFreedom.OrderedSystemTerminates` | src/collection/utils.rs:39-67 | So every run is finite, with a bound known at the start, and a run that cannot go on is finished. |
| `Retries.RollbackLeavesPending` | src/collection/retry.rs:75-89 | A refused trial is caused by a hold of another thread on the element it rolls back for, and that hold is still open afterwards. |
| `Retries.PendingSurvives` | src/collection/retry.rs:57-61 | That hold has to end before the next blocking acquire of the element returns. |
| `Retries.RollbacksArePaidFor` | src/collection/retry.rs:57-95 | One retrying acquisition rolls back at most as often as holds of other threads on its locks end while it runs, plus one that is still open. |
| `Advice.RefusedExactlyByReleaser` | src/lib.rs:157-160 | Under the documented advice, in any mix of modes and with try-locks, while no blocking call has rolled back, a trial past the first lock is refused if and only if its lock is held in a conflicting mode by a thread that is releasing or giving back. |
| `Advice.FirstRollbackMeetsReleaser` | src/lib.rs:157-160 | The first rollback of any run under the advice is caused only by threads that are letting go of their locks, never by one that is acquiring or using. |
| `Advice.GivesBackOnlyByClash` | src/lib.rs:157-160 | If a run under the advice has a step that gives back locks, and none before, then requests of two threads clash: one still has to release a lock of the other when it has released what the other leads with. |
| `Advice.ClashGivesBack` | src/collection/retry.rs:57-89 | Whenever requests of two threads clash, with or without the advice, some run makes the one of them give back. |
| `Advice.GivesBackExactly` | src/lib.rs:157-160 | For programs that follow the advice, some run gives back locks it had taken if and only if requests of two threads clash. |
| `Advice.AdviceFailsWithin` | src/lib.rs:157-160 | For every program that follows the advice, a clash in the way of a blocking call makes some run roll back, and no run rolls back without a clash. |
| `Advice.AdviceFailsExactly` | src/lib.rs:157-160 | For programs that follow the advice and have no clash in the way of a try-lock, some run rolls back if and only if requests of two threads clash. |
| `Advice.AdviceTerminates` | src/lib.rs:157-160 | A program that follows the advice and has no clash has only finite runs, with a bound known at the start, and a run that cannot go on is finished: retrying collections cannot livelock there. |
| `Advice.ClashIsSharing` | src/lib.rs:157-160 | Where a request leads with one lock, which the other releases first, clashing means to conflict and to share another lock. |
| `Advice.AdviceStillRollsBack` | src/lib.rs:157-160 | Counterexample to the documented claim: two threads that lock the same two locks in the same order follow the advice and reach a rollback. |
| `Atomicity.ExecLocal` | src/lib.rs:24-28 | A section's result on its own locks depends on the data of those locks alone. |
| `Atomicity.OthersDoNotWrite` | src/lib.rs:24-28 | While a thread holds a lock, no access that another thread can make from its section changes that lock's data. |
| `Atomicity.StepKeepsSync` | src/lib.rs:24-28 | Forward simulation: every step keeps the data in agreement with the committed sections run one at a time, each commit being one atomic step. |
| `Atomicity.RunInSync` | src/lib.rs:24-28 | The simulation along every run. |
| `Atomicity.Atomic` | src/collection/boxed.rs:397-408 | Whenever no thread is inside a section, the data equal those of the committed sections run one at a time in commit order. |
| `Commits.RunRecords` | src/collection/retry.rs:569-580 | In every run, the log entries of a thread are of the requests it has behind it, in order, one each, except that a try-lock may have none. |
| `Commits.AllCommitted` | src/collection/retry.rs:569-580 | A finished run has committed the sections of every script exactly once, each thread its own in order, and nothing else; only those of failed try-locks are missing. |
| `Commits.EntryForEach` | src/collection/retry.rs:569-580 | For a script without try-locks that means one entry for every request. |
| `Commits.FinishedRunIsSerial` | src/lib.rs:24-28 | The data of a finished run are those of some one-at-a-time execution of the program that keeps the order of each script. |
| `Examples.FibonacciUnderEverySchedule` | examples/fibonacci.rs:9-22 | N threads each making one step leave the N-th and next Fibonacci number under every schedule. |
| `Examples.PhilosophersDine` | examples/dining_philosophers.rs:47-61 | For any number of philosophers from two on, every run is finite, and one that cannot go on has fed everybody and put every fork back. |
| `Traces.RunRefusal` | src/collection/retry.rs:75-89 | A refused trial followed by giving back what is held, in any order, is a run of the automaton that ends at the next blocking call, or at failure for a try-lock. |
| `Traces.BlockingCallHolds` | src/collection/retry.rs:58-61 | At every blocking call of any accepted sequence the thread holds exactly the earlier leaves of the one group it blocks on. |
| `Traces.TrialHolds` | src/collection/retry.rs:62-73 | At every trial it holds exactly the groups before it, the group it blocked on, and the earlier leaves of the group it tries. |
| `Acquisition.OrderedLockHolds` | src/collection/utils.rs:43-53 | An ordered acquisition, whether it returns or panics, makes one blocking call per lock in list order, and holds at each exactly the locks before it. |
| `Acquisition.RetryLockBlocksOn` | src/collection/retry.rs:58-61 | A retrying acquisition, whether it returns or panics, holds nothing but the earlier leaves of the element it blocks on at each blocking call. |
| `Acquisition.RetryLockTries` | src/collection/retry.rs:62-73 | At trial i, in an acquisition that returns or panics, it holds exactly the elements below i and the one it blocked on. |
| `Acquisition.RoundRollsBack` | src/collection/retry.rs:77-89 | The ordinary rollback leaves nothing held and nothing unlocked twice, whether the element blocked on is before or after the refused one. |
| `Acquisition.CleanedUp` | src/collection/retry.rs:97-102 | What the panic cleanup of a trial leaves locked: nothing, or exactly element i - 1. |
| `Acquisition.CleanupIsExactIff` | src/collection/retry.rs:97-102 | The panic cleanup of a trial is exact if and only if f > i, or f = i - 1, or element i - 1 takes no locks. |
| `Acquisition.CleanupLeaks` | src/collection/retry.rs:97-102 | Concrete failure, in a round reached from nothing held: three locks, blocked on the first, panic in the trial of the third; the second stays locked. |
| `Acquisition.OrderedTryFollowsPlan` | src/collection/utils.rs:72-125 | The calls of a try-lock are a run of the automaton for trying one ordered list, to success or to failure with nothing held. |
| `Acquisition.TryFollowsElements` | src/collection/retry.rs:106-134 | The same calls are a run of the automaton that tries a retrying collection element by element. |
| `Acquisition.Memory.LeafLock` | src/rwlock/rwlock.rs:21-30 | A blocking acquire of a leaf panics at once if the leaf was killed, kills it and nothing else if the raw lock panics, and otherwise adds exactly this lock and kills nothing. |
| `Acquisition.Memory.ConflictIsRefusal` | src/rwlock/rwlock.rs:48-57 | The holds of other threads conflict with a request exactly if the raw lock, counting readers and writers, refuses it. |
| `Acquisition.Memory.LeafTry` | src/rwlock/rwlock.rs:32-40 | A trial is refused only if the leaf was killed or is held in a conflicting mode; a killed leaf is refused, not panicked on; a panic of the raw lock kills this leaf only. |
| `Acquisition.Memory.LeafUnlock` | src/rwlock/rwlock.rs:42-46 | An unlock removes one hold and kills nothing; a panicking unlock kills this leaf and keeps the hold; unlocking a lock that is not held is recorded, and ends somebody else's hold. |
| `Acquisition.Memory.UnlockAll` | src/collection/retry.rs:136-142 | Unlocking a collection releases every leaf of its list, in order, and kills none; if it panics, this thread has killed exactly one leaf, whose raw unlock panics. |
| `Acquisition.Memory.RecoverFromPanic` | src/collection/utils.rs:226-235 | Recovery either releases every lock of its slice, in order, and then this thread has killed nothing, whatever others do meanwhile; or an unlock panicked, and it has killed exactly the locks of the slice. |
| `Acquisition.Memory.OrderedLock` | src/collection/utils.rs:39-67 | For a panic at any position exactly the acquired prefix has been released, each lock once, the leaf that stopped the acquisition is dead, this thread killed no other, and the panic goes on; on success every leaf was taken once, in order, and none was killed; a leaf killed before the call always ends in a panic. |
| `Acquisition.Memory.OrderedTry` | src/collection/utils.rs:72-125 | All or nothing: refused or unwound, what was taken is given back, each lock once; only a panic kills, and only the leaf that panicked; it never succeeds over a leaf killed before the call; with nobody interfering it succeeds if and only if every leaf can be taken. |
| `Acquisition.Memory.TryOthers` | src/collection/retry.rs:62-95 | The trials of one round, with the count of successes that the cleanup uses. |
| `Acquisition.Memory.GiveBackFrom` | src/collection/retry.rs:77-82 | Releases the slice, and the element blocked on unless the slice contains it; it kills nothing, and undisturbed it changes nothing that others hold. |
| `Acquisition.Memory.CleanUpTrial` | src/collection/retry.rs:97-102 | The panic cleanup after a trial, with exactly what it leaves locked. |
| `Acquisition.Memory.CleanUpBlock` | src/collection/retry.rs:97-102 | The panic cleanup after the blocking call: it unlocks the element that was never acquired. |
| `Acquisition.Memory.RetryLock` | src/collection/retry.rs:44-104 | Under any interference: on return every lock is held once, the calls are a run of the automaton, no leaf was killed before the call and this thread killed none, however often it rolled back; the loop ends after at most as many rollbacks as other threads have hold sessions; after a panic, the calls up to it are a run of the automaton to the very leaf that panicked, that leaf is dead and this thread killed no other, and exactly what is still held and what was unlocked without being held. |
| `Scoped.ScopedLock` | src/collection/utils.rs:127-150 | However the call ends the key is given back; unless locking itself panicked, every lock was taken and released exactly once and none was killed, even if the closure panicked; on a return the key goes before the first unlock. |
| `Scoped.ScopedTryLock` | src/collection/utils.rs:152-177 | A refused call holds nothing and hands the key back; otherwise as above. |
| `Scoped.PoisonableScopedLock` | src/poisonable/poisonable.rs:303-328 | While other threads set and clear the flag at will: the closure is told what the flag was at a moment when the locks were held; its panic, and nothing else, makes the call store to the flag, once, before the first unlock; the key goes last. |
| `Scoped.DropLocks` | src/mutex/guard.rs:38-44 | Dropping a guard unlocks its leaves in field order, each as often as it occurs. |
| `Scoped.SamePlan` | src/collection/boxed.rs:21-23 | The acquisition loop of every raw lock follows the very plan that the concurrent machine runs for it. |
| `Scoped.LockThenDrop` | src/collection/boxed.rs:397-408 | Locking a tree and dropping its guard: the guard releases exactly what the loop acquired, in its own order, and the key goes after the last unlock. |
| `Scoped.DropPoisonRef` | src/poisonable/guard.rs:20-27 | Dropping the guard of a panicking thread, and no other, stores to the flag, before the inner guard unlocks. |
| `Scoped.OrderBlind` | src/collection/utils.rs:72-125 | Whether a trial of every lock would succeed does not depend on the order of the list. |
| `Scoped.TrySortedAndUnsorted` | src/collection/retry.rs:106-134 | On equal, undisturbed memories the try-lock of a sorted and of an unsorted collection over the same tree give the same answer and hold the same locks. |
| `Pointers.SortSorts` | src/collection/utils.rs:10-14 | Sorting keeps every pointer and leaves addresses ascending. |
| `Pointers.ThinAndFatAgree` | src/collection/boxed.rs:326-327 | Sorting by thin and by fat pointer visits the same addresses in the same order, and gives the same list when no lock is listed twice. |
| `Pointers.NeighboursSuffice` | src/collection/utils.rs:27-36 | On a sorted list the check of neighbours finds a duplicate if and only if two positions share an address. |
| `Pointers.ContainsDuplicates` | src/collection/retry.rs:18-32 | The early-exit set loop returns true if and only if two positions share an address. |
| `Pointers.ChecksAgree` | src/collection/utils.rs:27-36 | Both sorted checks accept exactly the lists in which no two positions share an address. |
| `Lockable.GetPtrs` | src/lockable.rs:405-420 | `get_ptrs` appends exactly the tree's flattened list to the caller's. |
| `Lockable.PtrsListOutermost` | src/collection/owned.rs:65-70 | That list has one pointer for each place of the tree at which there is a leaf or an owned collection not inside another one, with the address and metadata of what is there; and it goes from left to right unless a sorting collection is above. |
| `Lockable.DupIsSharing` | src/collection/utils.rs:27-36 | An address occurs twice in the list if and only if two different places of the tree hold the same lock. |
| `Lockable.NewUnchecked` | src/collection/boxed.rs:319-333 | The cached list of a boxed collection is the sorted flattened list. |
| `Lockable.GetLocks` | src/collection/utils.rs:10-14 | The cached list of a reference collection is the flattened list sorted by fat pointer. |
| `Lockable.BoxedTryNew` | src/collection/boxed.rs:353-362 | Accepts exactly the trees in which no two outermost leaves or owned collections have the same address. |
| `Lockable.RefTryNew` | src/collection/ref.rs:234-241 | Accepts exactly the same trees. |
| `Lockable.RetryingTryNew` | src/collection/retry.rs:532-535 | Accepts exactly the same trees. |
| `Guarding.ArrayGuard` | src/lockable.rs:422-431 | Filling the guards of an array by index gives guard k of child k. |
| `Groups.LeavesOfPermutation` | src/collection/utils.rs:10-14 | Reordering a list of raw locks keeps the multiset of leaves it takes. |
| `Guarding.GuardReleasesWhatWasTaken` | src/lockable.rs:345-361 | For every nested tree, dropping its guard releases exactly the multiset of leaves that its list takes. |
| `Guarding.GuardMirrorsTree` | src/lockable.rs:354-360 | The guard at any path of child positions is the guard of the subtree at that path, whatever order was used for locking. |
| `Guarding.DropsFromLeftToRight` | src/lockable.rs:345-361 | For every nested tree, dropping its guard unlocks the leaf at every place once, from left to right, however the locks were sorted. |
| `Guarding.LeavesAreListed` | src/lockable.rs:345-361 | The flattened list takes a lock if and only if it is a leaf somewhere in the tree. |
| `Guarding.NotesFree` | src/poisonable/guard.rs:20-27 | A panicking drop unlocks the same leaves in the same order as any other; only a panicking drop stores to poison flags. |
| `Guarding.EachPoisonablePublishes` | src/poisonable/guard.rs:20-27 | When a panicking thread drops the guard of a tree, each `Poisonable` in the tree, at any depth, has its flag set just before the unlocks of its own locks. |
| `Guarding.OnlyPoisonablesPublish` | src/poisonable/guard.rs:20-27 | And no flag is set that is not of a `Poisonable` in the tree. |
| `Groups.DistinctEach` | src/collection/owned.rs:65-70 | The element groups of a list that takes no leaf twice are disjoint and without repeats. |
| `World.AddressOrderClimbs` | src/collection/owned.rs:65-70 | Distinct raw locks in address order take their leaves in the order of one global rank, leaves inside owned collections included. |
| `World.SameRelativeOrder` | src/collection/utils.rs:10-14 | Any two sorted collections take the leaves they share in the same relative order. |
| `World.AcceptedMeansNoLeafTwice` | src/collection/boxed.rs:353-362 | Acceptance and ownership imply that no leaf occurs twice; and every such list is accepted, if each raw lock has a leaf. |
| `Calls.PlanIsOk` | src/collection/owned.rs:19-21 | The plan of every accepted tree takes exactly the tree's leaves, none twice, each blocking group in rank order. |
| `Calls.CallIsOk` | src/collection/boxed.rs:397-408 | Every lock call on an accepted tree meets the hypotheses of the machine; guard and collection release exactly what was taken. |
| `Programs.ProgramsDoNotDeadlock` | src/lib.rs:24-33 | No run of any program of lock calls on accepted trees reaches a circular wait. |
| `Programs.ProgramsCanFinish` | src/collection.rs:97-102 | From every reachable state without forgotten guards such a program can run to its end. |
| `Programs.RawLocksFollowCalls` | src/rwlock/rwlock.rs:48-57 | In every reachable state of every program, a raw lock is held exclusively only by a thread in a write call on a tree with that leaf, and shared only by threads in read calls on such trees. |
| `Programs.ReadersNeverWait` | src/collection/boxed.rs:508-511 | In a program that only reads, no lock is ever held exclusively, nobody waits for anybody, and no trial is refused. |
| `Programs.TryCallsNeverBlock` | src/collection/utils.rs:72-125 | A thread in a try call is never at a blocking call. |
| `Programs.OnlyTryCallsGiveUp` | src/collection/utils.rs:39-67 | A thread that is not in a try call never gives up on its locks. |
| `Programs.FinishedProgramLogs` | src/collection/boxed.rs:397-408 | A finished run has executed the bodies of each thread's calls in order, each once; only try calls may be missing, and without them none is. |
| `Programs.ReleasesInOrder` | src/collection/utils.rs:127-150 | While a thread lets go, it holds exactly the last part of the order in which its call unlocks: that of the collection for a scoped call, that of the guard for any other. |
| `Programs.ForgottenLocksStay` | src/key.rs:54-60 | A thread that forgets its guard keeps every leaf of the tree locked against writers, and its key cell locked, in every later state. |
| `Programs.OrderedProgramsTerminate` | src/collection/utils.rs:39-67 | A program that blocks on no retrying collection ends under every schedule, within a bound known at the start. |
| `Leaf.LeafLock.RawLock` | src/mutex/mutex.rs:20-26 | A killed leaf panics without a call on its raw lock; a panicking raw call kills it; what is granted to a mutex or a writer is exclusive, what is granted to a reader of a reader/writer lock is shared. |
| `Leaf.LeafLock.RawTryLock` | src/mutex/mutex.rs:28-36 | A killed leaf answers false without a call on its raw lock; otherwise the raw lock decides: a read is never refused where only readers hold, a mutex never granted where anybody holds. |
| `Leaf.LeafLock.RawUnlock` | src/mutex/mutex.rs:38-42 | An unlock always reaches the raw lock, and kills the leaf if that panics. |
| `Leaf.LeafLock.TryAndUnlock` | src/rwlock/rwlock.rs:59-73 | An unlock in the mode of the acquire undoes it, on a mutex and on a reader/writer lock, and leaves other readers where they were. |
| `Leaf.LeafLock.Serve` | src/rwlock/rwlock.rs:17-74 | Over any sequence of calls, once the leaf is killed every later request is refused and none reaches the raw lock. |
| `Keys.StepKeepsLinear` | src/key.rs:54-85 | Every move of a key that ownership allows keeps at most one key alive, and the cell locked exactly while there is one. |
| `Keys.KeyIsLinear` | src/key.rs:54-107 | Over all runs of a thread: at most one key, the cell locked exactly while it exists, and between calls every lock ever taken with any key has been released if the key can be had or is in hand. |
| `Keys.LocksAreConserved` | src/key.rs:54-107 | Over all runs, the locks behind a thread's keys and calls are exactly those that its operations took and did not release, counted from the operations alone; forgetting releases nothing. |
| `Keys.GuardRoundTrip` | src/collection/boxed.rs:469-472 | Unlocking a guard gives back the state in which it was locked; dropping it is the same as dropping the key. |
| `Keys.CallRoundTrip` | src/collection/utils.rs:127-150 | A scoped call, whichever way it ends, gives a borrowed key back and drops one that it owns. |
| `Keys.ForgottenForGood` | src/key.rs:54-60 | If a run forgets a key or a guard anywhere, then at its end the cell is locked, no attempt gets a key, and every lock held at that moment is still held. |
| `Keys.LostForGood` | src/key.rs:77-85 | A thread that lost its key, or a guard with it, never gets a key again. |
| `Keys.KeyCell.Get` | src/key.rs:77-85 | Returns a key if and only if none is alive, as the key machine says. |
| `Keys.KeyCell.Drop` | src/key.rs:54-60 | Dropping the key unlocks the cell and leaves none alive. |
| `Poison.StepKeepsInv` | src/poisonable/poisonable.rs:61-77 | Every step of any thread keeps the flag equal to an uncleared publication in the log, the panic depth of each thread equal to what the log says, and every hold published exactly if it is broken. |
| `Poison.HoldPublishesExactly` | src/poisonable/guard.rs:20-27 | In every run, a hold sets the flag if and only if a panic ended it: a guard dropped by a thread that is unwinding, or a panic of the closure of the lock's own scoped call. |
| `Poison.SpuriousExactly` | src/poisonable/guard.rs:20-27 | A hold sets the flag without a panic of its thread during it if and only if it is by a guard taken while the thread was unwinding and dropped while it still was. |
| `Poison.PoisonIsSeen` | src/poisonable/guard.rs:20-27 | A thread whose hold is ended by a panic publishes before it unlocks; everyone who asks later is told, until somebody clears the flag. |
| `Poison.ReportsExactly` | src/poisonable/poisonable.rs:61-69 | The lock is reported poisoned if and only if an uncleared publication stands, of a hold in which its thread panicked or of a guard of the kind above. |
| `Poison.GuardTakenWhileUnwindingPoisons` | src/poisonable/guard.rs:20-27 | Concrete run in which a lock is poisoned although no thread panicked while holding it. |
| `Poison.CollectionCallsNeverPoison` | src/collection/utils.rs:137-140 | Scoped calls of a collection never poison what it contains, however often their closures panic. |

## Left out

- The `parking_lot` and `spin` primitives, atomics, fairness and writer preference: a leaf lock blocks or refuses only because of incompatible holders.
- Raw pointers, `UnsafeCell`, `MaybeUninit`, lifetime transmutes, and the boxing and freeing in `BoxedLockCollection`: addresses are abstract numbers, distinct for distinct raw locks, so collections of size zero are not covered.
- `Debug`, `Display`, `Hash`, `Deref`, `AsRef`, `From`, `Default`, iterator and accessor impls, `Send` and `Sync`: each would be a one-line member.
- References in a lockable tree are transparent and have no constructor of their own.
- Changing a retrying or owned collection after it was built (`child_mut`, `iter_mut`, `extend`): trees are frozen.
- A mutex taken in read mode through a collection: `Sharable` rules it out; only `Leaf.LeafLock` models it.
- Acquisition.Memory.OrderedLock: assumes that the raw unlocks of the locks asked for do not panic, since nothing can be promised once a cleanup itself panics; only `LeafUnlock`, `RawUnlock`, `UnlockAll` and `RecoverFromPanic` are stated without that assumption.
- Acquisition.Memory.RetryLock: the same assumption. Other threads have a number of hold sessions that is arbitrary but fixed at the start, and a blocking call waits until the conflicting ones are over; without a bound the loop may retry forever, which `Retries.MayLivelock` shows.
- Acquisition.Memory.OrderedTry: the same assumption; under it the rollback of `ordered_try_*` and that of the retrying `raw_try_*` coincide, and this member models both.
- Advice.AdviceFailsExactly: does not decide programs that have a clash in the way of a try-lock and none in the way of a blocking call; a try-lock that fails gives back in an order that the machine leaves open, and `Advice.AdviceFailsWithin` gives both bounds there.
- A retrying collection of several elements whose first element takes no locks is outside the advice theorems, since it has no first lock to agree on.
- Raw locks that panic and killed leaves in the concurrent machine: there a panic ends a section early, and panics of the locks themselves are the subject of `Acquisition`, `Scoped` and `Leaf`.
- The order in which an automaton of the machine gives locks back after a refusal is left open, which covers the order of the source and of nested owned collections.
- Examples.FibonacciUnderEverySchedule: does not model the wrap-around of `i32`; registers are unbounded integers.
- The `panic = "abort"` variant of `PoisonFlag`, `src/thread.rs` and `src/thread/`, sleeping, joins and channels.
- `catch_unwind` inside a closure passed to a scoped call: its panics are invisible to the call, and are not steps of `Poison`.
