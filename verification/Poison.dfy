/** The poison flag of one `Poisonable`, while any number of threads take and leave it. */
module Poison {
  import opened Locks

  /** How a thread came to the data: by a guard, by a scoped call of the `Poisonable` itself, or by a
      scoped call of a collection that contains it. */
  datatype Access = ByGuard | ByOwnCall | ByCollectionCall

  datatype Stage =
    | Outside
    | Asking(via: Access, m: Mode)        // the lock is held, the flag not yet read
    | Using(via: Access, m: Mode)
    | CleaningUp(via: Access, m: Mode)    // the closure panicked
    | Leaving(m: Mode, broke: bool)       // about to unlock; `broke` if a panic ended this hold

  /** `depth` counts the panics a thread is unwinding; `thread::panicking` is depth > 0. */
  datatype Worker = Worker(depth: nat, at: Stage)

  /** What happened, in order. */
  datatype Note =
    | Took(who: Tid, via: Access)
    | Reported(who: Tid, poisoned: bool)
    | Panicked(who: Tid)
    | Caught(who: Tid)
    | Published(who: Tid)
    | Left(who: Tid)
    | Cleared

  datatype State = State(workers: seq<Worker>, hold: Hold, flag: bool, log: seq<Note>)

  datatype Action =
    | TakeLock(via: Access, m: Mode)
    | Ask            // guard, data_mut, read_guard, data_ref: is_poisoned decides Ok or Err
    | StartPanic | CatchPanic
    | DropGuard      // PoisonRef's own drop, before the guard inside it unlocks
    | ClosureReturns | ClosurePanics | CleanUp
    | UnlockIt
    | Clear

  predicate Can(s: State, t: Tid, a: Action) {
    t < |s.workers| &&
    var w := s.workers[t];
    match a
    case TakeLock(_, m) => w.at.Outside? && CanTake(s.hold, m)
    case Ask => w.at.Asking?
    case StartPanic => w.at.Outside? || (w.at.Using? && w.at.via.ByGuard?)
    case CatchPanic => w.depth > 0 && (w.at.Outside? || (w.at.Using? && w.at.via.ByGuard?))
    case DropGuard => w.at.Using? && w.at.via.ByGuard?
    case ClosureReturns => w.at.Using? && !w.at.via.ByGuard?
    case ClosurePanics => w.at.Using? && !w.at.via.ByGuard?
    case CleanUp => w.at.CleaningUp?
    case UnlockIt => w.at.Leaving?
    case Clear => true
  }

  function Moved(w: Worker, a: Action): Worker {
    match a
    case TakeLock(via, m) => w.(at := Asking(via, m))
    case Ask => if w.at.Asking? then w.(at := Using(w.at.via, w.at.m)) else w
    case StartPanic => w.(depth := w.depth + 1)
    case CatchPanic => if w.depth > 0 then w.(depth := w.depth - 1) else w
    case DropGuard => if w.at.Using? then w.(at := Leaving(w.at.m, w.depth > 0)) else w
    case ClosureReturns => if w.at.Using? then w.(at := Leaving(w.at.m, false)) else w
    case ClosurePanics =>
      if w.at.Using? then Worker(w.depth + 1, CleaningUp(w.at.via, w.at.m)) else w
    case CleanUp =>
      if w.at.CleaningUp? then w.(at := Leaving(w.at.m, w.at.via.ByOwnCall?)) else w
    case UnlockIt => w.(at := Outside)
    case Clear => w
  }

  /** Whether the action sets the flag. */
  predicate Publishes(w: Worker, a: Action) {
    || (a.DropGuard? && w.depth > 0)
    || (a.CleanUp? && w.at.CleaningUp? && w.at.via.ByOwnCall?)
  }

  function NotesOf(s: State, t: Tid, a: Action): seq<Note>
    requires Can(s, t, a)
  {
    var w := s.workers[t];
    match a
    case TakeLock(via, _) => [Took(t, via)]
    case Ask => [Reported(t, s.flag)]
    case StartPanic => [Panicked(t)]
    case CatchPanic => [Caught(t)]
    case ClosurePanics => [Panicked(t)]
    case UnlockIt => [Left(t)]
    case Clear => [Cleared]
    case _ => if Publishes(w, a) then [Published(t)] else []
  }

  function After(s: State, t: Tid, a: Action): State
    requires Can(s, t, a)
  {
    var w := s.workers[t];
    State(s.workers[t := Moved(w, a)],
          match a {
            case TakeLock(_, m) => Take(s.hold, t, m)
            case UnlockIt => Drop(s.hold, t, w.at.m)
            case _ => s.hold
          },
          if Publishes(w, a) then true else if a.Clear? then false else s.flag,
          s.log + NotesOf(s, t, a))
  }

  ghost predicate Step(s: State, s': State) {
    exists t: Tid, a: Action :: Can(s, t, a) && s' == After(s, t, a)
  }

  ghost predicate IsRun(run: seq<State>) {
    run != [] && forall k | 0 <= k < |run| - 1 :: Step(run[k], run[k + 1])
  }

  ghost predicate Init(s: State) {
    && (forall t | 0 <= t < |s.workers| :: s.workers[t] == Worker(0, Outside))
    && s.hold == Free && !s.flag && s.log == []
  }

  // ---------- Reading the log ----------

  /** A publication that nobody has cleared since. */
  predicate Poisoned(log: seq<Note>) {
    exists p | 0 <= p < |log| :: StandsAt(log, p)
  }

  predicate StandsAt(log: seq<Note>, p: nat) {
    p < |log| && log[p].Published? && forall c | p < c < |log| :: !log[c].Cleared?
  }

  /** The panics that thread t is unwinding. */
  function Depth(log: seq<Note>, t: Tid): int {
    if log == [] then 0
    else
      Depth(log[..|log| - 1], t)
      + match log[|log| - 1]
        case Panicked(u) => if u == t then 1 else 0
        case Caught(u) => if u == t then -1 else 0
        case _ => 0
  }

  /** Thread t has held the lock since note i: it took it there, and has neither left nor taken it since. */
  predicate HeldSince(log: seq<Note>, t: Tid, i: nat) {
    i < |log| && TookBy(log[i], t) && forall k | i < k < |log| :: !Boundary(log[k], t)
  }

  predicate TookBy(n: Note, t: Tid) {
    n.Took? && n.who == t
  }

  predicate Boundary(n: Note, t: Tid) {
    (n.Took? || n.Left?) && n.who == t
  }

  predicate PanickedSince(log: seq<Note>, t: Tid, i: nat) {
    exists q | i < q < |log| :: log[q] == Panicked(t)
  }

  predicate PublishedSince(log: seq<Note>, t: Tid, i: nat) {
    exists p | i < p < |log| :: log[p] == Published(t)
  }

  /** A hold that began at note i is ended by a panic: its guard is dropped while the thread unwinds, or
      the closure of the lock's own scoped call panicked. */
  predicate Breaks(log: seq<Note>, t: Tid, i: nat)
    requires i < |log| && log[i].Took?
  {
    match log[i].via
    case ByGuard => Depth(log, t) > 0
    case ByOwnCall => PanickedSince(log, t, i)
    case ByCollectionCall => false
  }

  /** A guard taken while its thread was unwinding, still held while it unwinds, with no panic of the
      thread in between. */
  predicate Inherited(log: seq<Note>, t: Tid, i: nat)
    requires i < |log| && log[i].Took?
  {
    log[i].via.ByGuard? && Depth(log[..i], t) > 0 && !PanickedSince(log, t, i) && Depth(log, t) > 0
  }

  /** What may be noted after a log. */
  ghost predicate NoteOk(log: seq<Note>, n: Note) {
    match n
    case Reported(_, b) => b == Poisoned(log)
    case Published(t) => exists i: nat :: HeldSince(log, t, i) && Breaks(log, t, i)
    case Left(t) => exists i: nat :: HeldSince(log, t, i) && (PublishedSince(log, t, i) <==> Breaks(log, t, i))
    case _ => true
  }

  ghost predicate LogOk(log: seq<Note>) {
    forall k | 0 <= k < |log| :: NoteOk(log[..k], log[k])
  }

  // ---------- The invariant ----------

  ghost predicate WorkerOk(log: seq<Note>, t: Tid, w: Worker) {
    w.depth == Depth(log, t)
    && (w.at.Outside? || exists i: nat :: HeldSince(log, t, i) && InHold(log, t, i, w.at))
  }

  /** Where a thread is in the hold that began at note i. */
  ghost predicate InHold(log: seq<Note>, t: Tid, i: nat, at: Stage)
    requires HeldSince(log, t, i)
  {
    match at
    case Outside => false
    case Asking(via, _) => Untouched(log, t, i, via)
    case Using(via, _) => Untouched(log, t, i, via)
    case CleaningUp(via, _) =>
      via == log[i].via && !via.ByGuard? && PanickedSince(log, t, i) && !PublishedSince(log, t, i)
    case Leaving(_, broke) => broke == Breaks(log, t, i) && broke == PublishedSince(log, t, i)
  }

  /** Nothing published yet, and no closure has panicked. */
  ghost predicate Untouched(log: seq<Note>, t: Tid, i: nat, via: Access)
    requires HeldSince(log, t, i)
  {
    via == log[i].via && !PublishedSince(log, t, i) && (!via.ByGuard? ==> !PanickedSince(log, t, i))
  }

  ghost predicate Inv(s: State) {
    && s.flag == Poisoned(s.log) && LogOk(s.log)
    && forall t | 0 <= t < |s.workers| :: WorkerOk(s.log, t, s.workers[t])
  }

  lemma PoisonedAfter(log: seq<Note>, n: Note)
    ensures Poisoned(log + [n]) == if n.Published? then true else if n.Cleared? then false else Poisoned(log)
  {
    var log' := log + [n];
    if n.Published? {
      assert StandsAt(log', |log|);
    } else if n.Cleared? {
      forall p | 0 <= p < |log'| ensures !StandsAt(log', p) { assert log'[|log|].Cleared?; }
    } else {
      forall p | 0 <= p < |log| ensures StandsAt(log', p) <==> StandsAt(log, p) {
        assert forall c | 0 <= c < |log| :: log'[c] == log[c];
      }
      assert !StandsAt(log', |log|);
    }
  }

  lemma LogOkAfter(log: seq<Note>, n: Note)
    requires LogOk(log) && NoteOk(log, n)
    ensures LogOk(log + [n])
  {
    var log' := log + [n];
    forall k | 0 <= k < |log'| ensures NoteOk(log'[..k], log'[k]) {
      assert log'[..k] == log[..k];
      if k == |log| { assert log[..k] == log; }
    }
  }

  lemma DepthAfter(log: seq<Note>, n: Note, t: Tid)
    ensures Depth(log + [n], t)
            == Depth(log, t) + if n == Panicked(t) then 1 else if n == Caught(t) then -1 else 0
  {
    assert (log + [n])[..|log|] == log;
  }

  /** A note that does not bound a hold extends it. */
  lemma HeldStill(log: seq<Note>, n: Note, t: Tid, i: nat)
    requires HeldSince(log, t, i) && !Boundary(n, t)
    ensures HeldSince(log + [n], t, i) && (log + [n])[i] == log[i]
    ensures PanickedSince(log + [n], t, i) <==> PanickedSince(log, t, i) || n == Panicked(t)
    ensures PublishedSince(log + [n], t, i) <==> PublishedSince(log, t, i) || n == Published(t)
  {
    var log' := log + [n];
    assert forall k | 0 <= k < |log| :: log'[k] == log[k];
    assert log'[|log|] == n;
  }

  lemma HoldIsUnique(log: seq<Note>, t: Tid, i: nat, j: nat)
    requires HeldSince(log, t, i) && HeldSince(log, t, j)
    ensures i == j
  {
    if i < j { assert Boundary(log[j], t); }
    if j < i { assert Boundary(log[i], t); }
  }

  /** A note of another thread, or one that tells nothing about this thread's hold or panics. */
  lemma OthersOk(log: seq<Note>, n: Note, t: Tid, w: Worker)
    requires WorkerOk(log, t, w) && !Boundary(n, t)
    requires n != Panicked(t) && n != Caught(t) && n != Published(t)
    ensures WorkerOk(log + [n], t, w)
  {
    DepthAfter(log, n, t);
    if !w.at.Outside? {
      var i: nat :| HeldSince(log, t, i) && InHold(log, t, i, w.at);
      HeldStill(log, n, t, i);
    }
  }

  lemma MoverOk(s: State, t: Tid, a: Action)
    requires Inv(s) && Can(s, t, a)
    ensures WorkerOk(After(s, t, a).log, t, Moved(s.workers[t], a))
  {
    var w, w' := s.workers[t], Moved(s.workers[t], a);
    var log, log', notes := s.log, After(s, t, a).log, NotesOf(s, t, a);
    assert WorkerOk(log, t, w);
    if notes == [] {
      assert log' == log;
    } else {
      DepthAfter(log, notes[0], t);
    }
    if a.TakeLock? {
      assert HeldSince(log', t, |log|) && InHold(log', t, |log|, w'.at);
    } else if !w.at.Outside? && !a.UnlockIt? {
      var i: nat :| HeldSince(log, t, i) && InHold(log, t, i, w.at);
      if notes != [] { HeldStill(log, notes[0], t, i); }
      assert InHold(log', t, i, w'.at);
    }
  }

  lemma NotesAreOk(s: State, t: Tid, a: Action)
    requires Inv(s) && Can(s, t, a)
    ensures |NotesOf(s, t, a)| <= 1
    ensures NotesOf(s, t, a) != [] ==> NoteOk(s.log, NotesOf(s, t, a)[0])
  {
    assert WorkerOk(s.log, t, s.workers[t]);
  }

  lemma StepKeepsInv(s: State, s': State)
    requires Inv(s) && Step(s, s')
    ensures Inv(s')
  {
    hide WorkerOk, LogOk, Poisoned;
    var t: Tid, a: Action :| Can(s, t, a) && s' == After(s, t, a);
    var notes := NotesOf(s, t, a);
    NotesAreOk(s, t, a);
    MoverOk(s, t, a);
    if notes == [] {
      assert s'.log == s.log;
    } else {
      assert notes == [notes[0]] && s'.log == s.log + [notes[0]];
      PoisonedAfter(s.log, notes[0]);
      LogOkAfter(s.log, notes[0]);
      forall u | 0 <= u < |s.workers| && u != t ensures WorkerOk(s'.log, u, s'.workers[u]) {
        OthersOk(s.log, notes[0], u, s.workers[u]);
      }
    }
  }

  lemma {:induction false} RunKeepsInv(run: seq<State>, k: nat)
    requires IsRun(run) && Init(run[0]) && k < |run|
    ensures Inv(run[k])
  {
    if k > 0 {
      RunKeepsInv(run, k - 1);
      StepKeepsInv(run[k - 1], run[k]);
    }
  }

  // ---------- Which holds poison the lock ----------

  /** The log of some reachable state, in which thread t left at note k the hold it began at note i. */
  ghost predicate Hold(run: seq<State>, s: State, t: Tid, i: nat, k: nat) {
    && IsRun(run) && Init(run[0]) && s in run
    && k < |s.log| && s.log[k] == Left(t) && HeldSince(s.log[..k], t, i)
  }

  lemma LogIsOk(run: seq<State>, s: State)
    requires IsRun(run) && Init(run[0]) && s in run
    ensures LogOk(s.log)
  {
    var n :| 0 <= n < |run| && run[n] == s;
    RunKeepsInv(run, n);
  }

  /** In every run, a hold sets the flag if and only if a panic ended it: the guard was dropped by a
      thread that is unwinding, or the closure of the lock's own scoped call panicked. */
  lemma HoldPublishesExactly(run: seq<State>, s: State, t: Tid, i: nat, k: nat)
    requires Hold(run, s, t, i, k)
    ensures PublishedSince(s.log[..k], t, i) <==> Breaks(s.log[..k], t, i)
  {
    LogIsOk(run, s);
    assert NoteOk(s.log[..k], s.log[k]);
    var j: nat :| HeldSince(s.log[..k], t, j)
                  && (PublishedSince(s.log[..k], t, j) <==> Breaks(s.log[..k], t, j));
    HoldIsUnique(s.log[..k], t, i, j);
  }

  /** Without a panic of its own, a thread unwinds no more than it did. */
  lemma {:induction false} DepthFalls(log: seq<Note>, t: Tid, i: nat)
    requires i < |log| && log[i].Took? && !PanickedSince(log, t, i)
    ensures Depth(log, t) <= Depth(log[..i], t)
  {
    var front := log[..|log| - 1];
    if i == |log| - 1 {
      assert log[..i] == front;
    } else {
      assert forall q | i < q < |front| :: front[q] == log[q];
      DepthFalls(front, t, i);
      assert front[..i] == log[..i] && log[|log| - 1] != Panicked(t);
    }
  }

  /** In every run, a hold sets the flag without a panic of its thread during it, if and only if it is by
      a guard that was taken while the thread was unwinding and dropped while it still was. */
  lemma SpuriousExactly(run: seq<State>, s: State, t: Tid, i: nat, k: nat)
    requires Hold(run, s, t, i, k)
    ensures PublishedSince(s.log[..k], t, i) && !PanickedSince(s.log[..k], t, i) <==> Inherited(s.log[..k], t, i)
  {
    HoldPublishesExactly(run, s, t, i, k);
    if !PanickedSince(s.log[..k], t, i) {
      DepthFalls(s.log[..k], t, i);
      assert s.log[..k][..i] == s.log[..i];
    }
  }

  // ---------- What the next ones are told ----------

  /** A thread whose hold is ended by a panic publishes before it unlocks: whoever asks from then on is
      told, until somebody clears the flag. */
  lemma PoisonIsSeen(run: seq<State>, s: State, t: Tid, i: nat, k: nat, r: nat, u: Tid, b: bool) returns (p: nat)
    requires Hold(run, s, t, i, k) && Breaks(s.log[..k], t, i)
    requires k < r < |s.log| && s.log[r] == Reported(u, b)
    ensures i < p < k && s.log[p] == Published(t)
    ensures (forall c | p < c < r :: !s.log[c].Cleared?) ==> b
  {
    HoldPublishesExactly(run, s, t, i, k);
    LogIsOk(run, s);
    assert NoteOk(s.log[..r], s.log[r]);
    p :| i < p < k && s.log[..k][p] == Published(t);
    if forall c | p < c < r :: !s.log[c].Cleared? {
      assert StandsAt(s.log[..r], p);
    }
  }

  /** An uncleared publication of a hold in which its thread panicked. */
  ghost predicate Deserved(log: seq<Note>, p: nat, t: Tid, i: nat) {
    StandsAt(log, p) && log[p].who == t && HeldSince(log[..p], t, i) && PanickedSince(log[..p], t, i)
  }

  /** An uncleared publication of a guard that was taken and dropped in the course of an older panic. */
  ghost predicate Undeserved(log: seq<Note>, p: nat, t: Tid, i: nat) {
    StandsAt(log, p) && log[p].who == t && HeldSince(log[..p], t, i) && Inherited(log[..p], t, i)
  }

  ghost predicate AnyDeserved(log: seq<Note>) {
    exists p: nat, t: Tid, i: nat :: Deserved(log, p, t, i)
  }

  ghost predicate AnyUndeserved(log: seq<Note>) {
    exists p: nat, t: Tid, i: nat :: Undeserved(log, p, t, i)
  }

  /** In every run, the lock is reported poisoned if and only if an uncleared publication stands, and
      each of those comes from a panic during the hold or from a guard of the kind above. The promise
      that a report means a panic of a holder therefore fails at a report if and only if publications
      of the second kind, and only those, stand. */
  lemma ReportsExactly(run: seq<State>, s: State, r: nat, u: Tid, b: bool)
    requires IsRun(run) && Init(run[0]) && s in run && r < |s.log| && s.log[r] == Reported(u, b)
    ensures b <==> AnyDeserved(s.log[..r]) || AnyUndeserved(s.log[..r])
  {
    LogIsOk(run, s);
    var log := s.log[..r];
    assert NoteOk(log, s.log[r]);
    if p: nat, t: Tid, i: nat :| Deserved(log, p, t, i) { assert StandsAt(log, p); }
    if p: nat, t: Tid, i: nat :| Undeserved(log, p, t, i) { assert StandsAt(log, p); }
    if b {
      var p: nat :| 0 <= p < r && StandsAt(log, p);
      assert s.log[..p] == log[..p];
      var t := log[p].who;
      assert NoteOk(log[..p], s.log[p]);
      var i: nat :| HeldSince(log[..p], t, i) && Breaks(log[..p], t, i);
      if PanickedSince(log[..p], t, i) {
        assert Deserved(log, p, t, i);
      } else {
        DepthFalls(log[..p], t, i);
        assert Undeserved(log, p, t, i);
      }
    }
  }

  // ---------- The flag ----------

  /** A store to the flag: by the thread whose calls are followed, or by another; the value; and how many
      calls on leaf locks the followed thread had made. */
  datatype Stored = Stored(own: bool, value: bool, calls: nat)

  function ValueOf(writes: seq<Stored>): bool {
    writes != [] && writes[|writes| - 1].value
  }

  function Own(writes: seq<Stored>): seq<Stored> {
    if writes == [] then []
    else Own(writes[..|writes| - 1]) + if writes[|writes| - 1].own then [writes[|writes| - 1]] else []
  }

  /** `value` is what the flag held after `asked` of the stores, which were made since `before`, and none of
      them by the followed thread. */
  ghost predicate ToldAt(before: seq<Stored>, after: seq<Stored>, asked: nat, value: bool) {
    && |before| <= asked <= |after| && value == ValueOf(after[..asked])
    && Own(after[|before|..asked]) == []
  }

  lemma StaysTold(before: seq<Stored>, mid: seq<Stored>, after: seq<Stored>)
    requires before <= mid <= after && Own(mid[|before|..]) == []
    ensures ToldAt(before, after, |mid|, ValueOf(mid))
  {
    assert after[..|mid|] == mid && after[|before|..|mid|] == mid[|before|..];
  }

  class PoisonFlag {
    var poisoned: bool
    ghost var writes: seq<Stored>

    constructor ()
      ensures Valid() && writes == []
    {
      poisoned, writes := false, [];
    }

    ghost predicate Valid()
      reads this
    {
      poisoned == ValueOf(writes)
    }

    predicate IsPoisoned()
      reads this
    {
      poisoned
    }

    method ClearPoison(ghost calls: nat)
      modifies this
      ensures Valid() && !IsPoisoned() && writes == old(writes) + [Stored(true, false, calls)]
    {
      poisoned, writes := false, writes + [Stored(true, false, calls)];
    }

    method SetPoison(ghost calls: nat)
      modifies this
      ensures Valid() && IsPoisoned() && writes == old(writes) + [Stored(true, true, calls)]
    {
      poisoned, writes := true, writes + [Stored(true, true, calls)];
    }

    /** Other threads poison and clear as they like. */
    method Others(ghost calls: nat)
      requires Valid()
      modifies this
      ensures Valid() && old(writes) <= writes && Own(writes[|old(writes)|..]) == []
    {
      var n: nat :| 0 <= n;
      for i := 0 to n
        invariant Valid() && old(writes) <= writes && Own(writes[|old(writes)|..]) == []
      {
        var value: bool := *;
        ghost var before := writes;
        poisoned, writes := value, writes + [Stored(false, value, calls)];
        assert writes[|old(writes)|..][..|before| - |old(writes)|] == before[|old(writes)|..];
      }
    }
  }

  lemma {:induction false} OwnConcat(a: seq<Stored>, b: seq<Stored>)
    ensures Own(a + b) == Own(a) + Own(b)
  {
    if b == [] {
      assert a + b == a;
    } else {
      assert (a + b)[..|a + b| - 1] == a + b[..|b| - 1];
      OwnConcat(a, b[..|b| - 1]);
    }
  }

  /** Own stores over two stretches of time. */
  lemma OwnSince(a: seq<Stored>, b: seq<Stored>, c: seq<Stored>)
    requires a <= b <= c
    ensures a <= c && Own(c[|a|..]) == Own(b[|a|..]) + Own(c[|b|..])
  {
    assert c[|a|..] == b[|a|..] + c[|b|..];
    OwnConcat(b[|a|..], c[|b|..]);
  }

  // ---------- Two corners ----------

  predicate ThroughCollection(w: Worker) {
    w.at.Asking? || w.at.Using? || w.at.CleaningUp? ==> w.at.via.ByCollectionCall?
  }

  ghost predicate OnlyCollections(s: State) {
    forall t | 0 <= t < |s.workers| :: ThroughCollection(s.workers[t])
  }

  /** Scoped calls of a collection never poison what the collection contains, however often their
      closures panic. */
  lemma {:induction false} CollectionCallsNeverPoison(run: seq<State>, k: nat)
    requires IsRun(run) && Init(run[0]) && k < |run| && forall j | 0 <= j < |run| :: OnlyCollections(run[j])
    ensures !run[k].flag && forall r, u | 0 <= r < |run[k].log| :: run[k].log[r] != Reported(u, true)
  {
    if k > 0 {
      CollectionCallsNeverPoison(run, k - 1);
      var s, s' := run[k - 1], run[k];
      assert Step(run[k - 1], run[k - 1 + 1]);
      var t: Tid, a: Action :| Can(s, t, a) && s' == After(s, t, a);
      assert ThroughCollection(s.workers[t]);
      forall r, u | 0 <= r < |s'.log| ensures s'.log[r] != Reported(u, true) {
        if r < |s.log| { assert s'.log[r] == s.log[r]; }
      }
    }
  }

  lemma Does(s: State, t: Tid, a: Action, s': State)
    requires Can(s, t, a) && s' == After(s, t, a)
    ensures Step(s, s')
  {
  }

  /** Two threads: the first is unwinding a panic, the second is not. */
  function Pair(x: Stage, y: Stage, hold: Hold, flag: bool, log: seq<Note>): State {
    State([Worker(1, x), Worker(0, y)], hold, flag, log)
  }

  lemma StartsUnwinding() returns (run: seq<State>)
    ensures IsRun(run) && Init(run[0])
    ensures run[|run| - 1] == Pair(Outside, Outside, Free, false, [Panicked(0)])
  {
    var s0 := State([Worker(0, Outside), Worker(0, Outside)], Free, false, []);
    var s1 := Pair(Outside, Outside, Free, false, [Panicked(0)]);
    Does(s0, 0, StartPanic, s1);
    run := [s0, s1];
  }

  lemma TakesAndAsks(log: seq<Note>) returns (run: seq<State>)
    ensures IsRun(run) && run[0] == Pair(Outside, Outside, Free, false, log)
    ensures run[|run| - 1] == Pair(Using(ByGuard, Write), Outside, Writer(0), false,
                                   log + [Took(0, ByGuard)] + [Reported(0, false)])
  {
    var s1 := Pair(Outside, Outside, Free, false, log);
    var s2 := Pair(Asking(ByGuard, Write), Outside, Writer(0), false, s1.log + [Took(0, ByGuard)]);
    var s3 := Pair(Using(ByGuard, Write), Outside, Writer(0), false, s2.log + [Reported(0, false)]);
    Does(s1, 0, TakeLock(ByGuard, Write), s2);
    Does(s2, 0, Ask, s3);
    run := [s1, s2, s3];
  }

  lemma DropsGuard(log: seq<Note>) returns (run: seq<State>)
    ensures IsRun(run) && run[0] == Pair(Using(ByGuard, Write), Outside, Writer(0), false, log)
    ensures run[|run| - 1] == Pair(Outside, Outside, Free, true, log + [Published(0)] + [Left(0)])
  {
    var s3 := Pair(Using(ByGuard, Write), Outside, Writer(0), false, log);
    var s4 := Pair(Leaving(Write, true), Outside, Writer(0), true, s3.log + [Published(0)]);
    var s5 := Pair(Outside, Outside, Free, true, s4.log + [Left(0)]);
    Does(s3, 0, DropGuard, s4);
    Does(s4, 0, UnlockIt, s5);
    run := [s3, s4, s5];
  }

  lemma OtherAsks(log: seq<Note>) returns (run: seq<State>)
    ensures IsRun(run) && run[0] == Pair(Outside, Outside, Free, true, log)
    ensures run[|run| - 1].log == log + [Took(1, ByGuard)] + [Reported(1, true)]
  {
    var s5 := Pair(Outside, Outside, Free, true, log);
    var s6 := Pair(Outside, Asking(ByGuard, Write), Writer(1), true, s5.log + [Took(1, ByGuard)]);
    var s7 := Pair(Outside, Using(ByGuard, Write), Writer(1), true, s6.log + [Reported(1, true)]);
    Does(s5, 1, TakeLock(ByGuard, Write), s6);
    Does(s6, 1, Ask, s7);
    run := [s5, s6, s7];
  }

  lemma RunsMeet(a: seq<State>, b: seq<State>)
    requires IsRun(a) && IsRun(b) && a[|a| - 1] == b[0]
    ensures IsRun(a + b[1..]) && (a + b[1..])[0] == a[0] && (a + b[1..])[|a + b[1..]| - 1] == b[|b| - 1]
  {
    var run := a + b[1..];
    forall k | 0 <= k < |run| - 1 ensures Step(run[k], run[k + 1]) {
      if k < |a| - 1 {
        assert Step(a[k], a[k + 1]);
      } else {
        var j := k - (|a| - 1);
        assert Step(b[j], b[j + 1]);
      }
    }
  }

  /** A guard that is taken while its thread is unwinding, and dropped without any panic in between,
      poisons the lock: `PoisonRef` asks whether the thread is panicking, not whether it began to. */
  lemma GuardTakenWhileUnwindingPoisons() returns (run: seq<State>, s: State)
    ensures IsRun(run) && Init(run[0]) && s == run[|run| - 1]
    ensures s.log == [Panicked(0), Took(0, ByGuard), Reported(0, false), Published(0), Left(0),
                      Took(1, ByGuard), Reported(1, true)]
  {
    hide IsRun, Init, Pair;
    run := StartsUnwinding();
    var log := [Panicked(0)];
    var taking := TakesAndAsks(log);
    RunsMeet(run, taking);
    run := run + taking[1..];
    log := log + [Took(0, ByGuard)] + [Reported(0, false)];
    var dropping := DropsGuard(log);
    RunsMeet(run, dropping);
    run := run + dropping[1..];
    log := log + [Published(0)] + [Left(0)];
    var asking := OtherAsks(log);
    RunsMeet(run, asking);
    run := run + asking[1..];
    s := run[|run| - 1];
  }
}
