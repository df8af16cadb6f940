/** Any number of threads, each running a script of critical sections over shared leaf locks.

    A thread takes its key, acquires the locks of a collection (one call on a leaf lock per step,
    following `Protocol`), uses the protected data, releases the locks in the order of its guard or
    collection, and gives the key back or keeps it for the next section. It may also panic in the
    middle of a section, which releases everything, or forget its guard, which releases nothing. */
module Machine {
  import opened Locks
  import opened Protocol

  // ---------- What a thread asks for ----------

  /** One access to the protected data: registers are the closure's own variables. */
  datatype Op =
    | Get(l: Lock, r: nat)
    | Put(l: Lock, f: map<nat, int> -> int)

  datatype Req = Req(plan: Plan, mode: Mode, release: seq<Lock>, body: seq<Op>)

  datatype Status =
    | Idle                                   // the key is not taken
    | Ready                                  // the key is in hand
    | Acquiring(ph: Phase)
    | Critical(k: nat, regs: map<nat, int>)  // k accesses of the body done
    | Releasing(rest: seq<Lock>)
    | Forgotten                              // the guard was leaked, and the key with it

  /** `cell` is the thread's key cell: true while the key is somewhere. */
  datatype Thread = Thread(script: seq<Req>, cell: bool, at: Status)

  /** A committed critical section: the accesses it made, and whether it ran to its end. */
  datatype Entry = Entry(who: Tid, ops: seq<Op>, whole: bool)

  datatype State = State(threads: seq<Thread>, table: Table, data: map<Lock, int>, log: seq<Entry>)

  datatype Action =
    | TakeKey | DropKey | Begin
    | Sync(ev: Event)
    | Enter | GiveUp
    | Use | Finish | Forget
    | Unlock | Return(keep: bool)

  // ---------- Data ----------

  function Val(data: map<Lock, int>, l: Lock): int {
    if l in data then data[l] else 0
  }

  function Reg(regs: map<nat, int>, r: nat): int {
    if r in regs then regs[r] else 0
  }

  function RegsAfter(op: Op, regs: map<nat, int>, data: map<Lock, int>): map<nat, int> {
    match op
    case Get(l, r) => regs[r := Val(data, l)]
    case Put(_, _) => regs
  }

  function DataAfter(op: Op, regs: map<nat, int>, data: map<Lock, int>): map<Lock, int> {
    match op
    case Get(_, _) => data
    case Put(l, f) => data[l := f(regs)]
  }

  // ---------- Steps ----------

  predicate Active(at: Status) {
    !at.Idle? && !at.Ready?
  }

  /** The leaf locks a thread holds, read off its own state. */
  function Holding(th: Thread): set<Lock> {
    if th.script == [] then {}
    else
      match th.at
      case Idle => {}
      case Ready => {}
      case Acquiring(ph) => if PhaseOk(th.script[0].plan, ph) then Held(th.script[0].plan, ph) else {}
      case Critical(_, _) => All(th.script[0].plan)
      case Releasing(rest) => Elems(rest)
      case Forgotten => All(th.script[0].plan)
  }

  ghost predicate ReqOk(rank: Lock -> int, req: Req) {
    && Distinct(req.plan)
    && (forall i, p, q | 0 <= i < |req.plan.groups| && 0 <= p < q < |req.plan.groups[i]| ::
          rank(req.plan.groups[i][p]) < rank(req.plan.groups[i][q]))
    && NoDup(req.release) && Elems(req.release) == All(req.plan)
    && (forall k | 0 <= k < |req.body| ::
          req.body[k].l in All(req.plan) && (req.body[k].Put? ==> req.mode == Write))
  }

  ghost predicate ThreadOk(rank: Lock -> int, th: Thread) {
    && (forall i | 0 <= i < |th.script| :: ReqOk(rank, th.script[i]))
    && (th.cell <==> !th.at.Idle?)
    && (Active(th.at) ==> th.script != [])
    && match th.at {
      case Acquiring(ph) => PhaseOk(th.script[0].plan, ph)
      case Critical(k, _) => k <= |th.script[0].body|
      case Releasing(rest) => NoDup(rest) && Elems(rest) <= All(th.script[0].plan)
      case _ => true
    }
  }

  /** Whether the thread's own state allows the action, the locks and data aside. */
  ghost predicate Allows(th: Thread, a: Action) {
    match a
    case TakeKey => th.at.Idle? && !th.cell && th.script != []
    case DropKey => th.at.Ready? && th.script == []
    case Begin => th.at.Ready? && th.script != []
    case Sync(ev) => th.at.Acquiring? && th.script != [] && PhaseOk(th.script[0].plan, th.at.ph)
                     && Next(th.script[0].plan, th.at.ph, ev).Some?
    case Enter => th.at == Acquiring(Got)
    case GiveUp => th.at == Acquiring(Failed) && th.script != []
    case Use => th.at.Critical? && th.script != [] && th.at.k < |th.script[0].body|
    case Finish => th.at.Critical? && th.script != [] && th.at.k <= |th.script[0].body|
    case Forget => th.at.Critical? && th.script != [] && th.at.k <= |th.script[0].body|
    case Unlock => th.at.Releasing? && th.script != [] && th.at.rest != []
    case Return(_) => th.at.Releasing? && th.at.rest == [] && th.script != []
  }

  /** A blocking call returns only once the lock can be taken; a trial answers at once. */
  ghost predicate Can(s: State, t: Tid, a: Action) {
    && t < |s.threads|
    && Allows(s.threads[t], a)
    && (a.Sync? && a.ev.Acquired? ==> CanTake(HoldAt(s.table, a.ev.l), s.threads[t].script[0].mode))
    && (a.Sync? && a.ev.Tried? ==> a.ev.ok == CanTake(HoldAt(s.table, a.ev.l), s.threads[t].script[0].mode))
  }

  ghost function Moved(th: Thread, a: Action, data: map<Lock, int>): Thread
    requires Allows(th, a)
  {
    match a
    case TakeKey => th.(cell := true, at := Ready)
    case DropKey => th.(cell := false, at := Idle)
    case Begin => th.(at := Acquiring(Start(th.script[0].plan)))
    case Sync(ev) => th.(at := Acquiring(Next(th.script[0].plan, th.at.ph, ev).value))
    case Enter => th.(at := Critical(0, map[]))
    case GiveUp => th.(script := th.script[1..], at := Ready)
    case Use => th.(at := Critical(th.at.k + 1, RegsAfter(th.script[0].body[th.at.k], th.at.regs, data)))
    case Finish => th.(at := Releasing(th.script[0].release))
    case Forget => th.(at := Forgotten)
    case Unlock => th.(at := Releasing(th.at.rest[1..]))
    case Return(keep) => Thread(th.script[1..], keep, if keep then Ready else Idle)
  }

  datatype Effect = Gain(l: Lock) | Lose(l: Lock) | NoEffect

  /** What an action does to the lock table. */
  ghost function EffectOf(th: Thread, a: Action): Effect
    requires Allows(th, a)
  {
    match a
    case Sync(Acquired(l)) => Gain(l)
    case Sync(Tried(l, ok)) => if ok then Gain(l) else NoEffect
    case Sync(Released(l)) => Lose(l)
    case Unlock => Lose(th.at.rest[0])
    case _ => NoEffect
  }

  ghost function After(s: State, t: Tid, a: Action): State
    requires Can(s, t, a)
  {
    var th := s.threads[t];
    var threads := s.threads[t := Moved(th, a, s.data)];
    var table :=
      match EffectOf(th, a)
      case Gain(l) => s.table[l := Take(HoldAt(s.table, l), t, th.script[0].mode)]
      case Lose(l) => s.table[l := Drop(HoldAt(s.table, l), t, th.script[0].mode)]
      case NoEffect => s.table;
    var data := if a.Use? then DataAfter(th.script[0].body[th.at.k], th.at.regs, s.data) else s.data;
    var log := if a.Finish? || a.Forget?
               then s.log + [Entry(t, th.script[0].body[..th.at.k], th.at.k == |th.script[0].body|)]
               else s.log;
    State(threads, table, data, log)
  }

  ghost predicate Step(s: State, s': State) {
    exists t: Tid, a: Action :: Can(s, t, a) && s' == After(s, t, a)
  }

  ghost predicate IsRun(run: seq<State>) {
    run != [] && forall k | 0 <= k < |run| - 1 :: Step(run[k], run[k + 1])
  }

  ghost predicate Init(rank: Lock -> int, s: State) {
    && (forall t | 0 <= t < |s.threads| ::
          ThreadOk(rank, s.threads[t]) && s.threads[t].at == Idle)
    && s.table == map[] && s.log == []
  }

  // ---------- The invariant ----------

  function ModeOf(th: Thread): Mode {
    if th.script == [] then Write else th.script[0].mode
  }

  /** Thread t holds lock l, going by its own state. */
  predicate Holds(s: State, t: Tid, l: Lock) {
    t < |s.threads| && l in Holding(s.threads[t])
  }

  /** The threads holding l in mode m. */
  function Holders(s: State, l: Lock, m: Mode): set<Tid> {
    set t: Tid | t < |s.threads| && l in Holding(s.threads[t])
                 && s.threads[t].script != [] && s.threads[t].script[0].mode == m
  }

  /** A raw lock state that says exactly who writes and who reads. */
  ghost predicate Agrees(h: Hold, writers: set<Tid>, readers: set<Tid>) {
    match h
    case Free => writers == {} && readers == {}
    case Writer(u) => writers == {u} && readers == {}
    case Readers(who) =>
      && writers == {} && readers != {}
      && who == multiset(readers)
  }

  ghost predicate LockOk(s: State, l: Lock) {
    Agrees(HoldAt(s.table, l), Holders(s, l, Write), Holders(s, l, Read))
  }

  /** Every thread is well formed, and the table says exactly what the threads' own states say. */
  ghost predicate Inv(rank: Lock -> int, s: State) {
    && (forall t | 0 <= t < |s.threads| :: ThreadOk(rank, s.threads[t]))
    && (forall l: Lock :: LockOk(s, l))
  }

  lemma InitInv(rank: Lock -> int, s: State)
    requires Init(rank, s)
    ensures Inv(rank, s)
  {
  }

  /** An action keeps a thread well formed and changes what it holds as its effect says. */
  lemma MovedOk(rank: Lock -> int, th: Thread, a: Action, data: map<Lock, int>)
    requires ThreadOk(rank, th) && Allows(th, a)
    ensures ThreadOk(rank, Moved(th, a, data))
    ensures match EffectOf(th, a)
            case Gain(l) => l !in Holding(th) && Holding(Moved(th, a, data)) == Holding(th) + {l}
            case Lose(l) => l in Holding(th) && Holding(Moved(th, a, data)) == Holding(th) - {l}
            case NoEffect => Holding(Moved(th, a, data)) == Holding(th)
    ensures EffectOf(th, a) != NoEffect ==> th.script != [] && Moved(th, a, data).script == th.script
    ensures Moved(th, a, data).script == th.script || (Holding(th) == {} && Holding(Moved(th, a, data)) == {})
  {
    match a
    case Begin => StartHoldsNothing(th.script[0].plan);
    case Sync(ev) =>
      assert ReqOk(rank, th.script[0]);
      NextHeld(th.script[0].plan, th.at.ph, ev);
    case Finish => assert ReqOk(rank, th.script[0]);
    case Unlock =>
      var rest := th.at.rest;
      assert rest == [rest[0]] + rest[1..];
    case _ =>
  }

  lemma TakeAgrees(h: Hold, writers: set<Tid>, readers: set<Tid>, t: Tid, m: Mode)
    requires Agrees(h, writers, readers) && t !in writers + readers && CanTake(h, m)
    ensures m == Write ==> Agrees(Take(h, t, m), writers + {t}, readers)
    ensures m == Read ==> Agrees(Take(h, t, m), writers, readers + {t})
  {
    assert t in readers + {t};
  }

  lemma DropAgrees(h: Hold, writers: set<Tid>, readers: set<Tid>, t: Tid, m: Mode)
    requires Agrees(h, writers, readers) && t in (if m == Write then writers else readers)
    ensures m == Write ==> Agrees(Drop(h, t, m), writers - {t}, readers)
    ensures m == Read ==> Agrees(Drop(h, t, m), writers, readers - {t})
  {
    if m == Read {
      assert h.who - multiset{t} == multiset(readers - {t});
      if readers - {t} != {} {
        var u :| u in readers - {t};
        assert multiset(readers - {t})[u] == 1;
      }
    }
  }

  /** The holders of a lock after a step: the acting thread's effect, and nothing else. */
  lemma HoldersAfter(rank: Lock -> int, s: State, t: Tid, a: Action, l: Lock, m: Mode)
    requires Inv(rank, s) && Can(s, t, a)
    ensures var e := EffectOf(s.threads[t], a);
            Holders(After(s, t, a), l, m) ==
            if e == Gain(l) && m == ModeOf(s.threads[t]) then Holders(s, l, m) + {t}
            else if e == Lose(l) && m == ModeOf(s.threads[t]) then Holders(s, l, m) - {t}
            else Holders(s, l, m)
    ensures EffectOf(s.threads[t], a) == Gain(l) ==> t !in Holders(s, l, m)
    ensures EffectOf(s.threads[t], a) == Lose(l) ==> t in Holders(s, l, ModeOf(s.threads[t]))
  {
    MovedOk(rank, s.threads[t], a, s.data);
  }

  lemma StepKeepsLock(rank: Lock -> int, s: State, t: Tid, a: Action, l: Lock)
    requires Inv(rank, s) && Can(s, t, a)
    ensures LockOk(After(s, t, a), l)
  {
    var s' := After(s, t, a);
    var e := EffectOf(s.threads[t], a);
    var h, writers, readers := HoldAt(s.table, l), Holders(s, l, Write), Holders(s, l, Read);
    assert LockOk(s, l);
    HoldersAfter(rank, s, t, a, l, Write);
    HoldersAfter(rank, s, t, a, l, Read);
    match e
    case Gain(x) =>
      if x == l { TakeAgrees(h, writers, readers, t, ModeOf(s.threads[t])); }
    case Lose(x) =>
      if x == l { DropAgrees(h, writers, readers, t, ModeOf(s.threads[t])); }
    case NoEffect =>
  }

  lemma StepKeepsInv(rank: Lock -> int, s: State, s': State)
    requires Inv(rank, s) && Step(s, s')
    ensures Inv(rank, s')
  {
    var t: Tid, a: Action :| Can(s, t, a) && s' == After(s, t, a);
    MovedOk(rank, s.threads[t], a, s.data);
    forall l: Lock ensures LockOk(s', l) {
      StepKeepsLock(rank, s, t, a, l);
    }
  }

  lemma {:induction false} RunKeepsInv(rank: Lock -> int, run: seq<State>, k: nat)
    requires IsRun(run) && Inv(rank, run[0]) && k < |run|
    ensures Inv(rank, run[k])
  {
    if k > 0 {
      RunKeepsInv(rank, run, k - 1);
      StepKeepsInv(rank, run[k - 1], run[k]);
    }
  }

  // ---------- Putting runs together ----------

  lemma RunFrom(s: State, rest: seq<State>)
    requires IsRun(rest) && Step(s, rest[0])
    ensures IsRun([s] + rest)
  {
    var run := [s] + rest;
    forall k | 0 <= k < |run| - 1 ensures Step(run[k], run[k + 1]) {
      if k > 0 { assert Step(rest[k - 1], rest[k - 1 + 1]); }
    }
  }

  lemma RunsMeet(a: seq<State>, b: seq<State>)
    requires IsRun(a) && IsRun(b) && a[|a| - 1] == b[0]
    ensures IsRun(a + b[1..])
  {
    var run := a + b[1..];
    forall k | 0 <= k < |run| - 1 ensures Step(run[k], run[k + 1]) {
      if k < |a| - 1 {
        assert Step(a[k], a[k + 1]);
      } else {
        var j := k - (|a| - 1);
        assert Step(b[j], b[j + 1]);
      }
    }
  }

  // ---------- First consequences ----------

  /** Mutual exclusion: two threads hold the same lock only if both are reading. */
  lemma Exclusive(rank: Lock -> int, s: State, t: Tid, u: Tid, l: Lock)
    requires Inv(rank, s) && Holds(s, t, l) && Holds(s, u, l) && t != u
    ensures ModeOf(s.threads[t]) == Read && ModeOf(s.threads[u]) == Read
  {
    assert LockOk(s, l);
    assert t in Holders(s, l, ModeOf(s.threads[t]));
    assert u in Holders(s, l, ModeOf(s.threads[u]));
  }

  /** A lock refuses a thread only because another thread holds it in a conflicting mode. */
  lemma RefusedByHolder(rank: Lock -> int, s: State, l: Lock, m: Mode) returns (u: Tid)
    requires Inv(rank, s) && !CanTake(HoldAt(s.table, l), m)
    ensures Holds(s, u, l) && (m == Write || ModeOf(s.threads[u]) == Write)
  {
    assert LockOk(s, l);
    if Holders(s, l, Write) != {} {
      u :| u in Holders(s, l, Write);
    } else {
      u :| u in Holders(s, l, Read);
    }
  }

  lemma HolderRefuses(rank: Lock -> int, s: State, u: Tid, l: Lock, m: Mode)
    requires Inv(rank, s) && Holds(s, u, l) && (m == Write || ModeOf(s.threads[u]) == Write)
    ensures !CanTake(HoldAt(s.table, l), m)
  {
    assert LockOk(s, l);
    assert u in Holders(s, l, ModeOf(s.threads[u]));
  }

  /** A forgotten guard holds every lock of its section from then on, in every later state of every run;
      its thread makes no further move, and its cell stays as it was. */
  lemma {:induction false} ForgottenHoldsForever(run: seq<State>, j: nat, k: nat, t: Tid)
    requires IsRun(run) && j < k < |run| && Can(run[j], t, Forget) && run[j + 1] == After(run[j], t, Forget)
    ensures t < |run[k].threads| && run[k].threads[t] == run[j].threads[t].(at := Forgotten)
    ensures Holding(run[k].threads[t]) == All(run[j].threads[t].script[0].plan)
    decreases k
  {
    if k > j + 1 {
      ForgottenHoldsForever(run, j, k - 1, t);
      assert Step(run[k - 1], run[k - 1 + 1]);
      var u: Tid, a: Action :| Can(run[k - 1], u, a) && run[k] == After(run[k - 1], u, a);
      assert u != t;
    }
  }

  /** A thread whose key can be had or is in hand appears nowhere in the lock table, in any
      reachable state; its cell is locked exactly while the key is in hand, lent to an
      acquisition, inside a guard, or lost with a forgotten guard. */
  lemma KeyInHandHoldsNothing(rank: Lock -> int, run: seq<State>, k: nat, t: Tid, l: Lock)
    requires IsRun(run) && Init(rank, run[0]) && k < |run| && t < |run[k].threads|
    ensures run[k].threads[t].cell <==> run[k].threads[t].at.Ready? || Active(run[k].threads[t].at)
    ensures !Active(run[k].threads[t].at) ==>
            match HoldAt(run[k].table, l)
            case Free => true
            case Writer(u) => u != t
            case Readers(who) => t !in who
  {
    InitInv(rank, run[0]);
    RunKeepsInv(rank, run, k);
    assert LockOk(run[k], l);
  }
}
