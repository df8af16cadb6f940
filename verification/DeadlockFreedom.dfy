/** Deadlock freedom of the mixed system, and termination where the library promises it. */
module DeadlockFreedom {
  import opened Locks
  import opened Protocol
  import opened Machine

  // ---------- No circular wait ----------

  /** Thread t sits in a blocking call. */
  predicate AtBlockingCall(s: State, t: Tid) {
    t < |s.threads| && s.threads[t].script != [] && s.threads[t].at.Acquiring? && s.threads[t].at.ph.Block?
    && PhaseOk(s.threads[t].script[0].plan, s.threads[t].at.ph)
  }

  function Asked(s: State, t: Tid): Lock
    requires AtBlockingCall(s, t)
  {
    s.threads[t].script[0].plan.groups[s.threads[t].at.ph.f][s.threads[t].at.ph.p]
  }

  /** Thread t is blocked on a lock that thread u holds in a conflicting mode. */
  ghost predicate WaitsFor(s: State, t: Tid, u: Tid) {
    && AtBlockingCall(s, t)
    && Holds(s, u, Asked(s, t))
    && (ModeOf(s.threads[t]) == Write || ModeOf(s.threads[u]) == Write)
  }

  /** Whatever the algorithm, a thread in a blocking call holds only locks of smaller rank. */
  lemma BlockedHoldsBelow(rank: Lock -> int, s: State, t: Tid, l: Lock)
    requires Inv(rank, s) && AtBlockingCall(s, t) && Holds(s, t, l)
    ensures rank(l) < rank(Asked(s, t))
  {
    var g, p := s.threads[t].script[0].plan.groups[s.threads[t].at.ph.f], s.threads[t].at.ph.p;
    assert ReqOk(rank, s.threads[t].script[0]);
    var q :| 0 <= q < |g[..p]| && g[..p][q] == l;
    assert g[q] == l && q < p;
  }

  ghost predicate WaitCycle(s: State, cycle: seq<Tid>) {
    && cycle != []
    && (forall j, k | 0 <= j && k == j + 1 && k < |cycle| :: WaitsFor(s, cycle[j], cycle[k]))
    && WaitsFor(s, cycle[|cycle| - 1], cycle[0])
  }

  lemma {:induction false} RankClimbs(rank: Lock -> int, s: State, chain: seq<Tid>, k: nat)
    requires Inv(rank, s) && k < |chain|
    requires forall i | 0 <= i < |chain| :: AtBlockingCall(s, chain[i])
    requires forall i, j | 0 <= i && j == i + 1 && j < |chain| :: WaitsFor(s, chain[i], chain[j])
    ensures rank(Asked(s, chain[0])) + k <= rank(Asked(s, chain[k]))
  {
    if k > 0 {
      RankClimbs(rank, s, chain, k - 1);
      BlockedHoldsBelow(rank, s, chain[k], Asked(s, chain[k - 1]));
    }
  }

  lemma NoWaitCycle(rank: Lock -> int, s: State, cycle: seq<Tid>)
    requires Inv(rank, s)
    ensures !WaitCycle(s, cycle)
  {
    if WaitCycle(s, cycle) {
      var last := |cycle| - 1;
      forall k | 0 <= k < |cycle| ensures AtBlockingCall(s, cycle[k]) {
        if k < last { assert WaitsFor(s, cycle[k], cycle[k + 1]); }
      }
      RankClimbs(rank, s, cycle, last);
      BlockedHoldsBelow(rank, s, cycle[0], Asked(s, cycle[last]));
    }
  }

  /** No reachable state of any mix of collections, modes, panics and forgotten guards has a
      circular wait. */
  lemma DeadlockFree(rank: Lock -> int, run: seq<State>, k: nat, cycle: seq<Tid>)
    requires IsRun(run) && Init(rank, run[0]) && k < |run|
    ensures !WaitCycle(run[k], cycle)
  {
    InitInv(rank, run[0]);
    RunKeepsInv(rank, run, k);
    NoWaitCycle(rank, run[k], cycle);
  }

  // ---------- Sums over threads ----------

  function Total(f: Thread -> nat, ths: seq<Thread>): nat {
    if ths == [] then 0 else f(ths[0]) + Total(f, ths[1..])
  }

  lemma {:induction false} TotalUpdate(f: Thread -> nat, ths: seq<Thread>, t: nat, th: Thread)
    requires t < |ths|
    ensures Total(f, ths[t := th]) + f(ths[t]) == Total(f, ths) + f(th)
  {
    if t == 0 {
      assert ths[0 := th][1..] == ths[1..];
    } else {
      TotalUpdate(f, ths[1..], t - 1, th);
      assert ths[t := th][1..] == ths[1..][t - 1 := th];
    }
  }

  lemma {:induction false} TotalOne(f: Thread -> nat, ths: seq<Thread>, t: nat)
    requires t < |ths|
    ensures f(ths[t]) <= Total(f, ths)
  {
    if t > 0 { TotalOne(f, ths[1..], t - 1); }
  }

  lemma {:induction false} TotalTwo(f: Thread -> nat, ths: seq<Thread>, t: nat, u: nat)
    requires t < u < |ths|
    ensures f(ths[t]) + f(ths[u]) <= Total(f, ths)
  {
    if t == 0 { TotalOne(f, ths[1..], u - 1); } else { TotalTwo(f, ths[1..], t - 1, u - 1); }
  }

  lemma {:induction false} TotalZero(f: Thread -> nat, ths: seq<Thread>)
    requires forall t | 0 <= t < |ths| :: f(ths[t]) == 0
    ensures Total(f, ths) == 0
  {
    if ths != [] { TotalZero(f, ths[1..]); }
  }

  // ---------- Remaining work ----------

  function TrialCost(plan: Plan, first: int, i: nat, p: nat): nat
    requires i <= |plan.groups|
    requires i < |plan.groups| ==> p <= |plan.groups[i]|
    decreases |plan.groups| - i
  {
    if i == |plan.groups| then 0
    else (if i == first then 0 else |plan.groups[i]| - p) + TrialCost(plan, first, i + 1, 0)
  }

  function BlockCost(plan: Plan, f: nat, p: nat): nat
    requires f < |plan.groups| && p <= |plan.groups[f]|
  {
    |plan.groups[f]| - p + TrialCost(plan, f, 0, 0)
  }

  function StartCost(plan: Plan): nat {
    if plan.trying then TrialCost(plan, -1, 0, 0)
    else if plan.groups == [] then 0
    else BlockCost(plan, 0, 0)
  }

  /** Calls left until an acquisition succeeds if nothing refuses it from now on. */
  function PhaseCost(plan: Plan, ph: Phase): nat
    requires PhaseOk(plan, ph)
  {
    match ph
    case Block(f, p) => BlockCost(plan, f, p)
    case Trial(first, i, p) => TrialCost(plan, first, i, p)
    case Undo(rest, next) => |rest| + if plan.trying then 0 else BlockCost(plan, next, 0)
    case Got => 0
    case Failed => 0
  }

  lemma SettleTrialCost(plan: Plan, first: int, i: nat, p: nat)
    requires -1 <= first < |plan.groups| && (plan.trying <==> first == -1)
    requires i <= |plan.groups|
    requires i < |plan.groups| ==> p <= |plan.groups[i]| && (i == first ==> p == 0)
    ensures PhaseOk(plan, SettleTrial(plan, first, i, p))
    ensures PhaseCost(plan, SettleTrial(plan, first, i, p)) == TrialCost(plan, first, i, p)
    decreases |plan.groups| - i
  {
    SettleTrialHeld(plan, first, i, p);
    if i < |plan.groups| && (i == first || p == |plan.groups[i]|) {
      SettleTrialCost(plan, first, i + 1, 0);
    }
  }

  lemma SettleBlockCost(plan: Plan, f: nat, p: nat)
    requires !plan.trying && f < |plan.groups| && p <= |plan.groups[f]|
    ensures PhaseOk(plan, SettleBlock(plan, f, p))
    ensures PhaseCost(plan, SettleBlock(plan, f, p)) == BlockCost(plan, f, p)
  {
    if p == |plan.groups[f]| { SettleTrialCost(plan, f, 0, 0); }
  }

  /** Steps a thread still has to make, starting with its key in hand, if nothing refuses it. */
  function ScriptCost(script: seq<Req>): nat {
    if script == [] then 1
    else 1 + StartCost(script[0].plan) + |script[0].body| + |script[0].release| + 4 + ScriptCost(script[1..])
  }

  function AcquireCost(req: Req, ph: Phase): nat
    requires PhaseOk(req.plan, ph)
  {
    PhaseCost(req.plan, ph)
    + if req.plan.trying && (ph.Undo? || ph.Failed?) then 1 else |req.body| + |req.release| + 4
  }

  function Solo(th: Thread): nat {
    match th.at
    case Idle => if th.script == [] then 0 else 1 + ScriptCost(th.script)
    case Ready => ScriptCost(th.script)
    case Forgotten => 0
    case Acquiring(ph) =>
      if th.script == [] || !PhaseOk(th.script[0].plan, ph) then 0
      else AcquireCost(th.script[0], ph) + ScriptCost(th.script[1..])
    case Critical(k, _) =>
      if th.script == [] || k > |th.script[0].body| then 0
      else |th.script[0].body| - k + |th.script[0].release| + 3 + ScriptCost(th.script[1..])
    case Releasing(rest) =>
      if th.script == [] then 0 else |rest| + 2 + ScriptCost(th.script[1..])
  }

  function Work(s: State): nat {
    Total(Solo, s.threads)
  }

  /** A trial of a retrying acquisition that was refused: the only step that makes work. */
  predicate Rollback(th: Thread, a: Action) {
    a.Sync? && a.ev.Tried? && !a.ev.ok && th.script != [] && !th.script[0].plan.trying
  }

  lemma {:induction false} ElemsSize<T>(s: seq<T>)
    ensures |Elems(s)| <= |s|
  {
    if s != [] {
      ElemsSize(s[1..]);
      assert Elems(s) == {s[0]} + Elems(s[1..]);
    }
  }

  lemma SubsetSize<T>(a: set<T>, b: set<T>)
    requires a <= b
    ensures |a| <= |b|
  {
    assert b == a + (b - a);
  }

  lemma MovedCost(rank: Lock -> int, th: Thread, a: Action, data: map<Lock, int>)
    requires ThreadOk(rank, th) && Allows(th, a) && !Rollback(th, a)
    ensures Solo(Moved(th, a, data)) < Solo(th)
  {
    MovedOk(rank, th, a, data);
    match a
    case Begin =>
      var plan := th.script[0].plan;
      if plan.trying { SettleTrialCost(plan, -1, 0, 0); }
      else if plan.groups != [] { SettleBlockCost(plan, 0, 0); }
    case Sync(ev) => SyncCost(rank, th.script[0], th.at.ph, ev);
    case _ =>
  }

  lemma NextCost(plan: Plan, ph: Phase, ev: Event)
    requires Distinct(plan) && PhaseOk(plan, ph) && Next(plan, ph, ev).Some? && !(ev.Tried? && !ev.ok)
    ensures PhaseOk(plan, Next(plan, ph, ev).value)
    ensures PhaseCost(plan, Next(plan, ph, ev).value) < PhaseCost(plan, ph)
  {
    match (ph, ev)
    case (Block(f, p), Acquired(l)) => SettleBlockCost(plan, f, p + 1);
    case (Trial(first, i, p), Tried(l, ok)) => SettleTrialCost(plan, first, i, p + 1);
    case (Undo(rest, next), Released(l)) =>
      if rest - {l} == {} && !plan.trying { SettleBlockCost(plan, next, 0); }
      else { NextHeld(plan, ph, ev); }
  }

  /** A try-lock that fails gives back fewer locks than a success would have released. */
  lemma HeldIsReleasable(rank: Lock -> int, req: Req, ph: Phase)
    requires ReqOk(rank, req) && PhaseOk(req.plan, ph)
    ensures |Held(req.plan, ph)| <= |req.release|
  {
    HeldInAll(req.plan, ph);
    SubsetSize(Held(req.plan, ph), All(req.plan));
    ElemsSize(req.release);
  }

  lemma RefusedTryCost(req: Req, ph: Phase, held: set<Lock>, next: nat)
    requires req.plan.trying && PhaseOk(req.plan, ph) && ph.Trial? && next < |req.plan.groups|
    requires |held| <= |req.release| && PhaseOk(req.plan, SettleUndo(req.plan, held, next))
    ensures AcquireCost(req, SettleUndo(req.plan, held, next)) < AcquireCost(req, ph)
  {
  }

  lemma NextKind(plan: Plan, ph: Phase, ev: Event)
    requires PhaseOk(plan, ph) && Next(plan, ph, ev).Some?
    ensures var ph' := Next(plan, ph, ev).value;
            if plan.trying && (ph.Undo? || (ev.Tried? && !ev.ok)) then ph'.Undo? || ph'.Failed?
            else (ev.Tried? && !ev.ok) || !(plan.trying && (ph'.Undo? || ph'.Failed?))
  {
    match (ph, ev)
    case (Block(f, p), Acquired(l)) => SettleBlockHeld(plan, f, p + 1);
    case (Trial(first, i, p), Tried(l, ok)) =>
      if ok { SettleTrialHeld(plan, first, i, p + 1); }
    case _ =>
  }

  lemma SyncCost(rank: Lock -> int, req: Req, ph: Phase, ev: Event)
    requires ReqOk(rank, req) && PhaseOk(req.plan, ph) && Next(req.plan, ph, ev).Some?
    requires ev.Tried? && !ev.ok ==> req.plan.trying
    ensures PhaseOk(req.plan, Next(req.plan, ph, ev).value)
    ensures AcquireCost(req, Next(req.plan, ph, ev).value) < AcquireCost(req, ph)
  {
    NextHeld(req.plan, ph, ev);
    if ev.Tried? && !ev.ok {
      HeldIsReleasable(rank, req, ph);
      RefusedTryCost(req, ph, Held(req.plan, ph), ph.i);
    } else {
      NextKind(req.plan, ph, ev);
      NextCost(req.plan, ph, ev);
    }
  }

  lemma StepWork(rank: Lock -> int, s: State, t: Tid, a: Action)
    requires Inv(rank, s) && Can(s, t, a) && !Rollback(s.threads[t], a)
    ensures Work(After(s, t, a)) < Work(s)
  {
    MovedCost(rank, s.threads[t], a, s.data);
    TotalUpdate(Solo, s.threads, t, Moved(s.threads[t], a, s.data));
  }

  // ---------- Some schedule always finishes ----------

  ghost predicate Done(s: State) {
    && (forall t | 0 <= t < |s.threads| :: s.threads[t].at.Idle? && s.threads[t].script == [])
    && (forall l: Lock :: HoldAt(s.table, l) == Free)
  }

  predicate NoneForgotten(s: State) {
    forall t | 0 <= t < |s.threads| :: !s.threads[t].at.Forgotten?
  }

  /** Past the first lock of a blocking group, or trying the rest: what a refusal may set back. */
  function Engaged(th: Thread): nat {
    if th.at.Acquiring? && (th.at.ph.Trial? || (th.at.ph.Block? && th.at.ph.p > 0)) then 1 else 0
  }

  /** Engaged threads beyond the first. */
  function Crowd(s: State): nat {
    var n := Total(Engaged, s.threads);
    if n == 0 then 0 else n - 1
  }

  predicate Closer(s': State, s: State) {
    Crowd(s') < Crowd(s) || (Crowd(s') == Crowd(s) && Work(s') < Work(s))
  }

  /** Neither a panic nor a forgotten guard. */
  predicate Regular(th: Thread, a: Action) {
    !a.Forget? && (a.Finish? ==> th.at.Critical? && th.script != [] && th.at.k == |th.script[0].body|)
  }

  lemma StepCloser(rank: Lock -> int, s: State, t: Tid, a: Action)
    requires Inv(rank, s) && Can(s, t, a) && !Rollback(s.threads[t], a)
    requires Engaged(Moved(s.threads[t], a, s.data)) <= Engaged(s.threads[t]) || Total(Engaged, s.threads) == 0
    ensures Closer(After(s, t, a), s)
  {
    StepWork(rank, s, t, a);
    TotalUpdate(Engaged, s.threads, t, Moved(s.threads[t], a, s.data));
  }

  predicate Winding(s: State, t: Tid) {
    t < |s.threads| &&
    var at := s.threads[t].at;
    at.Critical? || at.Releasing? || (at.Acquiring? && (at.ph.Undo? || at.ph.Got? || at.ph.Failed?))
  }

  predicate Trying(s: State, t: Tid) {
    t < |s.threads| && s.threads[t].at.Acquiring? && s.threads[t].at.ph.Trial?
  }

  /** A thread that is neither waiting to start, blocked, nor trying makes one step of its own. */
  lemma FinishingStep(rank: Lock -> int, s: State, t: Tid) returns (a: Action)
    requires Inv(rank, s) && Winding(s, t)
    ensures Can(s, t, a) && Regular(s.threads[t], a) && Closer(After(s, t, a), s)
  {
    var th := s.threads[t];
    if th.at.Critical? {
      a := if th.at.k < |th.script[0].body| then Use else Finish;
    } else if th.at.Releasing? {
      a := if th.at.rest != [] then Unlock else Return(true);
    } else if th.at.ph.Undo? {
      var l :| l in th.at.ph.rest;
      a := Sync(Released(l));
      UndoNotEngaged(th.script[0].plan, th.at.ph, l);
    } else {
      a := if th.at.ph.Got? then Enter else GiveUp;
    }
    StepCloser(rank, s, t, a);
  }

  /** With nobody winding down, whoever holds a lock is engaged. */
  lemma HolderEngaged(rank: Lock -> int, s: State, u: Tid, l: Lock)
    requires Inv(rank, s) && NoneForgotten(s) && Holds(s, u, l) && !Winding(s, u)
    ensures Engaged(s.threads[u]) == 1
  {
  }

  lemma TrialStep(rank: Lock -> int, s: State, t: Tid) returns (a: Action)
    requires Inv(rank, s) && NoneForgotten(s) && Trying(s, t) && forall u: Tid :: !Winding(s, u)
    ensures Can(s, t, a) && Regular(s.threads[t], a) && Closer(After(s, t, a), s)
  {
    var th := s.threads[t];
    var plan, ph := th.script[0].plan, th.at.ph;
    var l := plan.groups[ph.i][ph.p];
    var ok := CanTake(HoldAt(s.table, l), ModeOf(th));
    a := Sync(Tried(l, ok));
    assert ReqOk(rank, th.script[0]);
    AskedIsNotHeld(plan, ph);
    if ok || plan.trying {
      StepCloser(rank, s, t, a);
    } else {
      var u := RefusedByHolder(rank, s, l, ModeOf(th));
      HolderEngaged(rank, s, u, l);
      if t < u { TotalTwo(Engaged, s.threads, t, u); } else { TotalTwo(Engaged, s.threads, u, t); }
      RefusedNotEngaged(plan, ph, l);
      TotalUpdate(Engaged, s.threads, t, Moved(th, a, s.data));
    }
  }

  lemma UndoNotEngaged(plan: Plan, ph: Phase, l: Lock)
    requires PhaseOk(plan, ph) && ph.Undo? && l in ph.rest
    ensures Next(plan, ph, Released(l)).Some?
    ensures var ph' := Next(plan, ph, Released(l)).value;
            !ph'.Trial? && (ph'.Block? ==> ph'.p == 0)
  {
  }

  lemma RefusedNotEngaged(plan: Plan, ph: Phase, l: Lock)
    requires PhaseOk(plan, ph) && ph.Trial? && l == plan.groups[ph.i][ph.p]
    ensures var ph' := Next(plan, ph, Tried(l, false)).value;
            !ph'.Trial? && (ph'.Block? ==> ph'.p == 0)
  {
  }

  /** Of the engaged threads, one that asks for a lock of the greatest rank. */
  lemma {:induction false} GreatestAsker(rank: Lock -> int, s: State, n: nat) returns (t: Tid)
    requires Inv(rank, s) && n <= |s.threads|
    requires forall u: Tid :: !Winding(s, u) && !Trying(s, u)
    requires exists u: Tid :: u < n && Engaged(s.threads[u]) == 1
    ensures t < n && Engaged(s.threads[t]) == 1 && AtBlockingCall(s, t)
    ensures forall u: Tid | u < n && Engaged(s.threads[u]) == 1 ::
              AtBlockingCall(s, u) && rank(Asked(s, u)) <= rank(Asked(s, t))
  {
    var last := n - 1;
    assert !Trying(s, last);
    if exists u: Tid :: u < last && Engaged(s.threads[u]) == 1 {
      t := GreatestAsker(rank, s, last);
      if Engaged(s.threads[last]) == 1 && rank(Asked(s, t)) < rank(Asked(s, last)) {
        t := last;
      }
    } else {
      t := last;
    }
  }

  lemma BlockedStep(rank: Lock -> int, s: State, t: Tid) returns (a: Action)
    requires Inv(rank, s) && AtBlockingCall(s, t)
    requires CanTake(HoldAt(s.table, Asked(s, t)), ModeOf(s.threads[t]))
    requires Engaged(s.threads[t]) == 1 || Total(Engaged, s.threads) == 0
    ensures Can(s, t, a) && Regular(s.threads[t], a) && Closer(After(s, t, a), s)
  {
    a := Sync(Acquired(Asked(s, t)));
    StepCloser(rank, s, t, a);
  }

  /** The engaged thread asking for the greatest lock gets it: its holder would ask for a greater one. */
  lemma EngagedStep(rank: Lock -> int, s: State) returns (t: Tid, a: Action)
    requires Inv(rank, s) && NoneForgotten(s)
    requires forall u: Tid :: !Winding(s, u) && !Trying(s, u)
    requires exists u: Tid :: u < |s.threads| && Engaged(s.threads[u]) == 1
    ensures Can(s, t, a) && Regular(s.threads[t], a) && Closer(After(s, t, a), s)
  {
    t := GreatestAsker(rank, s, |s.threads|);
    if !CanTake(HoldAt(s.table, Asked(s, t)), ModeOf(s.threads[t])) {
      var u := RefusedByHolder(rank, s, Asked(s, t), ModeOf(s.threads[t]));
      HolderEngaged(rank, s, u, Asked(s, t));
      BlockedHoldsBelow(rank, s, u, Asked(s, t));
    }
    a := BlockedStep(rank, s, t);
  }

  lemma NobodyHolds(rank: Lock -> int, s: State, l: Lock)
    requires Inv(rank, s) && NoneForgotten(s)
    requires forall u: Tid :: !Winding(s, u)
    requires forall u: Tid | u < |s.threads| :: Engaged(s.threads[u]) == 0
    ensures HoldAt(s.table, l) == Free
  {
    assert LockOk(s, l);
    if HoldAt(s.table, l) != Free {
      var u := RefusedByHolder(rank, s, l, Write);
      HolderEngaged(rank, s, u, l);
    }
  }

  lemma CalmStep(rank: Lock -> int, s: State) returns (t: Tid, a: Action)
    requires Inv(rank, s) && NoneForgotten(s) && !Done(s)
    requires forall u: Tid :: !Winding(s, u) && !Trying(s, u)
    requires forall u: Tid | u < |s.threads| :: Engaged(s.threads[u]) == 0
    ensures Can(s, t, a) && Regular(s.threads[t], a) && Closer(After(s, t, a), s)
  {
    forall l: Lock ensures HoldAt(s.table, l) == Free { NobodyHolds(rank, s, l); }
    t :| t < |s.threads| && !(s.threads[t].at.Idle? && s.threads[t].script == []);
    TotalZero(Engaged, s.threads);
    assert !Winding(s, t) && !Trying(s, t);
    if s.threads[t].at.Acquiring? {
      a := BlockedStep(rank, s, t);
    } else {
      a := if s.threads[t].at.Idle? then TakeKey else if s.threads[t].script == [] then DropKey else Begin;
      StepCloser(rank, s, t, a);
    }
  }

  /** In every state that is not finished and where no guard was forgotten, some thread has a step,
      with no panic and no forgotten guard, that brings the whole system closer to the end. */
  lemma Advance(rank: Lock -> int, s: State) returns (t: Tid, a: Action)
    requires Inv(rank, s) && NoneForgotten(s) && !Done(s)
    ensures Can(s, t, a) && Regular(s.threads[t], a) && Closer(After(s, t, a), s)
  {
    if exists u: Tid :: Winding(s, u) {
      t :| Winding(s, t);
      a := FinishingStep(rank, s, t);
    } else if exists u: Tid :: Trying(s, u) {
      t :| Trying(s, t);
      a := TrialStep(rank, s, t);
    } else if exists u: Tid :: u < |s.threads| && Engaged(s.threads[u]) == 1 {
      t, a := EngagedStep(rank, s);
    } else {
      t, a := CalmStep(rank, s);
    }
  }

  /** From every reachable state of any mix of collections in which no guard has been forgotten,
      some schedule finishes every thread with all locks free, and every critical section that it
      commits runs to its end. */
  lemma {:induction false} CanFinish(rank: Lock -> int, s: State) returns (run: seq<State>, end: State)
    requires Inv(rank, s) && NoneForgotten(s)
    ensures IsRun(run) && run[0] == s && run[|run| - 1] == end && Done(end)
    ensures s.log <= end.log && forall k | |s.log| <= k < |end.log| :: end.log[k].whole
    decreases Crowd(s), Work(s)
  {
    if Done(s) {
      run, end := [s], s;
    } else {
      var s' := AdvanceTo(rank, s);
      hide Inv, NoneForgotten, Done, Step, IsRun;
      var rest: seq<State>;
      rest, end := CanFinish(rank, s');
      run := [s] + rest;
      RunFrom(s, rest);
    }
  }

  lemma AdvanceTo(rank: Lock -> int, s: State) returns (s': State)
    requires Inv(rank, s) && NoneForgotten(s) && !Done(s)
    ensures Step(s, s') && Inv(rank, s') && NoneForgotten(s') && Closer(s', s)
    ensures s.log <= s'.log && forall k | |s.log| <= k < |s'.log| :: s'.log[k].whole
  {
    var t, a := Advance(rank, s);
    s' := After(s, t, a);
    assert Step(s, s');
    StepKeepsInv(rank, s, s');
  }

  ghost predicate Stuck(s: State) {
    forall s': State :: !Step(s, s')
  }

  /** No reachable state is stuck unless a guard was forgotten. */
  lemma NotStuck(rank: Lock -> int, s: State)
    requires Inv(rank, s) && NoneForgotten(s)
    ensures Done(s) <==> Stuck(s)
  {
    if !Done(s) {
      var t, a := Advance(rank, s);
      assert Step(s, After(s, t, a));
    }
  }

  // ---------- Ordered collections terminate under every schedule ----------

  /** Only single locks, sorted and owned collections, and try-locks of any kind. */
  ghost predicate OrderedOnly(s: State) {
    forall t, i | 0 <= t < |s.threads| && 0 <= i < |s.threads[t].script| ::
      s.threads[t].script[i].plan.trying || |s.threads[t].script[i].plan.groups| <= 1
  }

  lemma OrderedStep(rank: Lock -> int, s: State, s': State)
    requires Inv(rank, s) && OrderedOnly(s) && Step(s, s')
    ensures OrderedOnly(s') && Work(s') < Work(s)
  {
    var t: Tid, a: Action :| Can(s, t, a) && s' == After(s, t, a);
    hide Work, ThreadOk, LockOk;
    StepWork(rank, s, t, a);
  }

  /** Every run makes the remaining work smaller at each step, so it is no longer than that work. */
  lemma {:induction false} OrderedRunIsShort(rank: Lock -> int, run: seq<State>, k: nat)
    requires IsRun(run) && Inv(rank, run[0]) && OrderedOnly(run[0]) && k < |run|
    ensures Inv(rank, run[k]) && OrderedOnly(run[k]) && Work(run[k]) + k <= Work(run[0])
  {
    if k > 0 {
      OrderedRunIsShort(rank, run, k - 1);
      OrderedStep(rank, run[k - 1], run[k]);
      StepKeepsInv(rank, run[k - 1], run[k]);
    }
  }

  /** Without retrying collections every run is finite, with a bound known in advance, and a run
      that cannot go on has finished every thread and freed every lock. */
  lemma OrderedSystemTerminates(rank: Lock -> int, run: seq<State>)
    requires IsRun(run) && Init(rank, run[0]) && OrderedOnly(run[0])
    ensures |run| <= Work(run[0]) + 1
    ensures NoneForgotten(run[|run| - 1]) && Stuck(run[|run| - 1]) ==> Done(run[|run| - 1])
  {
    InitInv(rank, run[0]);
    OrderedRunIsShort(rank, run, |run| - 1);
    if NoneForgotten(run[|run| - 1]) {
      NotStuck(rank, run[|run| - 1]);
    }
  }
}
