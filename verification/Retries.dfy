/** How often a retrying acquisition rolls back, and who can make it. */
module Retries {
  import opened Locks
  import opened Protocol
  import opened Machine

  // ---------- Each rollback is paid for by a hold session of another thread ----------

  /** Thread t is inside one retrying acquisition. */
  ghost predicate InRetry(rank: Lock -> int, s: State, t: Tid) {
    && t < |s.threads| && ThreadOk(rank, s.threads[t]) && s.threads[t].at.Acquiring?
    && !s.threads[t].script[0].plan.trying
  }

  predicate RollsBack(s: State, s': State, t: Tid) {
    && t < |s.threads| && t < |s'.threads|
    && s.threads[t].at.Acquiring? && s.threads[t].at.ph.Trial?
    && s'.threads[t].at.Acquiring? && !s'.threads[t].at.ph.Trial? && !s'.threads[t].at.ph.Got?
  }

  /** A hold of another thread on one of t's locks ends. */
  ghost predicate SessionEnds(s: State, s': State, t: Tid) {
    && t < |s.threads| && s.threads[t].script != []
    && exists u: Tid, l: Lock ::
         u != t && l in All(s.threads[t].script[0].plan) && Holds(s, u, l) && !Holds(s', u, l)
  }

  ghost function Rollbacks(run: seq<State>, t: Tid): nat {
    if |run| < 2 then 0
    else Rollbacks(run[..|run| - 1], t) + if RollsBack(run[|run| - 2], run[|run| - 1], t) then 1 else 0
  }

  ghost function EndedSessions(run: seq<State>, t: Tid): nat {
    if |run| < 2 then 0
    else EndedSessions(run[..|run| - 1], t) + if SessionEnds(run[|run| - 2], run[|run| - 1], t) then 1 else 0
  }

  /** The group a thread rolled back for: it blocks on it next. */
  function Target(ph: Phase): Option<nat> {
    match ph
    case Block(f, _) => Some(f)
    case Undo(_, next) => Some(next)
    case _ => None
  }

  /** Some other thread's session on the target group is still open. */
  ghost predicate Pending(rank: Lock -> int, s: State, t: Tid)
    requires InRetry(rank, s, t)
  {
    var ph := s.threads[t].at.ph;
    Target(ph).Some? &&
    exists u: Tid, l: Lock :: PendingOn(rank, s, t, Target(ph).value, u, l)
  }

  ghost predicate PendingOn(rank: Lock -> int, s: State, t: Tid, g: nat, u: Tid, l: Lock)
    requires InRetry(rank, s, t)
  {
    && u != t && g < |s.threads[t].script[0].plan.groups| && l in s.threads[t].script[0].plan.groups[g]
    && Holds(s, u, l) && (ModeOf(s.threads[t]) == Write || ModeOf(s.threads[u]) == Write)
  }

  /** A refused trial leaves a pending session: the one that refused it. */
  lemma RollbackLeavesPending(rank: Lock -> int, s: State, t: Tid, a: Action)
    requires Inv(rank, s) && Can(s, t, a) && InRetry(rank, s, t) && InRetry(rank, After(s, t, a), t)
    requires RollsBack(s, After(s, t, a), t)
    ensures Pending(rank, After(s, t, a), t)
  {
    var s' := After(s, t, a);
    var th := s.threads[t];
    var plan, ph := th.script[0].plan, th.at.ph;
    var l := plan.groups[ph.i][ph.p];
    assert ReqOk(rank, th.script[0]);
    AskedIsNotHeld(plan, ph);
    if a.ev.ok { SettleTrialHeld(plan, ph.first, ph.i, ph.p + 1); }
    var u := RefusedByHolder(rank, s, l, ModeOf(th));
    assert Target(s'.threads[t].at.ph) == Some(ph.i);
    assert PendingOn(rank, s', t, ph.i, u, l);
  }

  /** A pending session stays pending until it ends; in particular, t cannot finish blocking on the
      group before it does. */
  lemma PendingSurvives(rank: Lock -> int, s: State, t: Tid, v: Tid, a: Action)
    requires Inv(rank, s) && Can(s, v, a) && InRetry(rank, s, t) && InRetry(rank, After(s, v, a), t)
    requires Pending(rank, s, t) && !SessionEnds(s, After(s, v, a), t)
    ensures Pending(rank, After(s, v, a), t)
  {
    var s' := After(s, v, a);
    var plan := s.threads[t].script[0].plan;
    var g := Target(s.threads[t].at.ph).value;
    var u: Tid, l: Lock :| PendingOn(rank, s, t, g, u, l);
    GroupInAll(plan, g);
    assert Holds(s', u, l);
    MovedOk(rank, s.threads[v], a, s.data);
    HolderRefuses(rank, s, u, l, ModeOf(s.threads[t]));
    if v == t {
      TargetKept(rank, s, t, a, g, u, l);
    }
    assert PendingOn(rank, s', t, g, u, l);
  }

  lemma TargetKept(rank: Lock -> int, s: State, t: Tid, a: Action, g: nat, u: Tid, l: Lock)
    requires Inv(rank, s) && Can(s, t, a) && InRetry(rank, s, t) && InRetry(rank, After(s, t, a), t)
    requires Target(s.threads[t].at.ph) == Some(g) && PendingOn(rank, s, t, g, u, l)
    ensures After(s, t, a).threads[t].script == s.threads[t].script
    ensures Target(After(s, t, a).threads[t].at.ph) == Some(g)
  {
    var plan, ph := s.threads[t].script[0].plan, s.threads[t].at.ph;
    match ph
    case Block(f, p) =>
      var x := plan.groups[f][p];
      HolderRefuses(rank, s, u, l, ModeOf(s.threads[t]));
      if p + 1 == |plan.groups[f]| {
        var q :| 0 <= q < |plan.groups[f]| && plan.groups[f][q] == l;
        assert l != x && l == plan.groups[f][..p][q];
        assert Holds(s, t, l);
        Exclusive(rank, s, t, u, l);
      }
    case _ =>
  }

  /** One retrying acquisition rolls back no more often than hold sessions of other threads on its
      locks end while it runs, plus one if it is still waiting for the last session it met. */
  lemma {:induction false} RollbacksArePaidFor(rank: Lock -> int, run: seq<State>, t: Tid)
    requires IsRun(run) && Inv(rank, run[0])
    requires forall k | 0 <= k < |run| :: InRetry(rank, run[k], t)
    ensures Rollbacks(run, t)
            <= EndedSessions(run, t) + if Pending(rank, run[|run| - 1], t) then 1 else 0
  {
    var n := |run|;
    if n >= 2 {
      var before := run[..n - 1];
      forall k | 0 <= k < |before| - 1 ensures Step(before[k], before[k + 1]) {
        assert Step(run[k], run[k + 1]);
      }
      RollbacksArePaidFor(rank, before, t);
      RunKeepsInv(rank, run, n - 2);
      var s, s' := run[n - 2], run[n - 1];
      assert Step(run[n - 2], run[n - 2 + 1]);
      var v: Tid, a: Action :| Can(s, v, a) && s' == After(s, v, a);
      if RollsBack(s, s', t) {
        RollbackLeavesPending(rank, s, t, a);
      } else if Pending(rank, s, t) && !SessionEnds(s, s', t) {
        PendingSurvives(rank, s, t, v, a);
      }
    }
  }

  // ---------- Without fairness, no bound ----------

  /** Thread 0 locks 0 and 1, thread 1 locks 1 and 0, both by retrying; group g of thread 1 is lock 1 - g. */
  function Crossing(t: Tid): Req {
    if t == 0 then Req(Plan([[0], [1]], false), Write, [0, 1], []) else Req(Plan([[1], [0]], false), Write, [1, 0], [])
  }

  ghost function Both(a: Status, b: Status, table: Table): State {
    State([Thread([Crossing(0)], !a.Idle?, a), Thread([Crossing(1)], !b.Idle?, b)], table, map[], [])
  }

  /** Thread 0 holds lock x, thread 1 the other one, and each is about to try what the other holds. */
  ghost predicate Duel(s: State, x: nat) {
    x <= 1 && s == Both(Acquiring(Trial(x, 1 - x, 0)), Acquiring(Trial(x, 1 - x, 0)), s.table)
    && HoldAt(s.table, x) == Writer(0) && HoldAt(s.table, 1 - x) == Writer(1)
  }

  /** Both locks are free, and the threads block on locks x and 1 - x. */
  ghost predicate Truce(s: State, x: nat) {
    x <= 1 && s == Both(Acquiring(Block(x, 0)), Acquiring(Block(x, 0)), s.table)
    && HoldAt(s.table, 0) == Free && HoldAt(s.table, 1) == Free
  }

  lemma CrossingHolds(t: Tid, x: nat)
    requires t <= 1 && x <= 1
    ensures var plan := Crossing(t).plan;
            PhaseOk(plan, Trial(x, 1 - x, 0)) && Held(plan, Trial(x, 1 - x, 0)) == {if t == 0 then x else 1 - x}
    ensures All(Crossing(t).plan) == {0, 1}
  {
    var plan := Crossing(t).plan;
    assert plan.groups[0][..0] == [] && plan.groups[1][..0] == [];
    assert Below(plan.groups, 0) == {};
    assert Below(plan.groups, 1) == Elems(plan.groups[0]);
    assert Below(plan.groups, 2) == Below(plan.groups, 1) + Elems(plan.groups[1]);
  }

  lemma CrossingPhases(t: Tid, x: nat)
    requires t <= 1 && x <= 1
    ensures var plan, mine, other := Crossing(t).plan, if t == 0 then x else 1 - x, if t == 0 then 1 - x else x;
            && PhaseOk(plan, Trial(x, 1 - x, 0)) && PhaseOk(plan, Undo({mine}, 1 - x)) && PhaseOk(plan, Block(x, 0))
            && Next(plan, Trial(x, 1 - x, 0), Tried(other, false)) == Some(Undo({mine}, 1 - x))
            && Next(plan, Undo({mine}, 1 - x), Released(mine)) == Some(Block(1 - x, 0))
            && Next(plan, Block(x, 0), Acquired(mine)) == Some(Trial(x, 1 - x, 0))
            && Start(plan) == Block(0, 0)
  {
    CrossingHolds(t, x);
  }

  lemma CrossingOk(rank: Lock -> int, t: Tid)
    requires t <= 1
    ensures ReqOk(rank, Crossing(t))
  {
    CrossingHolds(t, 0);
    SingletonsOk(rank, Crossing(t));
  }

  lemma SingletonsOk(rank: Lock -> int, req: Req)
    requires |req.plan.groups| == 2 && |req.plan.groups[0]| == |req.plan.groups[1]| == 1
    requires req.release == [req.plan.groups[0][0], req.plan.groups[1][0]] && req.release[0] != req.release[1]
    requires All(req.plan) == {req.release[0], req.release[1]} && req.body == []
    ensures ReqOk(rank, req)
  {
    hide All;
  }

  /** One more step of a run, and what it adds to the rollbacks of thread 0. */
  lemma Extend(run: seq<State>, t: Tid, a: Action, s': State) returns (longer: seq<State>)
    requires IsRun(run) && Can(run[|run| - 1], t, a) && s' == After(run[|run| - 1], t, a)
    ensures longer == run + [s'] && IsRun(longer)
    ensures Rollbacks(longer, 0) == Rollbacks(run, 0) + if RollsBack(run[|run| - 1], s', 0) then 1 else 0
  {
    longer := run + [s'];
    assert longer[..|longer| - 1] == run;
    forall k | 0 <= k < |longer| - 1 ensures Step(longer[k], longer[k + 1]) {
      if k < |run| - 1 { assert Step(run[k], run[k + 1]); }
    }
  }

  /** A call of thread t that the automaton and the state h of its lock allow. */
  ghost predicate Goes(t: Tid, ph: Phase, ev: Event, ph': Phase, h: Hold) {
    var req := Crossing(t);
    && req.mode == Write && PhaseOk(req.plan, ph) && Next(req.plan, ph, ev) == Some(ph')
    && match ev
       case Acquired(_) => h == Free
       case Tried(_, ok) => !ok && h.Writer?
       case Released(_) => true
  }

  function Effect(t: Tid, ev: Event, h: Hold): Hold {
    match ev
    case Acquired(_) => Writer(t)
    case Tried(_, _) => h
    case Released(_) => Free
  }

  ghost predicate Changed(table: Table, table': Table, t: Tid, ev: Event) {
    forall l: Lock :: HoldAt(table', l) == if l == ev.l then Effect(t, ev, HoldAt(table, l)) else HoldAt(table, l)
  }

  lemma FirstMoves(run: seq<State>, ph: Phase, ev: Event, ph': Phase, other: Phase) returns (longer: seq<State>)
    requires IsRun(run) && run[|run| - 1] == Both(Acquiring(ph), Acquiring(other), run[|run| - 1].table)
    requires Goes(0, ph, ev, ph', HoldAt(run[|run| - 1].table, ev.l))
    ensures IsRun(longer) && longer[0] == run[0]
    ensures longer[|longer| - 1] == Both(Acquiring(ph'), Acquiring(other), longer[|longer| - 1].table)
    ensures Changed(run[|run| - 1].table, longer[|longer| - 1].table, 0, ev)
    ensures Rollbacks(longer, 0) == Rollbacks(run, 0) + if ph.Trial? && !ph'.Trial? && !ph'.Got? then 1 else 0
  {
    hide Crossing, Next, PhaseOk, Rollbacks;
    longer := Extend(run, 0, Sync(ev), After(run[|run| - 1], 0, Sync(ev)));
  }

  lemma SecondMoves(run: seq<State>, ph: Phase, ev: Event, ph': Phase, other: Phase) returns (longer: seq<State>)
    requires IsRun(run) && run[|run| - 1] == Both(Acquiring(other), Acquiring(ph), run[|run| - 1].table)
    requires Goes(1, ph, ev, ph', HoldAt(run[|run| - 1].table, ev.l))
    ensures IsRun(longer) && longer[0] == run[0]
    ensures longer[|longer| - 1] == Both(Acquiring(other), Acquiring(ph'), longer[|longer| - 1].table)
    ensures Changed(run[|run| - 1].table, longer[|longer| - 1].table, 1, ev)
    ensures Rollbacks(longer, 0) == Rollbacks(run, 0)
  {
    hide Crossing, Next, PhaseOk, Rollbacks;
    longer := Extend(run, 1, Sync(ev), After(run[|run| - 1], 1, Sync(ev)));
  }

  /** Both are refused, both give back, and each blocks on what the other one held. */
  lemma DuelTurns(before: seq<State>, x: nat) returns (run: seq<State>)
    requires IsRun(before) && Duel(before[|before| - 1], x)
    ensures IsRun(run) && run[0] == before[0] && Rollbacks(run, 0) == Rollbacks(before, 0) + 1
    ensures Truce(run[|run| - 1], 1 - x)
  {
    CrossingPhases(0, x);
    CrossingPhases(1, x);
    hide Rollbacks, Crossing, Both, Next, PhaseOk, IsRun, HoldAt;
    var trial, undo, undoing, block := Trial(x, 1 - x, 0), Undo({x}, 1 - x), Undo({1 - x}, 1 - x), Block(1 - x, 0);
    run := FirstMoves(before, trial, Tried(1 - x, false), undo, trial);
    run := SecondMoves(run, trial, Tried(x, false), undoing, undo);
    run := FirstMoves(run, undo, Released(x), block, undoing);
    run := SecondMoves(run, undoing, Released(1 - x), block, block);
  }

  lemma DuelAcquires(before: seq<State>, x: nat) returns (run: seq<State>)
    requires IsRun(before) && Truce(before[|before| - 1], x)
    ensures IsRun(run) && run[0] == before[0] && Rollbacks(run, 0) == Rollbacks(before, 0)
    ensures Duel(run[|run| - 1], x)
  {
    CrossingPhases(0, x);
    CrossingPhases(1, x);
    hide Rollbacks, Crossing, Both, Next, PhaseOk, IsRun, HoldAt;
    var trial, block := Trial(x, 1 - x, 0), Block(x, 0);
    run := FirstMoves(before, block, Acquired(x), trial, block);
    run := SecondMoves(run, block, Acquired(1 - x), trial, trial);
  }

  lemma DuelBegins(rank: Lock -> int) returns (run: seq<State>)
    ensures IsRun(run) && Init(rank, run[0]) && Rollbacks(run, 0) == 0 && Truce(run[|run| - 1], 0)
  {
    StartsIdle(rank);
    hide Init, Both;
    run := [Both(Idle, Idle, map[])];
    run := BothTakeKeys(run);
    run := BothBegin(run);
  }

  lemma StartsIdle(rank: Lock -> int)
    ensures Init(rank, Both(Idle, Idle, map[]))
  {
    CrossingOk(rank, 0);
    CrossingOk(rank, 1);
    hide ReqOk, Crossing;
  }

  lemma BothTakeKeys(before: seq<State>) returns (run: seq<State>)
    requires before == [Both(Idle, Idle, map[])] && Rollbacks(before, 0) == 0
    ensures IsRun(run) && run[0] == before[0] && Rollbacks(run, 0) == 0 && run[|run| - 1] == Both(Ready, Ready, map[])
  {
    hide Rollbacks, Next, PhaseOk, Crossing, Start;
    run := Extend(before, 0, TakeKey, Both(Ready, Idle, map[]));
    run := Extend(run, 1, TakeKey, Both(Ready, Ready, map[]));
  }

  lemma BothBegin(before: seq<State>) returns (run: seq<State>)
    requires IsRun(before) && before[|before| - 1] == Both(Ready, Ready, map[])
    ensures IsRun(run) && run[0] == before[0] && Rollbacks(run, 0) == Rollbacks(before, 0) && Truce(run[|run| - 1], 0)
  {
    run := FirstBegins(before);
    run := SecondBegins(run);
  }

  lemma FirstBegins(before: seq<State>) returns (run: seq<State>)
    requires IsRun(before) && before[|before| - 1] == Both(Ready, Ready, map[])
    ensures IsRun(run) && run[0] == before[0] && Rollbacks(run, 0) == Rollbacks(before, 0)
    ensures run[|run| - 1] == Both(Acquiring(Block(0, 0)), Ready, map[])
  {
    CrossingPhases(0, 0);
    hide Rollbacks, Next, PhaseOk, Crossing, Start;
    run := Extend(before, 0, Begin, Both(Acquiring(Block(0, 0)), Ready, map[]));
  }

  lemma SecondBegins(before: seq<State>) returns (run: seq<State>)
    requires IsRun(before) && before[|before| - 1] == Both(Acquiring(Block(0, 0)), Ready, map[])
    ensures IsRun(run) && run[0] == before[0] && Rollbacks(run, 0) == Rollbacks(before, 0)
    ensures run[|run| - 1] == Both(Acquiring(Block(0, 0)), Acquiring(Block(0, 0)), map[])
  {
    CrossingPhases(1, 0);
    hide Rollbacks, Next, PhaseOk, Crossing, Start;
    run := Extend(before, 1, Begin, Both(Acquiring(Block(0, 0)), Acquiring(Block(0, 0)), map[]));
  }

  /** The potential livelock that the documentation admits: two retrying acquisitions can make each other
      roll back any number of times, in one run, with nobody else around and nothing committed. */
  lemma {:induction false} MayLivelock(rank: Lock -> int, n: nat) returns (run: seq<State>, x: nat)
    ensures IsRun(run) && Init(rank, run[0]) && Rollbacks(run, 0) == n && x <= 1 && Duel(run[|run| - 1], x)
  {
    hide Init, IsRun, Rollbacks, Duel, Truce;
    if n == 0 {
      x := 0;
      run := DuelBegins(rank);
    } else {
      run, x := MayLivelock(rank, n - 1);
      run := DuelTurns(run, x);
      x := 1 - x;
    }
    run := DuelAcquires(run, x);
  }
}
