/** The documented advice for retrying collections: let every collection that shares a lock with one
    start with the same first lock. What it prevents, what it does not, and exactly when it is enough. */
module Advice {
  import opened Locks
  import opened Protocol
  import opened Machine
  import opened DeadlockFreedom
  import Retries

  // ---------- Following the advice ----------

  predicate HasFirst(req: Req) {
    req.plan.groups != [] && req.plan.groups[0] != []
  }

  function First(req: Req): Lock
    requires HasFirst(req)
  {
    req.plan.groups[0][0]
  }

  /** The request makes trials: a try-lock, or a retrying acquisition of more than one element. */
  predicate Tries(req: Req) {
    req.plan.trying || |req.plan.groups| > 1
  }

  /** Whatever shares a lock with a request that makes trials starts with the same lock as it does.
      Requests that only block on one ordered list may share their locks as they like. */
  ghost predicate SameFirst(pool: set<Req>) {
    forall q, r | q in pool && r in pool && Tries(r) && All(q.plan) * All(r.plan) != {} ::
      HasFirst(q) && HasFirst(r) && First(q) == First(r)
  }

  ghost predicate AsksFrom(pool: set<Req>, s: State) {
    forall t | 0 <= t < |s.threads| :: ScriptFrom(pool, s.threads[t])
  }

  ghost predicate ScriptFrom(pool: set<Req>, th: Thread) {
    forall i | 0 <= i < |th.script| :: th.script[i] in pool
  }

  /** No blocking acquisition has rolled back; a failed try-lock may be giving its locks back. */
  predicate FirstRound(s: State) {
    forall t | 0 <= t < |s.threads| :: ThreadInFirstRound(s.threads[t])
  }

  predicate ThreadInFirstRound(th: Thread) {
    th.at.Acquiring? ==>
      match th.at.ph
      case Block(f, _) => f == 0
      case Trial(first, _, _) => first <= 0
      case Undo(_, _) => th.script != [] && th.script[0].plan.trying
      case _ => true
  }

  /** Thread t is about to try lock l. */
  ghost predicate TriesNext(s: State, t: Tid, l: Lock) {
    && t < |s.threads| && s.threads[t].script != [] && s.threads[t].at.Acquiring? && s.threads[t].at.ph.Trial?
    && PhaseOk(s.threads[t].script[0].plan, s.threads[t].at.ph)
    && l == s.threads[t].script[0].plan.groups[s.threads[t].at.ph.i][s.threads[t].at.ph.p]
  }

  /** A trial that comes after the first lock was taken. */
  ghost predicate PastFirst(s: State, t: Tid, l: Lock) {
    TriesNext(s, t, l) && HasFirst(s.threads[t].script[0])
    && (s.threads[t].script[0].plan.trying ==> l != First(s.threads[t].script[0]))
  }

  /** Thread u holds l in a mode that refuses t. */
  ghost predicate Refuses(s: State, u: Tid, t: Tid, l: Lock) {
    u != t && t < |s.threads| && Holds(s, u, l)
    && (ModeOf(s.threads[t]) == Write || ModeOf(s.threads[u]) == Write)
  }

  /** Thread u is releasing, or giving back the locks of a try-lock that failed. */
  predicate LettingGo(s: State, u: Tid) {
    u < |s.threads| && (s.threads[u].at.Releasing? || (s.threads[u].at.Acquiring? && s.threads[u].at.ph.Undo?))
  }

  // ---------- Who refuses a trial ----------

  lemma TrialHoldsFirst(req: Req, ph: Phase)
    requires HasFirst(req) && PhaseOk(req.plan, ph) && ph.Trial? && ph.first <= 0
    requires req.plan.trying ==> req.plan.groups[ph.i][ph.p] != First(req)
    ensures First(req) in Held(req.plan, ph)
    ensures !req.plan.trying ==> Elems(req.plan.groups[0]) <= Held(req.plan, ph)
  {
    var g := req.plan.groups[0];
    assert g[0] in Elems(g);
    if ph.i > 0 {
      BelowMonotone(req.plan.groups, 1, ph.i);
      assert Below(req.plan.groups, 1) == Below(req.plan.groups, 0) + Elems(g);
    } else if req.plan.trying {
      assert g[..ph.p][0] == g[0];
    }
  }

  /** A thread in its first round that holds anything holds its first lock, unless it is letting go. */
  lemma HolderHoldsFirst(th: Thread, l: Lock)
    requires th.script != [] && HasFirst(th.script[0]) && l in Holding(th)
    requires !th.at.Releasing? && !(th.at.Acquiring? && th.at.ph.Undo?) && ThreadInFirstRound(th)
    requires th.at.Acquiring? ==> PhaseOk(th.script[0].plan, th.at.ph)
    ensures First(th.script[0]) in Holding(th)
  {
    var plan := th.script[0].plan;
    var g := plan.groups[0];
    GroupInAll(plan, 0);
    assert g[0] in Elems(g);
    if th.at.Acquiring? {
      if th.at.ph.Block? {
        assert g[..th.at.ph.p][0] == g[0];
      } else if th.at.ph.Trial? {
        var ph := th.at.ph;
        if ph.i == 0 && plan.trying {
          assert Below(plan.groups, 0) == {};
          assert g[..ph.p][0] == g[0];
        } else if ph.i > 0 {
          BelowMonotone(plan.groups, 1, ph.i);
          assert Below(plan.groups, 1) == Below(plan.groups, 0) + Elems(g);
        }
      }
    }
  }

  lemma HoldingIsAsked(rank: Lock -> int, th: Thread, l: Lock)
    requires ThreadOk(rank, th) && l in Holding(th)
    ensures th.script != [] && l in All(th.script[0].plan)
  {
    if th.at.Acquiring? { HeldInAll(th.script[0].plan, th.at.ph); }
  }

  /** Whoever refuses a trial that is past the first lock is letting go of its locks. */
  lemma RefuserIsLettingGo(rank: Lock -> int, pool: set<Req>, s: State, t: Tid, u: Tid, l: Lock)
    requires Inv(rank, s) && SameFirst(pool) && AsksFrom(pool, s) && FirstRound(s)
    requires PastFirst(s, t, l) && Refuses(s, u, t, l)
    ensures LettingGo(s, u) && First(s.threads[t].script[0]) in Holding(s.threads[t])
  {
    assert ScriptFrom(pool, s.threads[t]) && ScriptFrom(pool, s.threads[u]);
    assert ThreadInFirstRound(s.threads[t]) && ThreadInFirstRound(s.threads[u]);
    HoldingIsAsked(rank, s.threads[u], l);
    var mine, other := s.threads[t].script[0], s.threads[u].script[0];
    GroupInAll(mine.plan, s.threads[t].at.ph.i);
    TrialHoldsFirst(mine, s.threads[t].at.ph);
    assert l in All(other.plan) * All(mine.plan) && Tries(mine);
    if !LettingGo(s, u) {
      HolderHoldsFirst(s.threads[u], l);
      Exclusive(rank, s, t, u, First(mine));
    }
  }

  /** While no blocking acquisition has rolled back, a trial past the first lock is refused exactly when
      its lock is held, in a conflicting mode, by a thread that is letting go of its locks. */
  lemma RefusedExactlyByReleaser(rank: Lock -> int, pool: set<Req>, s: State, t: Tid, l: Lock)
    requires Inv(rank, s) && SameFirst(pool) && AsksFrom(pool, s) && FirstRound(s) && PastFirst(s, t, l)
    ensures !CanTake(HoldAt(s.table, l), ModeOf(s.threads[t]))
            <==> exists u: Tid :: Refuses(s, u, t, l) && LettingGo(s, u)
  {
    if !CanTake(HoldAt(s.table, l), ModeOf(s.threads[t])) {
      var u := RefuserOf(rank, s, t, l);
      RefuserIsLettingGo(rank, pool, s, t, u, l);
    }
    if u: Tid :| Refuses(s, u, t, l) && LettingGo(s, u) {
      HolderRefuses(rank, s, u, l, ModeOf(s.threads[t]));
    }
  }

  lemma RefuserOf(rank: Lock -> int, s: State, t: Tid, l: Lock) returns (u: Tid)
    requires Inv(rank, s) && TriesNext(s, t, l) && !CanTake(HoldAt(s.table, l), ModeOf(s.threads[t]))
    ensures Refuses(s, u, t, l)
  {
    u := RefusedByHolder(rank, s, l, ModeOf(s.threads[t]));
    assert ReqOk(rank, s.threads[t].script[0]);
    AskedIsNotHeld(s.threads[t].script[0].plan, s.threads[t].at.ph);
  }

  // ---------- The first time ----------

  /** An acquisition is refused and turns to giving back locks that it had taken. */
  predicate GivesBack(s: State, s': State, t: Tid) {
    && t < |s.threads| && t < |s'.threads|
    && s.threads[t].at.Acquiring? && s.threads[t].at.ph.Trial?
    && s'.threads[t].at.Acquiring? && s'.threads[t].at.ph.Undo?
  }

  predicate GivesBackBlocking(s: State, s': State, t: Tid) {
    GivesBack(s, s', t) && s.threads[t].script != [] && !s.threads[t].script[0].plan.trying
  }

  lemma SettledScan(plan: Plan, first: int, i: nat, p: nat)
    requires i <= |plan.groups| && (i < |plan.groups| ==> p <= |plan.groups[i]|)
    ensures SettleTrial(plan, first, i, p).Trial? || SettleTrial(plan, first, i, p).Got?
    ensures SettleTrial(plan, first, i, p).Trial? ==> SettleTrial(plan, first, i, p).first == first
    decreases |plan.groups| - i
  {
  }

  lemma MovedFirstRound(rank: Lock -> int, th: Thread, a: Action, data: map<Lock, int>)
    requires ThreadOk(rank, th) && Allows(th, a) && ThreadInFirstRound(th)
    requires th.at.Acquiring? && th.at.ph.Trial? ==> HasFirst(th.script[0])
    requires var at := Moved(th, a, data).at;
             th.at.Acquiring? && th.at.ph.Trial? && at.Acquiring? && at.ph.Undo? ==> th.script[0].plan.trying
    ensures ThreadInFirstRound(Moved(th, a, data))
  {
    if a.Begin? || a.Sync? {
      var plan := th.script[0].plan;
      SettledScan(plan, -1, 0, 0);
      SettledScan(plan, 0, 0, 0);
      if a.Sync? && th.at.ph.Trial? {
        var ph := th.at.ph;
        if a.ev.ok {
          SettledScan(plan, ph.first, ph.i, ph.p + 1);
        } else if Held(plan, ph) == {} && !plan.trying {
          TrialHoldsFirst(th.script[0], ph);
        }
      }
    }
  }

  /** A thread in a trial of its first round makes a request with a first lock. */
  lemma TrialHasFirst(rank: Lock -> int, pool: set<Req>, th: Thread)
    requires SameFirst(pool) && ScriptFrom(pool, th) && ThreadOk(rank, th) && ThreadInFirstRound(th)
    requires th.at.Acquiring? && th.at.ph.Trial?
    ensures Tries(th.script[0]) && HasFirst(th.script[0])
  {
    var req, ph := th.script[0], th.at.ph;
    GroupInAll(req.plan, ph.i);
    assert req.plan.groups[ph.i][ph.p] in All(req.plan) * All(req.plan);
    assert Tries(req);
  }

  lemma FirstRoundKept(rank: Lock -> int, pool: set<Req>, s: State, t: Tid, a: Action)
    requires Inv(rank, s) && Can(s, t, a) && SameFirst(pool) && AsksFrom(pool, s) && FirstRound(s)
    requires !GivesBackBlocking(s, After(s, t, a), t)
    ensures AsksFrom(pool, After(s, t, a)) && FirstRound(After(s, t, a))
  {
    var th := s.threads[t];
    assert ScriptFrom(pool, th) && ThreadInFirstRound(th) && ThreadOk(rank, th);
    if th.at.Acquiring? && th.at.ph.Trial? { TrialHasFirst(rank, pool, th); }
    MovedFirstRound(rank, th, a, s.data);
    assert ScriptFrom(pool, Moved(th, a, s.data));
  }

  /** No blocking acquisition gives anything back in the steps of a run. */
  ghost predicate NoRollback(run: seq<State>) {
    forall t: Tid, j, k | 0 <= j && k == j + 1 && k < |run| :: !GivesBackBlocking(run[j], run[k], t)
  }

  lemma {:induction false} NoRollbackMeansFirstRound(rank: Lock -> int, pool: set<Req>, run: seq<State>, k: nat)
    requires IsRun(run) && Init(rank, run[0]) && SameFirst(pool) && AsksFrom(pool, run[0])
    requires NoRollback(run) && k < |run|
    ensures Inv(rank, run[k]) && AsksFrom(pool, run[k]) && FirstRound(run[k])
  {
    InitInv(rank, run[0]);
    RunKeepsInv(rank, run, k);
    if k > 0 {
      NoRollbackMeansFirstRound(rank, pool, run, k - 1);
      var t, a := StepOf(run, k - 1);
      FirstRoundKept(rank, pool, run[k - 1], t, a);
    }
  }

  lemma StepOf(run: seq<State>, k: nat) returns (t: Tid, a: Action)
    requires IsRun(run) && k + 1 < |run|
    ensures Can(run[k], t, a) && run[k + 1] == After(run[k], t, a)
  {
    assert Step(run[k], run[k + 1]);
    t, a :| Can(run[k], t, a) && run[k + 1] == After(run[k], t, a);
  }

  /** What a thread that gives back did: it tried a lock past its first one, and was refused. */
  lemma GivesBackMeans(rank: Lock -> int, s: State, v: Tid, a: Action, t: Tid) returns (l: Lock)
    requires Inv(rank, s) && Can(s, v, a) && GivesBack(s, After(s, v, a), t)
    requires s.threads[t].script != [] ==> HasFirst(s.threads[t].script[0])
    requires ThreadInFirstRound(s.threads[t])
    ensures v == t && PastFirst(s, t, l) && a == Sync(Tried(l, false))
    ensures !CanTake(HoldAt(s.table, l), ModeOf(s.threads[t]))
  {
    assert ThreadOk(rank, s.threads[t]);
    var req, ph := s.threads[t].script[0], s.threads[t].at.ph;
    l := req.plan.groups[ph.i][ph.p];
    assert v == t && a.Sync?;
    if a.ev.ok { SettledScan(req.plan, ph.first, ph.i, ph.p + 1); }
    assert Held(req.plan, ph) != {};
    if req.plan.trying && l == First(req) {
      OnlyFirstTrial(rank, req, ph);
    }
  }

  /** A try-lock that asks for its first lock holds nothing. */
  lemma OnlyFirstTrial(rank: Lock -> int, req: Req, ph: Phase)
    requires ReqOk(rank, req) && HasFirst(req) && req.plan.trying && PhaseOk(req.plan, ph) && ph.Trial?
    requires req.plan.groups[ph.i][ph.p] == First(req)
    ensures Held(req.plan, ph) == {}
  {
    assert ph.i == 0 && ph.p == 0;
    assert req.plan.groups[0][..0] == [] && Below(req.plan.groups, 0) == {};
  }

  /** In a system that follows the advice, the first rollback of a run is caused only by threads that
      are letting go of their locks, never by one that is acquiring or using them. */
  lemma FirstRollbackMeetsReleaser(rank: Lock -> int, pool: set<Req>, run: seq<State>, s: State, s': State, t: Tid)
    returns (l: Lock)
    requires IsRun(run) && Init(rank, run[0]) && SameFirst(pool) && AsksFrom(pool, run[0]) && NoRollback(run)
    requires s == run[|run| - 1] && Step(s, s') && GivesBack(s, s', t)
    ensures TriesNext(s, t, l) && exists u: Tid :: Refuses(s, u, t, l)
    ensures forall u: Tid :: Refuses(s, u, t, l) ==> LettingGo(s, u)
  {
    NoRollbackMeansFirstRound(rank, pool, run, |run| - 1);
    var v: Tid, a: Action :| Can(s, v, a) && s' == After(s, v, a);
    assert ScriptFrom(pool, s.threads[t]) && ThreadInFirstRound(s.threads[t]) && ThreadOk(rank, s.threads[t]);
    TrialHasFirst(rank, pool, s.threads[t]);
    l := GivesBackMeans(rank, s, v, a, t);
    var w := RefuserOf(rank, s, t, l);
    forall u: Tid | Refuses(s, u, t, l) ensures LettingGo(s, u) {
      RefuserIsLettingGo(rank, pool, s, t, u, l);
    }
  }

  // ---------- Exactly when the advice is enough ----------

  /** The locks a request has before it first tries one that may be refused after others were taken:
      the element it blocks on, or for a try-lock its first lock. */
  function Lead(req: Req): set<Lock>
    requires HasFirst(req)
  {
    if req.plan.trying then {First(req)} else Elems(req.plan.groups[0])
  }

  /** From position k on, q still has to release a lock of r, but none that r leads with; and the two
      conflict. */
  predicate Meets(q: Req, k: nat, r: Req) {
    && HasFirst(r) && k < |q.release| && q.release[k] in All(r.plan)
    && (q.mode == Write || r.mode == Write)
    && forall j | k <= j < |q.release| :: q.release[j] !in Lead(r)
  }

  /** Request j of thread u meets request i of thread t from position k of its release on. */
  predicate Clash(s: State, t: Tid, i: nat, u: Tid, j: nat, k: nat) {
    && t != u && t < |s.threads| && u < |s.threads|
    && i < |s.threads[t].script| && j < |s.threads[u].script|
    && Meets(s.threads[u].script[j], k, s.threads[t].script[i])
  }

  ghost predicate Clashes(s: State) {
    exists t: Tid, i: nat, u: Tid, j: nat, k: nat :: Clash(s, t, i, u, j, k)
  }

  /** A thread is some way along its script, and some way along the release it is in. */
  ghost predicate Along(start: Thread, now: Thread, i: nat) {
    && i <= |start.script| && now.script == start.script[i..]
    && (now.at.Releasing? && i < |start.script| ==> exists k: nat :: RestFrom(start.script[i], now.at.rest, k))
  }

  predicate RestFrom(req: Req, rest: seq<Lock>, k: nat) {
    k <= |req.release| && rest == req.release[k..]
  }

  lemma MovedAlong(start: Thread, th: Thread, a: Action, data: map<Lock, int>, i: nat) returns (i': nat)
    requires Along(start, th, i) && Allows(th, a)
    ensures Along(start, Moved(th, a, data), i')
  {
    var th' := Moved(th, a, data);
    i' := if th'.script == th.script then i else i + 1;
    if a.Finish? {
      assert RestFrom(start.script[i], th'.at.rest, 0);
    } else if a.Unlock? {
      var k: nat :| RestFrom(start.script[i], th.at.rest, k);
      assert RestFrom(start.script[i], th'.at.rest, k + 1);
    }
  }

  predicate Undoing(th: Thread) {
    th.at.Acquiring? && th.at.ph.Undo?
  }

  /** No acquisition gives anything back in the steps of a run. */
  ghost predicate NoGiveBack(run: seq<State>) {
    forall t: Tid, j, k | 0 <= j && k == j + 1 && k < |run| :: !GivesBack(run[j], run[k], t)
  }

  lemma {:induction false} RunGoesAlong(rank: Lock -> int, pool: set<Req>, run: seq<State>, k: nat, t: Tid)
    returns (i: nat)
    requires IsRun(run) && Init(rank, run[0]) && SameFirst(pool) && AsksFrom(pool, run[0])
    requires NoGiveBack(run) && k < |run| && t < |run[k].threads|
    ensures t < |run[0].threads| && Along(run[0].threads[t], run[k].threads[t], i) && !Undoing(run[k].threads[t])
  {
    if k == 0 {
      i := 0;
    } else {
      i := RunGoesAlong(rank, pool, run, k - 1, t);
      NoRollbackMeansFirstRound(rank, pool, run, k - 1);
      var v, a := StepOf(run, k - 1);
      assert !GivesBack(run[k - 1], run[k], t);
      if v == t {
        StaysOutOfUndo(rank, run[k - 1].threads[t], a, run[k - 1].data);
        i := MovedAlong(run[0].threads[t], run[k - 1].threads[t], a, run[k - 1].data, i);
      }
    }
  }

  lemma StaysOutOfUndo(rank: Lock -> int, th: Thread, a: Action, data: map<Lock, int>)
    requires ThreadOk(rank, th) && Allows(th, a) && !Undoing(th)
    ensures Undoing(Moved(th, a, data)) ==> th.at.Acquiring? && th.at.ph.Trial?
  {
    if a.Begin? {
      SettledScan(th.script[0].plan, -1, 0, 0);
      SettledScan(th.script[0].plan, 0, 0, 0);
    } else if a.Sync? && th.at.ph.Block? {
      SettledScan(th.script[0].plan, th.at.ph.f, 0, 0);
    }
  }

  /** What two threads are doing when one makes the other give back: requests of theirs clash. */
  lemma RefusalIsClash(rank: Lock -> int, s: State, t: Tid, u: Tid, l: Lock, q: Req, k: nat)
    requires Inv(rank, s) && PastFirst(s, t, l) && Refuses(s, u, t, l)
    requires ThreadInFirstRound(s.threads[t]) && s.threads[u].at.Releasing? && s.threads[u].script != []
    requires s.threads[u].script[0] == q && RestFrom(q, s.threads[u].at.rest, k)
    ensures exists j: nat :: Meets(q, j, s.threads[t].script[0])
  {
    var r, ph := s.threads[t].script[0], s.threads[t].at.ph;
    GroupInAll(r.plan, ph.i);
    TrialHoldsFirst(r, ph);
    var j :| 0 <= j < |s.threads[u].at.rest| && s.threads[u].at.rest[j] == l;
    forall n | k <= n < |q.release| ensures q.release[n] !in Lead(r) {
      assert q.release[n] == s.threads[u].at.rest[n - k];
      assert Holds(s, u, q.release[n]);
      if q.release[n] in Lead(r) {
        Exclusive(rank, s, t, u, q.release[n]);
      }
    }
    assert Meets(q, k + j, r);
  }

  /** If no two requests of different threads clash, nothing is ever given back. */
  lemma GivesBackOnlyByClash(rank: Lock -> int, pool: set<Req>, run: seq<State>, s: State, s': State, t: Tid)
    requires IsRun(run) && Init(rank, run[0]) && SameFirst(pool) && AsksFrom(pool, run[0]) && NoGiveBack(run)
    requires s == run[|run| - 1] && Step(s, s') && GivesBack(s, s', t)
    ensures Clashes(run[0])
  {
    hide ThreadOk, Meets;
    var n := |run| - 1;
    NoRollbackMeansFirstRound(rank, pool, run, n);
    assert ScriptFrom(pool, s.threads[t]) && ThreadInFirstRound(s.threads[t]);
    assert ThreadOk(rank, s.threads[t]);
    TrialHasFirst(rank, pool, s.threads[t]);
    var v: Tid, a: Action :| Can(s, v, a) && s' == After(s, v, a);
    var l := GivesBackMeans(rank, s, v, a, t);
    var u := RefuserOf(rank, s, t, l);
    RefuserIsLettingGo(rank, pool, s, t, u, l);
    HoldingIsAsked(rank, s.threads[u], l);
    var i := RunGoesAlong(rank, pool, run, n, t);
    var j := RunGoesAlong(rank, pool, run, n, u);
    var q := s.threads[u].script[0];
    var k: nat :| RestFrom(q, s.threads[u].at.rest, k);
    RefusalIsClash(rank, s, t, u, l, q, k);
    var m: nat :| Meets(q, m, s.threads[t].script[0]);
    assert Clash(run[0], t, i, u, j, m);
  }

  // ---------- A schedule that meets a clash ----------

  /** The eager next action of a thread that runs undisturbed. */
  ghost function Onward(th: Thread): Action
    requires th.at.Acquiring? ==> th.script != [] && PhaseOk(th.script[0].plan, th.at.ph)
  {
    match th.at
    case Idle => TakeKey
    case Ready => Begin
    case Acquiring(ph) =>
      (match ph
       case Block(f, p) => Sync(Acquired(th.script[0].plan.groups[f][p]))
       case Trial(_, i, p) => Sync(Tried(th.script[0].plan.groups[i][p], true))
       case _ => Enter)
    case Critical(_, _) => Finish
    case Releasing(rest) => if rest != [] then Unlock else Return(true)
    case Forgotten => Finish
  }

  /** Neither giving back, nor done, nor stuck with a forgotten guard. */
  predicate GoesOn(th: Thread) {
    && th.script != [] && !th.at.Forgotten?
    && (th.at.Acquiring? ==> th.at.ph.Block? || th.at.ph.Trial? || th.at.ph.Got?)
  }

  /** The lock a thread asks for can be taken, if it asks for one. */
  ghost predicate Unhindered(rank: Lock -> int, s: State, t: Tid)
    requires t < |s.threads| && ThreadOk(rank, s.threads[t])
  {
    var th := s.threads[t];
    th.at.Acquiring? ==>
      match th.at.ph
      case Block(f, p) => CanTake(HoldAt(s.table, th.script[0].plan.groups[f][p]), th.script[0].mode)
      case Trial(_, i, p) => CanTake(HoldAt(s.table, th.script[0].plan.groups[i][p]), th.script[0].mode)
      case _ => true
  }

  lemma OnwardStep(rank: Lock -> int, s: State, t: Tid) returns (s': State)
    requires Inv(rank, s) && t < |s.threads| && GoesOn(s.threads[t]) && Unhindered(rank, s, t)
    ensures Can(s, t, Onward(s.threads[t])) && s' == After(s, t, Onward(s.threads[t]))
    ensures Step(s, s') && Inv(rank, s')
    ensures s'.threads == s.threads[t := Moved(s.threads[t], Onward(s.threads[t]), s.data)]
    ensures Solo(s'.threads[t]) < Solo(s.threads[t])
  {
    var th := s.threads[t];
    var a := Onward(th);
    assert Can(s, t, a);
    s' := After(s, t, a);
    StepKeepsInv(rank, s, s');
    MovedCost(rank, th, a, s.data);
  }

  /** What undisturbed progress looks like from outside. */
  lemma OnwardMoves(rank: Lock -> int, th: Thread, data: map<Lock, int>)
    requires ThreadOk(rank, th) && GoesOn(th) && Allows(th, Onward(th))
    ensures var th' := Moved(th, Onward(th), data);
            && (th'.script != [] ==> GoesOn(th'))
            && (if th.at.Releasing? && th.at.rest == [] then th'.script == th.script[1..] && th'.at.Ready?
                else th'.script == th.script && !th'.at.Idle? && (th'.at.Ready? <==> th.at.Idle?))
            && (th'.at.Releasing? ==>
                  if th.at.Releasing? then th'.at.rest == th.at.rest[1..] else th'.at.rest == th.script[0].release)
  {
    if th.at.Ready? || th.at.Acquiring? {
      var plan := th.script[0].plan;
      SettledScan(plan, -1, 0, 0);
      SettledScan(plan, 0, 0, 0);
      if th.at.Acquiring? && th.at.ph.Trial? { SettledScan(plan, th.at.ph.first, th.at.ph.i, th.at.ph.p + 1); }
      if th.at.Acquiring? && th.at.ph.Block? { SettledScan(plan, th.at.ph.f, 0, 0); }
    }
  }

  /** Nobody but t holds anything. */
  ghost predicate OnlyHolder(s: State, t: Tid) {
    forall u: Tid | u < |s.threads| && u != t :: Holding(s.threads[u]) == {}
  }

  lemma AloneIsUnhindered(rank: Lock -> int, s: State, t: Tid)
    requires Inv(rank, s) && t < |s.threads| && OnlyHolder(s, t)
    ensures Unhindered(rank, s, t)
  {
    var th := s.threads[t];
    if th.at.Acquiring? && (th.at.ph.Block? || th.at.ph.Trial?) {
      var plan, ph := th.script[0].plan, th.at.ph;
      var l := if ph.Block? then plan.groups[ph.f][ph.p] else plan.groups[ph.i][ph.p];
      assert ReqOk(rank, th.script[0]);
      AskedIsNotHeld(plan, ph);
      if !CanTake(HoldAt(s.table, l), th.script[0].mode) {
        var u := RefusedByHolder(rank, s, l, th.script[0].mode);
      }
    }
  }

  /** Where a thread is on its way to its last n requests. */
  ghost predicate Towards(rank: Lock -> int, s: State, t: Tid, n: nat) {
    && Inv(rank, s) && t < |s.threads| && OnlyHolder(s, t) && n <= |s.threads[t].script|
    && (GoesOn(s.threads[t]) || |s.threads[t].script| == n)
    && (|s.threads[t].script| == n ==> s.threads[t].at.Idle? || s.threads[t].at.Ready?)
  }

  lemma StepTowards(rank: Lock -> int, s: State, t: Tid, n: nat) returns (s': State)
    requires Towards(rank, s, t, n) && |s.threads[t].script| > n
    ensures Step(s, s') && Towards(rank, s', t, n) && Solo(s'.threads[t]) < Solo(s.threads[t])
    ensures |s'.threads| == |s.threads| && s'.threads == s.threads[t := s'.threads[t]]
    ensures s'.threads[t].script == s.threads[t].script || s'.threads[t].script == s.threads[t].script[1..]
  {
    AloneIsUnhindered(rank, s, t);
    s' := OnwardStep(rank, s, t);
    OnwardMoves(rank, s.threads[t], s.data);
  }

  /** A thread alone completes its next requests, down to the last n. */
  lemma {:induction false} Completes(rank: Lock -> int, s: State, t: Tid, n: nat) returns (run: seq<State>, end: State)
    requires Towards(rank, s, t, n)
    ensures IsRun(run) && run[0] == s && run[|run| - 1] == end && Towards(rank, end, t, n)
    ensures |end.threads| == |s.threads| && end.threads == s.threads[t := end.threads[t]]
    ensures end.threads[t].script == s.threads[t].script[|s.threads[t].script| - n..]
    decreases Solo(s.threads[t])
  {
    hide Inv, OnlyHolder, GoesOn, Step, Solo;
    if |s.threads[t].script| == n {
      run, end := [s], s;
      OneStateIsRun(s);
    } else {
      var s' := StepTowards(rank, s, t, n);
      var rest: seq<State>;
      rest, end := Completes(rank, s', t, n);
      run := [s] + rest;
      RunFrom(s, rest);
    }
  }

  lemma OneStateIsRun(s: State)
    ensures IsRun([s])
  {
  }

  /** And then runs on to a point in the middle of releasing the next one. */
  lemma {:induction false} ReachesRelease(rank: Lock -> int, s: State, u: Tid, j: nat, k: nat)
    returns (run: seq<State>, end: State)
    requires Inv(rank, s) && u < |s.threads| && OnlyHolder(s, u) && GoesOn(s.threads[u])
    requires j <= k <= |s.threads[u].script[0].release|
    requires s.threads[u].at.Releasing? ==> RestFrom(s.threads[u].script[0], s.threads[u].at.rest, j)
    requires !s.threads[u].at.Releasing? ==> j == 0
    ensures IsRun(run) && run[0] == s && run[|run| - 1] == end && Inv(rank, end)
    ensures |end.threads| == |s.threads| && end.threads == s.threads[u := end.threads[u]]
    ensures end.threads[u].script == s.threads[u].script
    ensures end.threads[u].at == Releasing(s.threads[u].script[0].release[k..])
    decreases Solo(s.threads[u])
  {
    var th := s.threads[u];
    if th.at.Releasing? && j == k {
      run, end := [s], s;
    } else {
      AloneIsUnhindered(rank, s, u);
      var s' := OnwardStep(rank, s, u);
      OnwardMoves(rank, th, s.data);
      var rest: seq<State>;
      rest, end := ReachesRelease(rank, s', u, if th.at.Releasing? then j + 1 else 0, k);
      run := [s] + rest;
      RunFrom(s, rest);
    }
  }

  /** Thread u is in the way of request r of thread t: it holds a lock of r, but none that r leads with,
      and nobody else holds anything. */
  ghost predicate InTheWay(s: State, u: Tid, t: Tid, r: Req, l: Lock) {
    && HasFirst(r) && t < |s.threads| && u < |s.threads| && t != u
    && l in All(r.plan) && Holds(s, u, l) && (r.mode == Write || ModeOf(s.threads[u]) == Write)
    && (forall x | x in Holding(s.threads[u]) :: x !in Lead(r))
    && (forall v: Tid | v < |s.threads| && v != t && v != u :: Holding(s.threads[v]) == {})
  }

  /** The only thread that can refuse t is the one in its way. */
  lemma RefusedByRival(rank: Lock -> int, s: State, u: Tid, t: Tid, r: Req, l: Lock, asked: Lock)
    requires Inv(rank, s) && InTheWay(s, u, t, r, l) && s.threads[t].script != [] && s.threads[t].script[0] == r
    requires !Holds(s, t, asked) && !CanTake(HoldAt(s.table, asked), r.mode)
    ensures Holds(s, u, asked) && asked !in Lead(r)
  {
    var w := RefusedByHolder(rank, s, asked, r.mode);
  }

  /** Thread t makes a trial that will be refused. */
  ghost predicate Hindered(rank: Lock -> int, s: State, t: Tid)
    requires t < |s.threads| && ThreadOk(rank, s.threads[t])
  {
    s.threads[t].at.Acquiring? && s.threads[t].at.ph.Trial? && !Unhindered(rank, s, t)
  }

  lemma RefusedGivesBack(rank: Lock -> int, s: State, t: Tid, u: Tid, r: Req, l: Lock) returns (s': State)
    requires Inv(rank, s) && InTheWay(s, u, t, r, l) && Hindered(rank, s, t)
    requires s.threads[t].script[0] == r && ThreadInFirstRound(s.threads[t])
    ensures Step(s, s') && GivesBack(s, s', t)
  {
    var th := s.threads[t];
    var asked := r.plan.groups[th.at.ph.i][th.at.ph.p];
    assert ReqOk(rank, r);
    AskedIsNotHeld(r.plan, th.at.ph);
    RefusedByRival(rank, s, u, t, r, l, asked);
    TrialHoldsFirst(r, th.at.ph);
    s' := After(s, t, Sync(Tried(asked, false)));
  }

  /** Unless it is refused, a thread whose way is barred can go on, and does not get everything. */
  lemma BarredGoesOn(rank: Lock -> int, s: State, t: Tid, u: Tid, r: Req, l: Lock)
    requires Inv(rank, s) && InTheWay(s, u, t, r, l) && GoesOn(s.threads[t]) && !Hindered(rank, s, t)
    requires s.threads[t].script[0] == r && ThreadInFirstRound(s.threads[t])
    ensures Unhindered(rank, s, t) && s.threads[t].at != Acquiring(Got)
  {
    var th := s.threads[t];
    if th.at == Acquiring(Got) {
      Exclusive(rank, s, t, u, l);
    } else if th.at.Acquiring? && th.at.ph.Block? {
      var asked := r.plan.groups[0][th.at.ph.p];
      assert ReqOk(rank, r);
      AskedIsNotHeld(r.plan, th.at.ph);
      assert asked in Elems(r.plan.groups[0]);
      if !CanTake(HoldAt(s.table, asked), r.mode) {
        RefusedByRival(rank, s, u, t, r, l, asked);
      }
    }
  }

  /** A thread in its first round whose way is barred ends up giving back. */
  lemma {:induction false} IsRefused(rank: Lock -> int, s: State, t: Tid, u: Tid, r: Req, l: Lock)
    returns (run: seq<State>)
    requires Inv(rank, s) && InTheWay(s, u, t, r, l)
    requires GoesOn(s.threads[t]) && s.threads[t].script[0] == r && ThreadInFirstRound(s.threads[t])
    requires s.threads[t].at.Idle? || s.threads[t].at.Ready? || s.threads[t].at.Acquiring?
    ensures IsRun(run) && run[0] == s && |run| > 1
    ensures GivesBack(run[|run| - 2], run[|run| - 1], t)
    ensures run[|run| - 2].threads[t].script == s.threads[t].script
    decreases Solo(s.threads[t])
  {
    var th := s.threads[t];
    if Hindered(rank, s, t) {
      var s' := RefusedGivesBack(rank, s, t, u, r, l);
      run := [s, s'];
    } else {
      BarredGoesOn(rank, s, t, u, r, l);
      var s' := OnwardStep(rank, s, t);
      OnwardMoves(rank, th, s.data);
      MovedFirstRound(rank, th, Onward(th), s.data);
      var rest := IsRefused(rank, s', t, u, r, l);
      run := [s] + rest;
      RunFrom(s, rest);
    }
  }

  /** Up to a point in a run at which one thread is in the middle of a release, another is about to make
      the request it clashes with, and nobody else has moved. */
  lemma Confront(rank: Lock -> int, s: State, t: Tid, i: nat, u: Tid, j: nat, k: nat)
    returns (run: seq<State>, end: State)
    requires Init(rank, s) && Clash(s, t, i, u, j, k)
    ensures IsRun(run) && run[0] == s && run[|run| - 1] == end && Inv(rank, end)
    ensures |end.threads| == |s.threads|
    ensures end.threads[t].script == s.threads[t].script[i..] && (end.threads[t].at.Idle? || end.threads[t].at.Ready?)
    ensures InTheWay(end, u, t, s.threads[t].script[i], s.threads[u].script[j].release[k])
  {
    InitInv(rank, s);
    var r, q := s.threads[t].script[i], s.threads[u].script[j];
    var one, s1 := Completes(rank, s, t, |s.threads[t].script| - i);
    var two, s2 := Completes(rank, s1, u, |s.threads[u].script| - j);
    var three: seq<State>;
    three, end := ReachesRelease(rank, s2, u, 0, k);
    RunsMeet(one, two);
    RunsMeet(one + two[1..], three);
    run := one + two[1..] + three[1..];
    var rest := q.release[k..];
    assert rest[0] in Elems(rest);
    forall x | x in Holding(end.threads[u]) ensures x !in Lead(r) {
      var n :| 0 <= n < |rest| && rest[n] == x;
      assert q.release[k + n] == x;
    }
  }

  /** Whenever requests of two threads clash, some run makes one of them give back. */
  lemma ClashGivesBack(rank: Lock -> int, s: State, t: Tid, i: nat, u: Tid, j: nat, k: nat) returns (run: seq<State>)
    requires Init(rank, s) && Clash(s, t, i, u, j, k)
    ensures IsRun(run) && run[0] == s && |run| > 1 && GivesBack(run[|run| - 2], run[|run| - 1], t)
    ensures run[|run| - 2].threads[t].script == s.threads[t].script[i..]
  {
    var r := s.threads[t].script[i];
    var before, middle := Confront(rank, s, t, i, u, j, k);
    var last := IsRefused(rank, middle, t, u, r, s.threads[u].script[j].release[k]);
    RunsMeet(before, last);
    run := before + last[1..];
  }

  // ---------- The exact condition ----------

  ghost predicate EndsGivingBack(s: State, run: seq<State>, t: Tid) {
    IsRun(run) && run[0] == s && |run| > 1 && GivesBack(run[|run| - 2], run[|run| - 1], t)
  }

  ghost predicate SomeRunGivesBack(s: State) {
    exists run: seq<State>, t: Tid :: EndsGivingBack(s, run, t)
  }

  /** A run that ends with a blocking acquisition rolling back. */
  ghost predicate EndsRollingBack(s: State, run: seq<State>, t: Tid) {
    IsRun(run) && run[0] == s && |run| > 1 && Retries.RollsBack(run[|run| - 2], run[|run| - 1], t)
    && run[|run| - 2].threads[t].script != [] && !run[|run| - 2].threads[t].script[0].plan.trying
  }

  ghost predicate SomeRunRollsBack(s: State) {
    exists run: seq<State>, t: Tid :: EndsRollingBack(s, run, t)
  }

  lemma FrontIsRun(run: seq<State>)
    requires IsRun(run) && |run| > 1
    ensures IsRun(run[..|run| - 1])
  {
    var front := run[..|run| - 1];
    forall k | 0 <= k < |front| - 1 ensures Step(front[k], front[k + 1]) { assert Step(run[k], run[k + 1]); }
  }

  /** If only the last step of a run gives anything back, it is the last step that does. */
  lemma LastGivesBack(run: seq<State>) returns (t: Tid)
    requires |run| > 1 && NoGiveBack(run[..|run| - 1]) && !NoGiveBack(run)
    ensures GivesBack(run[|run| - 2], run[|run| - 1], t)
  {
    hide GivesBack;
    var n := |run| - 1;
    assert forall m | 0 <= m < n :: run[..n][m] == run[m];
    var j, k;
    t, j, k :| 0 <= j && k == j + 1 && k < |run| && GivesBack(run[j], run[k], t);
    assert k == n;
  }

  /** Either nothing is given back in a run, or requests of its first state clash. */
  lemma {:induction false} QuietOrClash(rank: Lock -> int, pool: set<Req>, run: seq<State>)
    requires IsRun(run) && Init(rank, run[0]) && SameFirst(pool) && AsksFrom(pool, run[0])
    ensures NoGiveBack(run) || Clashes(run[0])
  {
    hide GivesBack, Clashes, NoGiveBack, Init;
    if |run| == 1 {
      OneStateIsQuiet(run);
    } else if !NoGiveBack(run) {
      var n := |run| - 1;
      FrontIsRun(run);
      QuietOrClash(rank, pool, run[..n]);
      if NoGiveBack(run[..n]) {
        var t := LastGivesBack(run);
        assert Step(run[n - 1], run[n - 1 + 1]);
        GivesBackOnlyByClash(rank, pool, run[..n], run[n - 1], run[n], t);
      }
    }
  }

  lemma OneStateIsQuiet(run: seq<State>)
    requires |run| == 1
    ensures NoGiveBack(run)
  {
  }

  /** For programs that follow the advice, some run has an acquisition that gives back what it took, if
      and only if requests of two threads clash. */
  lemma GivesBackExactly(rank: Lock -> int, pool: set<Req>, s: State)
    requires Init(rank, s) && SameFirst(pool) && AsksFrom(pool, s)
    ensures SomeRunGivesBack(s) <==> Clashes(s)
  {
    if SomeRunGivesBack(s) {
      var run: seq<State>, t: Tid :| EndsGivingBack(s, run, t);
      QuietOrClash(rank, pool, run);
    }
    if Clashes(s) {
      var t: Tid, i: nat, u: Tid, j: nat, k: nat :| Clash(s, t, i, u, j, k);
      var run := ClashGivesBack(rank, s, t, i, u, j, k);
      assert EndsGivingBack(s, run, t);
    }
  }

  ghost predicate OnlyBlocks(s: State) {
    forall t, i | 0 <= t < |s.threads| && 0 <= i < |s.threads[t].script| :: !s.threads[t].script[i].plan.trying
  }

  /** The request that is in the way of another is in the way of a try-lock. */
  ghost predicate TryClashes(s: State) {
    exists t: Tid, i: nat, u: Tid, j: nat, k: nat :: Clash(s, t, i, u, j, k) && s.threads[t].script[i].plan.trying
  }

  ghost predicate BlockingClashes(s: State) {
    exists t: Tid, i: nat, u: Tid, j: nat, k: nat :: Clash(s, t, i, u, j, k) && !s.threads[t].script[i].plan.trying
  }

  /** In its first round a blocking acquisition that rolls back has something to give back. */
  lemma RollingBackGivesBack(rank: Lock -> int, s: State, t: Tid, a: Action)
    requires Inv(rank, s) && FirstRound(s) && Can(s, t, a) && Rollback(s.threads[t], a)
    requires HasFirst(s.threads[t].script[0])
    ensures GivesBack(s, After(s, t, a), t)
  {
    assert ThreadOk(rank, s.threads[t]) && ThreadInFirstRound(s.threads[t]);
    TrialHoldsFirst(s.threads[t].script[0], s.threads[t].at.ph);
  }

  /** What a blocking thread that rolls back does is to be refused. */
  lemma RollsBackMeans(rank: Lock -> int, s: State, t: Tid, v: Tid, a: Action)
    requires Inv(rank, s) && Can(s, v, a) && Retries.RollsBack(s, After(s, v, a), t)
    requires s.threads[t].script != [] && !s.threads[t].script[0].plan.trying
    ensures v == t && Rollback(s.threads[t], a)
  {
    assert ThreadOk(rank, s.threads[t]);
    var plan, ph := s.threads[t].script[0].plan, s.threads[t].at.ph;
    if a.ev.ok { SettledScan(plan, ph.first, ph.i, ph.p + 1); }
  }

  lemma RollbackMeansClash(rank: Lock -> int, pool: set<Req>, s: State, run: seq<State>, t: Tid)
    requires Init(rank, s) && SameFirst(pool) && AsksFrom(pool, s) && EndsRollingBack(s, run, t)
    ensures Clashes(s)
  {
    QuietOrClash(rank, pool, run);
    if NoGiveBack(run) {
      var n := |run| - 2;
      NoRollbackMeansFirstRound(rank, pool, run, n);
      var v, a := StepOf(run, n);
      RollsBackMeans(rank, run[n], t, v, a);
      assert ScriptFrom(pool, run[n].threads[t]) && ThreadOk(rank, run[n].threads[t]);
      assert ThreadInFirstRound(run[n].threads[t]);
      TrialHasFirst(rank, pool, run[n].threads[t]);
      RollingBackGivesBack(rank, run[n], t, a);
    }
  }

  /** For every program that follows the advice: a clash in the way of a blocking call makes some run roll
      back, and only a clash can. */
  lemma AdviceFailsWithin(rank: Lock -> int, pool: set<Req>, s: State)
    requires Init(rank, s) && SameFirst(pool) && AsksFrom(pool, s)
    ensures BlockingClashes(s) ==> SomeRunRollsBack(s)
    ensures SomeRunRollsBack(s) ==> Clashes(s)
  {
    if BlockingClashes(s) {
      var t: Tid, i: nat, u: Tid, j: nat, k: nat :|
        Clash(s, t, i, u, j, k) && !s.threads[t].script[i].plan.trying;
      var run := ClashGivesBack(rank, s, t, i, u, j, k);
      assert EndsRollingBack(s, run, t);
    }
    if SomeRunRollsBack(s) {
      var run: seq<State>, t: Tid :| EndsRollingBack(s, run, t);
      RollbackMeansClash(rank, pool, s, run, t);
    }
  }

  /** When following the advice is not enough to prevent every re-acquisition: if no clash is in the way
      of a try-lock, in particular in programs of blocking calls, some run rolls back if and only if two
      different threads make conflicting requests q and r, such that q still has to release a lock of r
      when it has released everything that r leads with. */
  lemma AdviceFailsExactly(rank: Lock -> int, pool: set<Req>, s: State)
    requires Init(rank, s) && SameFirst(pool) && AsksFrom(pool, s) && !TryClashes(s)
    ensures SomeRunRollsBack(s) <==> Clashes(s)
  {
    AdviceFailsWithin(rank, pool, s);
    if Clashes(s) {
      var t: Tid, i: nat, u: Tid, j: nat, k: nat :| Clash(s, t, i, u, j, k);
      assert !s.threads[t].script[i].plan.trying;
    }
  }

  lemma OnlyBlocksHasNoTryClash(s: State)
    requires OnlyBlocks(s)
    ensures !TryClashes(s)
  {
  }

  // ---------- No clash, no livelock ----------

  lemma {:induction false} QuietRunIsShort(rank: Lock -> int, pool: set<Req>, run: seq<State>, k: nat)
    requires IsRun(run) && Init(rank, run[0]) && SameFirst(pool) && AsksFrom(pool, run[0])
    requires NoGiveBack(run) && k < |run|
    ensures Work(run[k]) + k <= Work(run[0])
  {
    if k > 0 {
      QuietRunIsShort(rank, pool, run, k - 1);
      NoRollbackMeansFirstRound(rank, pool, run, k - 1);
      var s := run[k - 1];
      var t, a := StepOf(run, k - 1);
      assert !GivesBack(s, run[k], t);
      if Rollback(s.threads[t], a) {
        assert ScriptFrom(pool, s.threads[t]) && ThreadOk(rank, s.threads[t]) && ThreadInFirstRound(s.threads[t]);
        TrialHasFirst(rank, pool, s.threads[t]);
        RollingBackGivesBack(rank, s, t, a);
      }
      StepWork(rank, s, t, a);
    }
  }

  /** A program that follows the advice and has no clash cannot livelock, retrying collections and all:
      every run is finite, with a bound known at the start, and one that cannot go on has finished. */
  lemma AdviceTerminates(rank: Lock -> int, pool: set<Req>, run: seq<State>)
    requires IsRun(run) && Init(rank, run[0]) && SameFirst(pool) && AsksFrom(pool, run[0]) && !Clashes(run[0])
    ensures |run| <= Work(run[0]) + 1
    ensures NoneForgotten(run[|run| - 1]) && Stuck(run[|run| - 1]) ==> Done(run[|run| - 1])
  {
    QuietOrClash(rank, pool, run);
    QuietRunIsShort(rank, pool, run, |run| - 1);
    InitInv(rank, run[0]);
    RunKeepsInv(rank, run, |run| - 1);
    if NoneForgotten(run[|run| - 1]) {
      NotStuck(rank, run[|run| - 1]);
    }
  }

  // ---------- Reading the condition ----------

  /** Where the first element is a single lock, released first, the condition is that the two requests
      conflict and share any other lock at all. */
  lemma ClashIsSharing(rank: Lock -> int, pool: set<Req>, q: Req, r: Req)
    requires SameFirst(pool) && q in pool && r in pool && ReqOk(rank, q) && ReqOk(rank, r)
    requires HasFirst(q) && HasFirst(r)
    requires Lead(r) == {First(r)} && q.release != [] && q.release[0] == First(q)
    ensures (exists k: nat :: Meets(q, k, r))
            <==> (q.mode == Write || r.mode == Write) && All(q.plan) * All(r.plan) - {First(r)} != {}
  {
    if k: nat :| Meets(q, k, r) {
      assert q.release[k] in Elems(q.release);
      assert q.release[k] in All(q.plan) * All(r.plan) - {First(r)};
    }
    if (q.mode == Write || r.mode == Write) && All(q.plan) * All(r.plan) - {First(r)} != {} {
      var l :| l in All(q.plan) * All(r.plan) - {First(r)};
      assert l in Elems(q.release);
      var k :| 0 <= k < |q.release| && q.release[k] == l;
      MoreLocksMeansTries(r, l);
      assert Meets(q, k, r);
    }
  }

  lemma MoreLocksMeansTries(r: Req, l: Lock)
    requires HasFirst(r) && l in All(r.plan) && l !in Lead(r)
    ensures Tries(r)
  {
    if |r.plan.groups| == 1 {
      assert All(r.plan) == Below(r.plan.groups, 0) + Elems(r.plan.groups[0]);
    }
  }

  // ---------- The smallest program the advice fails for ----------

  /** A retrying acquisition of two locks. */
  function TwoLocks(): Req {
    Req(Plan([[0], [1]], false), Write, [0, 1], [])
  }

  lemma TwoLocksAll()
    ensures All(TwoLocks().plan) == {0, 1}
  {
    var plan := TwoLocks().plan;
    assert Below(plan.groups, 1) == {0} by { assert Below(plan.groups, 0) == {}; }
    assert Below(plan.groups, 2) == {0, 1};
  }

  lemma TwoLocksOk(rank: Lock -> int)
    ensures ReqOk(rank, TwoLocks())
  {
    hide All;
    TwoLocksAll();
  }

  lemma TwoLocksMeet()
    ensures Meets(TwoLocks(), 1, TwoLocks())
  {
    TwoLocksAll();
  }

  function TwoThreads(): State {
    State([Thread([TwoLocks()], false, Idle), Thread([TwoLocks()], false, Idle)], map[], map[], [])
  }

  /** Two threads that lock the same two locks, in the same order, follow the advice and may still roll
      back: one gives back the first lock while it still holds the second. */
  lemma AdviceStillRollsBack(rank: Lock -> int) returns (run: seq<State>)
    ensures Init(rank, TwoThreads()) && OnlyBlocks(TwoThreads())
    ensures SameFirst({TwoLocks()}) && AsksFrom({TwoLocks()}, TwoThreads())
    ensures EndsRollingBack(TwoThreads(), run, 0)
  {
    TwoLocksOk(rank);
    TwoLocksMeet();
    hide ReqOk, Meets;
    assert Clash(TwoThreads(), 0, 0, 1, 0, 1);
    run := ClashGivesBack(rank, TwoThreads(), 0, 0, 1, 0, 1);
  }
}
