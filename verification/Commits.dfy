/** What the log of committed sections has to do with the scripts: each thread commits exactly the sections
    of its script, in order, except for try-locks that fail. */
module Commits {
  import opened Locks
  import opened Protocol
  import opened Machine
  import DeadlockFreedom
  import opened Atomicity

  // ---------- Counting sections ----------

  /** Sections a thread still has to commit. */
  function Owed(th: Thread): nat {
    if (th.at.Releasing? || th.at.Forgotten?) && th.script != [] then |th.script| - 1 else |th.script|
  }

  ghost predicate NoTryLocks(s: State) {
    forall t | 0 <= t < |s.threads| :: NoTry(s.threads[t].script)
  }

  predicate NoTry(script: seq<Req>) {
    forall i | 0 <= i < |script| :: !script[i].plan.trying
  }

  function TotalOwed(s: State): nat {
    DeadlockFreedom.Total(Owed, s.threads)
  }

  lemma MovedCount(rank: Lock -> int, th: Thread, a: Action, data: map<Lock, int>)
    requires ThreadOk(rank, th) && NoTry(th.script) && Allows(th, a)
    ensures NoTry(Moved(th, a, data).script)
    ensures Owed(Moved(th, a, data)) + (if a.Finish? || a.Forget? then 1 else 0) == Owed(th)
  {
  }

  /** Without try-locks, a section is committed exactly once. */
  lemma StepKeepsCount(rank: Lock -> int, s: State, s': State)
    requires Inv(rank, s) && NoTryLocks(s) && Step(s, s')
    ensures NoTryLocks(s') && |s'.log| + TotalOwed(s') == |s.log| + TotalOwed(s)
  {
    var t: Tid, a: Action :| Can(s, t, a) && s' == After(s, t, a);
    MovedCount(rank, s.threads[t], a, s.data);
    DeadlockFreedom.TotalUpdate(Owed, s.threads, t, Moved(s.threads[t], a, s.data));
  }

  lemma NothingLogged(rank: Lock -> int, s: State)
    requires Init(rank, s)
    ensures s.log == []
  {
  }

  lemma {:induction false} RunKeepsCount(rank: Lock -> int, run: seq<State>, k: nat)
    requires IsRun(run) && Init(rank, run[0]) && NoTryLocks(run[0]) && k < |run|
    ensures NoTryLocks(run[k]) && |run[k].log| + TotalOwed(run[k]) == TotalOwed(run[0])
  {
    if k == 0 {
      NothingLogged(rank, run[0]);
    } else {
      InitInv(rank, run[0]);
      hide Init, Inv, NoTryLocks, TotalOwed, Step;
      RunKeepsCount(rank, run, k - 1);
      RunKeepsInv(rank, run, k - 1);
      assert Step(run[k - 1], run[k - 1 + 1]);
      StepKeepsCount(rank, run[k - 1], run[k]);
    }
  }

  // ---------- Which sections, in which order ----------

  /** The entries of one thread. */
  function Mine(log: seq<Entry>, t: Tid): seq<Entry> {
    if log == [] then []
    else Mine(log[..|log| - 1], t) + if log[|log| - 1].who == t then [log[|log| - 1]] else []
  }

  /** The entry is of a section that makes this request: the accesses of its body up to where a panic or
      a forgotten guard cut it short, and whole if nothing did. */
  ghost predicate EntryOf(e: Entry, req: Req) {
    e.ops <= req.body && (e.whole <==> e.ops == req.body)
  }

  /** The entries are of these requests, one each, in order, except that a try-lock may have none. */
  ghost predicate EntriesOf(reqs: seq<Req>, mine: seq<Entry>)
    decreases |reqs|
  {
    if reqs == [] then mine == []
    else
      var front, last := reqs[..|reqs| - 1], reqs[|reqs| - 1];
      || (mine != [] && EntryOf(mine[|mine| - 1], last) && EntriesOf(front, mine[..|mine| - 1]))
      || (last.plan.trying && EntriesOf(front, mine))
  }

  predicate Committed(th: Thread) {
    th.at.Releasing? || th.at.Forgotten?
  }

  /** How much of its script a thread has behind it: what it has dropped, and what it has committed and
      not yet left. */
  function Behind(start: Thread, th: Thread): nat
    requires |th.script| <= |start.script|
  {
    |start.script| - |th.script| + if Committed(th) && th.script != [] then 1 else 0
  }

  ghost predicate Recorded(start: Thread, th: Thread, mine: seq<Entry>) {
    && |th.script| <= |start.script| && th.script == start.script[|start.script| - |th.script|..]
    && EntriesOf(start.script[..Behind(start, th)], mine)
  }

  lemma OneMoreEntry(reqs: seq<Req>, mine: seq<Entry>, req: Req, e: Entry)
    requires EntriesOf(reqs, mine) && EntryOf(e, req)
    ensures EntriesOf(reqs + [req], mine + [e])
  {
    assert (reqs + [req])[..|reqs|] == reqs && (mine + [e])[..|mine|] == mine;
  }

  lemma OneTriedInVain(reqs: seq<Req>, mine: seq<Entry>, req: Req)
    requires EntriesOf(reqs, mine) && req.plan.trying
    ensures EntriesOf(reqs + [req], mine)
  {
    assert (reqs + [req])[..|reqs|] == reqs;
  }

  /** The thread goes one request ahead by committing it, or by failing to lock it. */
  predicate Passes(a: Action) {
    a.Finish? || a.Forget? || a.GiveUp?
  }

  lemma BehindMoves(rank: Lock -> int, start: Thread, th: Thread, a: Action, data: map<Lock, int>)
    requires ThreadOk(rank, th) && Allows(th, a)
    requires |th.script| <= |start.script| && th.script == start.script[|start.script| - |th.script|..]
    ensures var th' := Moved(th, a, data);
            && |th'.script| <= |start.script| && th'.script == start.script[|start.script| - |th'.script|..]
            && Behind(start, th') == Behind(start, th) + if Passes(a) then 1 else 0
    ensures Passes(a) ==> th.script != [] && Behind(start, th) < |start.script|
                          && start.script[Behind(start, th)] == th.script[0]
    ensures a.GiveUp? ==> th.script[0].plan.trying
  {
  }

  lemma MovedRecord(rank: Lock -> int, start: Thread, th: Thread, a: Action, data: map<Lock, int>, mine: seq<Entry>,
                    e: Entry)
    requires ThreadOk(rank, th) && Allows(th, a) && Recorded(start, th, mine)
    requires a.Finish? || a.Forget? ==>
               e.ops == th.script[0].body[..th.at.k] && (e.whole <==> th.at.k == |th.script[0].body|)
    ensures Recorded(start, Moved(th, a, data), if a.Finish? || a.Forget? then mine + [e] else mine)
  {
    hide EntriesOf, Moved, ThreadOk;
    BehindMoves(rank, start, th, a, data);
    if Passes(a) {
      if !a.GiveUp? { CutIsEntry(th.script[0], th.at.k, e); }
      Passed(start.script, Behind(start, th), mine, e, !a.GiveUp?);
    }
  }

  lemma CutIsEntry(req: Req, k: nat, e: Entry)
    requires k <= |req.body| && e.ops == req.body[..k] && (e.whole <==> k == |req.body|)
    ensures EntryOf(e, req)
  {
  }

  lemma Passed(script: seq<Req>, n: nat, mine: seq<Entry>, e: Entry, commits: bool)
    requires n < |script| && EntriesOf(script[..n], mine)
    requires if commits then EntryOf(e, script[n]) else script[n].plan.trying
    ensures EntriesOf(script[..n + 1], if commits then mine + [e] else mine)
  {
    hide EntriesOf, EntryOf;
    assert script[..n + 1] == script[..n] + [script[n]];
    if commits {
      OneMoreEntry(script[..n], mine, script[n], e);
    } else {
      OneTriedInVain(script[..n], mine, script[n]);
    }
  }

  lemma MineAfter(log: seq<Entry>, e: Entry, t: Tid)
    ensures Mine(log + [e], t) == if e.who == t then Mine(log, t) + [e] else Mine(log, t)
  {
    assert (log + [e])[..|log|] == log;
  }

  lemma StepRecords(rank: Lock -> int, start: Thread, s: State, s': State, t: Tid)
    requires Inv(rank, s) && Step(s, s') && t < |s.threads|
    requires Recorded(start, s.threads[t], Mine(s.log, t))
    ensures |s'.threads| == |s.threads| && Recorded(start, s'.threads[t], Mine(s'.log, t))
  {
    hide Recorded;
    var u: Tid, a: Action :| Can(s, u, a) && s' == After(s, u, a);
    var e := if a.Finish? || a.Forget? then s'.log[|s.log|] else Entry(u, [], true);
    if a.Finish? || a.Forget? {
      MineAfter(s.log, e, t);
      assert s'.log == s.log + [e] && e.who == u;
    } else {
      assert s'.log == s.log;
    }
    if u == t {
      MovedRecord(rank, start, s.threads[u], a, s.data, Mine(s.log, t), e);
    }
  }

  lemma StartsUnrecorded(rank: Lock -> int, s: State, t: Tid)
    requires Init(rank, s) && t < |s.threads|
    ensures Recorded(s.threads[t], s.threads[t], Mine(s.log, t))
  {
    assert s.threads[t].script[..0] == [];
  }

  /** In every run, the entries of a thread are of the requests it has behind it, in order, none for some
      of its try-locks and one for each other request. */
  lemma {:induction false} RunRecords(rank: Lock -> int, run: seq<State>, k: nat, t: Tid)
    requires IsRun(run) && Init(rank, run[0]) && k < |run| && t < |run[0].threads|
    ensures |run[k].threads| == |run[0].threads|
    ensures Recorded(run[0].threads[t], run[k].threads[t], Mine(run[k].log, t))
  {
    if k == 0 {
      StartsUnrecorded(rank, run[0], t);
    } else {
      InitInv(rank, run[0]);
      hide Init, Inv, Recorded, Step, Mine;
      RunRecords(rank, run, k - 1, t);
      RunKeepsInv(rank, run, k - 1);
      assert Step(run[k - 1], run[k - 1 + 1]);
      StepRecords(rank, run[0].threads[t], run[k - 1], run[k], t);
    }
  }

  /** The log is an interleaving of the scripts: it has entries of the threads only, and those of each
      thread are of the requests of its script, one each, in order, failed try-locks aside. */
  ghost predicate LogIsProgram(start: State, log: seq<Entry>) {
    && (forall k | 0 <= k < |log| :: log[k].who < |start.threads|)
    && forall t | 0 <= t < |start.threads| :: EntriesOf(start.threads[t].script, Mine(log, t))
  }

  /** A finished run has committed the sections of every script, each thread its own in order, and each
      exactly once; only sections of try-locks may be missing. */
  lemma AllCommitted(rank: Lock -> int, run: seq<State>, end: State)
    requires IsRun(run) && Init(rank, run[0])
    requires end == run[|run| - 1] && DeadlockFreedom.Done(end)
    ensures LogIsProgram(run[0], end.log)
    ensures NoTryLocks(run[0]) ==> |end.log| == TotalOwed(run[0])
  {
    OnlyThreadsLog(rank, run, |run| - 1);
    forall t | 0 <= t < |run[0].threads| ensures EntriesOf(run[0].threads[t].script, Mine(end.log, t)) {
      RunRecords(rank, run, |run| - 1, t);
      var script := run[0].threads[t].script;
      assert end.threads[t].at.Idle? && script[..|script|] == script;
    }
    if NoTryLocks(run[0]) {
      RunKeepsCount(rank, run, |run| - 1);
      DeadlockFreedom.TotalZero(Owed, end.threads);
    }
  }

  /** Every entry is of one of the threads. */
  ghost predicate KnownOnly(s: State) {
    forall k | 0 <= k < |s.log| :: s.log[k].who < |s.threads|
  }

  lemma {:induction false} OnlyThreadsLog(rank: Lock -> int, run: seq<State>, k: nat)
    requires IsRun(run) && Init(rank, run[0]) && k < |run|
    ensures |run[k].threads| == |run[0].threads| && KnownOnly(run[k])
  {
    if k > 0 {
      OnlyThreadsLog(rank, run, k - 1);
      var s, s' := run[k - 1], run[k];
      assert Step(run[k - 1], run[k - 1 + 1]);
      var u: Tid, a: Action :| Can(s, u, a) && s' == After(s, u, a);
      assert forall j | 0 <= j < |s'.log| :: s'.log[j] == (if j < |s.log| then s.log[j] else s'.log[|s.log|]);
    }
  }

  /** Where no request is a try-lock, that means one entry for every request. */
  lemma {:induction false} EntryForEach(reqs: seq<Req>, mine: seq<Entry>)
    requires EntriesOf(reqs, mine) && NoTry(reqs)
    ensures |mine| == |reqs| && forall i | 0 <= i < |reqs| :: EntryOf(mine[i], reqs[i])
    decreases |reqs|
  {
    if reqs != [] {
      var front := reqs[..|reqs| - 1];
      assert forall i | 0 <= i < |front| :: front[i] == reqs[i];
      EntryForEach(front, mine[..|mine| - 1]);
    }
  }

  /** So a finished run has done to the data what some one-at-a-time execution of the program does: one
      that runs the sections of each thread in the order of its script. */
  lemma FinishedRunIsSerial(rank: Lock -> int, run: seq<State>, end: State)
    requires IsRun(run) && Init(rank, run[0])
    requires end == run[|run| - 1] && DeadlockFreedom.Done(end)
    ensures exists log: seq<Entry> ::
              LogIsProgram(run[0], log) && forall l: Lock :: Val(end.data, l) == Val(Replay(run[0].data, log), l)
  {
    AllCommitted(rank, run, end);
    forall l: Lock ensures Val(end.data, l) == Val(Replay(run[0].data, end.log), l) {
      Atomic(rank, run, |run| - 1, l);
    }
  }
}
