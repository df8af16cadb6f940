/** Whole programs of lock calls: the library's promises, for every run of every program. */
module Programs {
  import opened Locks
  import opened Protocol
  import opened Machine
  import opened Pointers
  import opened Trees
  import opened Lockable
  import opened Guarding
  import opened World
  import opened DeadlockFreedom
  import opened Commits
  import opened Calls

  ghost predicate ProgramOk(world: seq<Ptr>, program: seq<seq<Call>>) {
    forall t, i | 0 <= t < |program| && 0 <= i < |program[t]| :: CallOk(world, program[t][i])
  }

  function ScriptOf(calls: seq<Call>): seq<Req> {
    seq(|calls|, i requires 0 <= i < |calls| => RequestOf(calls[i]))
  }

  /** One thread for each list of calls, with all locks free. */
  ghost function Launch(program: seq<seq<Call>>, data: map<Lock, int>): State {
    State(seq(|program|, t requires 0 <= t < |program| => Thread(ScriptOf(program[t]), false, Idle)), map[], data, [])
  }

  lemma LaunchIsInitial(world: seq<Ptr>, program: seq<seq<Call>>, data: map<Lock, int>)
    requires WorldOk(world) && ProgramOk(world, program)
    ensures Init(RankIn(world), Launch(program, data))
  {
    forall t, i | 0 <= t < |program| && 0 <= i < |program[t]|
      ensures ReqOk(RankIn(world), ScriptOf(program[t])[i])
    {
      CallIsOk(world, program[t][i]);
    }
  }

  /** A run of the program. */
  ghost predicate Runs(world: seq<Ptr>, program: seq<seq<Call>>, data: map<Lock, int>, run: seq<State>) {
    WorldOk(world) && ProgramOk(world, program) && IsRun(run) && run[0] == Launch(program, data)
  }

  lemma RunIsOk(world: seq<Ptr>, program: seq<seq<Call>>, data: map<Lock, int>, run: seq<State>, k: nat)
    requires Runs(world, program, data, run) && k < |run|
    ensures Init(RankIn(world), run[0]) && Inv(RankIn(world), run[k])
  {
    LaunchIsInitial(world, program, data);
    InitInv(RankIn(world), run[0]);
    RunKeepsInv(RankIn(world), run, k);
  }

  /** Whatever collections the threads of a program lock, no reachable state has a circular wait. */
  lemma ProgramsDoNotDeadlock(world: seq<Ptr>, program: seq<seq<Call>>, data: map<Lock, int>,
                              run: seq<State>, k: nat, cycle: seq<Tid>)
    requires Runs(world, program, data, run) && k < |run|
    ensures !WaitCycle(run[k], cycle)
  {
    LaunchIsInitial(world, program, data);
    DeadlockFree(RankIn(world), run, k, cycle);
  }

  /** And from every reachable state with no forgotten guard, the program can run to its end. */
  lemma ProgramsCanFinish(world: seq<Ptr>, program: seq<seq<Call>>, data: map<Lock, int>, run: seq<State>, k: nat)
    returns (rest: seq<State>, end: State)
    requires Runs(world, program, data, run) && k < |run| && NoneForgotten(run[k])
    ensures IsRun(rest) && rest[0] == run[k] && rest[|rest| - 1] == end && Done(end)
  {
    RunIsOk(world, program, data, run, k);
    rest, end := CanFinish(RankIn(world), run[k]);
  }

  // ---------- Which call a thread is in ----------

  /** A thread drops a call from its script when it is through with it. */
  predicate HasCall(program: seq<seq<Call>>, s: State, t: Tid) {
    t < |program| && t < |s.threads| && 0 < |s.threads[t].script| <= |program[t]|
  }

  /** The call that a thread is in, or comes to next. */
  function CallOf(program: seq<seq<Call>>, s: State, t: Tid): Call
    requires HasCall(program, s, t)
  {
    program[t][|program[t]| - |s.threads[t].script|]
  }

  lemma OnScript(world: seq<Ptr>, program: seq<seq<Call>>, data: map<Lock, int>, run: seq<State>, k: nat, t: Tid)
    requires Runs(world, program, data, run) && k < |run| && t < |run[k].threads|
    ensures |run[k].threads| == |program|
    ensures run[k].threads[t].script != [] ==>
              HasCall(program, run[k], t) && run[k].threads[t].script[0] == RequestOf(CallOf(program, run[k], t))
  {
    LaunchIsInitial(world, program, data);
    OnlyThreadsLog(RankIn(world), run, k);
    hide Init, IsRun, KnownOnly, Recorded, RequestOf, CallOf;
    RunRecords(RankIn(world), run, k, t);
    NextOnScript(run[0].threads[t], run[k].threads[t], Mine(run[k].log, t));
    NextCall(program, run[k], t);
  }

  lemma NextOnScript(start: Thread, th: Thread, mine: seq<Entry>)
    requires Recorded(start, th, mine)
    ensures |th.script| <= |start.script|
    ensures th.script != [] ==> th.script[0] == start.script[|start.script| - |th.script|]
  {
  }

  lemma NextCall(program: seq<seq<Call>>, s: State, t: Tid)
    ensures HasCall(program, s, t) ==>
              ScriptOf(program[t])[|program[t]| - |s.threads[t].script|] == RequestOf(CallOf(program, s, t))
  {
  }

  /** What a thread holds are leaves of the tree that its call locks. */
  lemma HoldsOfTree(world: seq<Ptr>, program: seq<seq<Call>>, data: map<Lock, int>, run: seq<State>, k: nat,
                    t: Tid, l: Lock)
    requires Runs(world, program, data, run) && k < |run| && Holds(run[k], t, l)
    ensures HasCall(program, run[k], t) && HasLeaf(CallOf(program, run[k], t).target, l)
    ensures ModeOf(run[k].threads[t]) == CallOf(program, run[k], t).mode
  {
    RunIsOk(world, program, data, run, k);
    OnScript(world, program, data, run, k, t);
    var th, c := run[k].threads[t], CallOf(program, run[k], t);
    HoldsInPlan(RankIn(world), th, l);
    PlanIsOk(world, c.target, c.trying);
    LeavesAreListed(c.target);
  }

  lemma HoldsInPlan(rank: Lock -> int, th: Thread, l: Lock)
    requires ThreadOk(rank, th) && l in Holding(th)
    ensures th.script != [] && l in All(th.script[0].plan)
  {
    if th.at.Acquiring? { HeldInAll(th.script[0].plan, th.at.ph); }
  }

  // ---------- Modes ----------

  /** Thread t is in a call in mode m, on a tree that has leaf l. */
  ghost predicate LocksIn(program: seq<seq<Call>>, s: State, t: Tid, l: Lock, m: Mode) {
    HasCall(program, s, t) && CallOf(program, s, t).mode == m && HasLeaf(CallOf(program, s, t).target, l)
  }

  /** In every reachable state, the raw lock under a leaf is held exclusively only by a thread that is in a
      write or lock call on a tree with that leaf, and shared only by threads in read calls on such trees. */
  lemma RawLocksFollowCalls(world: seq<Ptr>, program: seq<seq<Call>>, data: map<Lock, int>, run: seq<State>,
                            k: nat, l: Lock)
    requires Runs(world, program, data, run) && k < |run|
    ensures match HoldAt(run[k].table, l)
            case Free => true
            case Writer(u) => LocksIn(program, run[k], u, l, Write)
            case Readers(who) => forall u | u in who :: LocksIn(program, run[k], u, l, Read)
  {
    RunIsOk(world, program, data, run, k);
    assert LockOk(run[k], l);
    var h := HoldAt(run[k].table, l);
    if h.Writer? {
      assert h.owner in Holders(run[k], l, Write);
      HoldsOfTree(world, program, data, run, k, h.owner, l);
    } else if h.Readers? {
      forall u | u in h.who ensures LocksIn(program, run[k], u, l, Read) {
        assert u in Holders(run[k], l, Read);
        HoldsOfTree(world, program, data, run, k, u, l);
      }
    }
  }

  ghost predicate ReadsOnly(program: seq<seq<Call>>) {
    forall t, i | 0 <= t < |program| && 0 <= i < |program[t]| :: program[t][i].mode == Read
  }

  /** In a program that only reads, every leaf can be read at every moment: nobody waits for anybody, and
      no trial is refused. */
  lemma ReadersNeverWait(world: seq<Ptr>, program: seq<seq<Call>>, data: map<Lock, int>, run: seq<State>, k: nat,
                         t: Tid, u: Tid, l: Lock)
    requires Runs(world, program, data, run) && ReadsOnly(program) && k < |run|
    ensures !HoldAt(run[k].table, l).Writer? && CanTake(HoldAt(run[k].table, l), Read)
    ensures !WaitsFor(run[k], t, u) && !Can(run[k], t, Sync(Tried(l, false)))
  {
    RawLocksFollowCalls(world, program, data, run, k, l);
    if t < |run[k].threads| { OnScript(world, program, data, run, k, t); }
    if u < |run[k].threads| { OnScript(world, program, data, run, k, u); }
  }

  // ---------- Trying ----------

  /** A thread in a try call never waits for a lock. */
  lemma TryCallsNeverBlock(world: seq<Ptr>, program: seq<seq<Call>>, data: map<Lock, int>, run: seq<State>, k: nat,
                           t: Tid)
    requires Runs(world, program, data, run) && k < |run| && AtBlockingCall(run[k], t)
    ensures HasCall(program, run[k], t) && !CallOf(program, run[k], t).trying
  {
    OnScript(world, program, data, run, k, t);
  }

  /** And one that is not in a try call never gives up. */
  lemma OnlyTryCallsGiveUp(world: seq<Ptr>, program: seq<seq<Call>>, data: map<Lock, int>, run: seq<State>, k: nat,
                           t: Tid)
    requires Runs(world, program, data, run) && k < |run| && Can(run[k], t, GiveUp)
    ensures HasCall(program, run[k], t) && CallOf(program, run[k], t).trying
  {
    RunIsOk(world, program, data, run, k);
    OnScript(world, program, data, run, k, t);
  }

  // ---------- Bodies ----------

  /** The entry is of the body of this call, whole unless a panic or a forgotten guard cut it short. */
  ghost predicate LogsCall(e: Entry, c: Call) {
    e.ops <= c.body && (e.whole <==> e.ops == c.body)
  }

  /** The entries are of these calls, in order, one each; only a try call may have none. */
  ghost predicate LogsCalls(calls: seq<Call>, mine: seq<Entry>)
    decreases |calls|
  {
    if calls == [] then mine == []
    else
      var front, last := calls[..|calls| - 1], calls[|calls| - 1];
      || (mine != [] && LogsCall(mine[|mine| - 1], last) && LogsCalls(front, mine[..|mine| - 1]))
      || (last.trying && LogsCalls(front, mine))
  }

  lemma {:induction false} EntriesLogCalls(calls: seq<Call>, mine: seq<Entry>)
    requires EntriesOf(ScriptOf(calls), mine)
    ensures LogsCalls(calls, mine)
    decreases |calls|
  {
    if calls != [] {
      var n := |calls| - 1;
      assert ScriptOf(calls)[..n] == ScriptOf(calls[..n]);
      if mine != [] && EntriesOf(ScriptOf(calls[..n]), mine[..|mine| - 1]) {
        EntriesLogCalls(calls[..n], mine[..|mine| - 1]);
      }
      if calls[n].trying && EntriesOf(ScriptOf(calls[..n]), mine) {
        EntriesLogCalls(calls[..n], mine);
      }
    }
  }

  ghost predicate NoTryCalls(calls: seq<Call>) {
    forall i | 0 <= i < |calls| :: !calls[i].trying
  }

  /** A finished run has executed the body of every call of every thread, once and in order, except for try
      calls that failed. */
  lemma FinishedProgramLogs(world: seq<Ptr>, program: seq<seq<Call>>, data: map<Lock, int>, run: seq<State>,
                            end: State, t: Tid)
    requires Runs(world, program, data, run) && end == run[|run| - 1] && Done(end) && t < |program|
    ensures LogsCalls(program[t], Mine(end.log, t))
    ensures NoTryCalls(program[t]) ==>
              |Mine(end.log, t)| == |program[t]|
              && forall i | 0 <= i < |program[t]| :: LogsCall(Mine(end.log, t)[i], program[t][i])
  {
    LaunchIsInitial(world, program, data);
    AllCommitted(RankIn(world), run, end);
    EntriesLogCalls(program[t], Mine(end.log, t));
    if NoTryCalls(program[t]) {
      EntryForEach(ScriptOf(program[t]), Mine(end.log, t));
    }
  }

  // ---------- Release order ----------

  /** A scoped call unlocks in the order of its collection's list, any other call in the order of its guard. */
  function ReleaseOrder(c: Call): seq<Lock> {
    if c.scoped then LeavesOf(Ptrs(c.target)) else DropOrder(GuardOf(c.target))
  }

  ghost predicate LeftOver(rest: seq<Lock>, order: seq<Lock>) {
    exists i: nat :: i <= |order| && rest == order[i..]
  }

  ghost predicate ReleasesRest(th: Thread) {
    th.at.Releasing? && th.script != [] ==> LeftOver(th.at.rest, th.script[0].release)
  }

  lemma MovedReleasesRest(th: Thread, a: Action, data: map<Lock, int>)
    requires ReleasesRest(th) && Allows(th, a)
    ensures ReleasesRest(Moved(th, a, data))
  {
    if a.Finish? {
      assert th.script[0].release[0..] == th.script[0].release;
    } else if a.Unlock? {
      var i: nat :| i <= |th.script[0].release| && th.at.rest == th.script[0].release[i..];
      assert th.at.rest[1..] == th.script[0].release[i + 1..];
    }
  }

  lemma {:induction false} RunReleasesRest(rank: Lock -> int, run: seq<State>, k: nat, t: Tid)
    requires IsRun(run) && Init(rank, run[0]) && k < |run| && t < |run[k].threads|
    ensures t < |run[0].threads| && ReleasesRest(run[k].threads[t])
  {
    if k > 0 {
      var s, s' := run[k - 1], run[k];
      assert Step(run[k - 1], run[k - 1 + 1]);
      var u: Tid, a: Action :| Can(s, u, a) && s' == After(s, u, a);
      RunReleasesRest(rank, run, k - 1, t);
      if u == t { MovedReleasesRest(s.threads[t], a, s.data); }
    }
  }

  /** While a thread is letting go, what it still holds is the last part of the order in which its call
      unlocks. */
  lemma ReleasesInOrder(world: seq<Ptr>, program: seq<seq<Call>>, data: map<Lock, int>, run: seq<State>, k: nat,
                        t: Tid)
    requires Runs(world, program, data, run) && k < |run| && t < |run[k].threads| && run[k].threads[t].at.Releasing?
    ensures HasCall(program, run[k], t)
    ensures LeftOver(run[k].threads[t].at.rest, ReleaseOrder(CallOf(program, run[k], t)))
    ensures Holding(run[k].threads[t]) == Elems(run[k].threads[t].at.rest)
  {
    RunIsOk(world, program, data, run, k);
    OnScript(world, program, data, run, k, t);
    RunReleasesRest(RankIn(world), run, k, t);
  }

  /** A thread that forgets its guard keeps every leaf of the tree locked, and its key cell too, whatever
      anybody does later. */
  lemma ForgottenLocksStay(world: seq<Ptr>, program: seq<seq<Call>>, data: map<Lock, int>, run: seq<State>,
                           j: nat, k: nat, t: Tid, l: Lock)
    requires Runs(world, program, data, run) && j < k < |run|
    requires Can(run[j], t, Forget) && run[j + 1] == After(run[j], t, Forget)
    ensures HasCall(program, run[j], t) && t < |run[k].threads| && run[k].threads[t].cell
    ensures HasLeaf(CallOf(program, run[j], t).target, l) ==>
              Holds(run[k], t, l) && !CanTake(HoldAt(run[k].table, l), Write)
  {
    RunIsOk(world, program, data, run, j);
    RunIsOk(world, program, data, run, k);
    OnScript(world, program, data, run, j, t);
    ForgottenHoldsForever(run, j, k, t);
    var c := CallOf(program, run[j], t);
    PlanIsOk(world, c.target, c.trying);
    LeavesAreListed(c.target);
    if Holds(run[k], t, l) { HolderRefuses(RankIn(world), run[k], t, l, Write); }
  }

  // ---------- Termination ----------

  predicate Retries(t: Tree) {
    match t
    case Retrying(_) => true
    case Poisonable(_, inner) => Retries(inner)
    case _ => false
  }

  ghost predicate OrderedCalls(program: seq<seq<Call>>) {
    forall t, i | 0 <= t < |program| && 0 <= i < |program[t]| ::
      program[t][i].trying || !Retries(program[t][i].target)
  }

  lemma {:induction false} OneGroupOnly(t: Tree)
    requires !Retries(t)
    ensures |GroupsOf(t)| == 1
  {
    if t.Poisonable? { OneGroupOnly(t.inner); }
  }

  /** A program that blocks on no retrying collection ends under every schedule: its runs are bounded, and
      one that cannot go on is through with every call and has freed every lock. */
  lemma OrderedProgramsTerminate(world: seq<Ptr>, program: seq<seq<Call>>, data: map<Lock, int>, run: seq<State>)
    requires Runs(world, program, data, run) && OrderedCalls(program)
    ensures |run| <= Work(Launch(program, data)) + 1
    ensures NoneForgotten(run[|run| - 1]) && Stuck(run[|run| - 1]) ==> Done(run[|run| - 1])
  {
    LaunchIsInitial(world, program, data);
    forall t, i | 0 <= t < |program| && 0 <= i < |program[t]|
      ensures ScriptOf(program[t])[i].plan.trying || |ScriptOf(program[t])[i].plan.groups| <= 1
    {
      if !program[t][i].trying { OneGroupOnly(program[t][i].target); }
    }
    OrderedSystemTerminates(RankIn(world), run);
  }
}
