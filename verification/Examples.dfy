/** The library's own example programs, as instances of the general theorems. */
module Examples {
  import opened Locks
  import opened Protocol
  import opened Machine
  import DeadlockFreedom
  import opened Atomicity
  import opened Commits

  /** Every thread makes the same single section `req`. */
  ghost predicate EachMakes(s: State, req: Req) {
    forall t | 0 <= t < |s.threads| :: s.threads[t] == Thread([req], false, Idle)
  }

  ghost predicate Remaining(s: State, req: Req) {
    forall t | 0 <= t < |s.threads| :: OnlyMakes(s.threads[t].script, req)
  }

  ghost predicate OnlyMakes(script: seq<Req>, req: Req) {
    forall i | 0 <= i < |script| :: script[i] == req
  }

  ghost predicate LogOf(log: seq<Entry>, req: Req) {
    forall k | 0 <= k < |log| :: log[k].whole ==> log[k].ops == req.body
  }

  /** What is logged as whole is the whole body of the request. */
  lemma StepLogs(s: State, s': State, req: Req)
    requires Step(s, s') && Remaining(s, req) && LogOf(s.log, req)
    ensures Remaining(s', req) && LogOf(s'.log, req)
  {
    var t: Tid, a: Action :| Can(s, t, a) && s' == After(s, t, a);
    assert OnlyMakes(s.threads[t].script, req);
    assert OnlyMakes(Moved(s.threads[t], a, s.data).script, req);
  }

  lemma {:induction false} LogIsOfScripts(rank: Lock -> int, run: seq<State>, k: nat, req: Req)
    requires IsRun(run) && Init(rank, run[0]) && Remaining(run[0], req) && k < |run|
    ensures Remaining(run[k], req) && LogOf(run[k].log, req)
  {
    if k > 0 {
      LogIsOfScripts(rank, run, k - 1, req);
      StepLogs(run[k - 1], run[k], req);
    }
  }

  lemma {:induction false} OwedEach(ths: seq<Thread>, req: Req)
    requires forall t | 0 <= t < |ths| :: ths[t] == Thread([req], false, Idle)
    ensures DeadlockFreedom.Total(Owed, ths) == |ths|
  {
    if ths != [] { OwedEach(ths[1..], req); }
  }

  // ---------- examples/fibonacci.rs ----------

  /** Under a retrying collection of two cells: the second becomes the sum of both, and the first what the
      second was. */
  ghost function FibonacciStep(): Req {
    Req(Plan([[0], [1]], false), Write, [0, 1],
        [Get(1, 0), Get(1, 1), Get(0, 2),
         Put(1, regs => Reg(regs, 1) + Reg(regs, 2)),
         Put(0, regs => Reg(regs, 0))])
  }

  function Fib(n: nat): nat {
    if n < 2 then n else Fib(n - 1) + Fib(n - 2)
  }

  lemma ExecSnoc(ops: seq<Op>, op: Op, data: map<Lock, int>)
    ensures var before := Exec(ops, data);
            Exec(ops + [op], data)
            == Outcome(RegsAfter(op, before.regs, before.data), DataAfter(op, before.regs, before.data))
  {
    assert (ops + [op])[..|ops|] == ops;
  }

  lemma FibonacciStepRuns(data: map<Lock, int>)
    ensures var after := Exec(FibonacciStep().body, data).data;
            Val(after, 0) == Val(data, 1) && Val(after, 1) == Val(data, 1) + Val(data, 0)
  {
    var b := FibonacciStep().body;
    var x, y := Val(data, 0), Val(data, 1);
    var b1 := [] + [b[0]];
    var b2 := b1 + [b[1]];
    var b3 := b2 + [b[2]];
    var b4 := b3 + [b[3]];
    ExecSnoc([], b[0], data);
    ExecSnoc(b1, b[1], data);
    ExecSnoc(b2, b[2], data);
    assert Exec(b3, data) == Outcome(map[0 := y, 1 := y, 2 := x], data);
    ExecSnoc(b3, b[3], data);
    assert Exec(b4, data).data == data[1 := y + x];
    ExecSnoc(b4, b[4], data);
    assert b == b4 + [b[4]];
  }

  lemma {:induction false} FibonacciReplay(init: map<Lock, int>, log: seq<Entry>)
    requires Val(init, 0) == 0 && Val(init, 1) == 1
    requires forall k | 0 <= k < |log| :: log[k].ops == FibonacciStep().body
    ensures Val(Replay(init, log), 0) == Fib(|log|) && Val(Replay(init, log), 1) == Fib(|log| + 1)
  {
    if log != [] {
      FibonacciReplay(init, log[..|log| - 1]);
      FibonacciStepRuns(Replay(init, log[..|log| - 1]));
    }
  }

  lemma FibonacciPlan()
    ensures Distinct(FibonacciStep().plan) && All(FibonacciStep().plan) == {0, 1}
  {
    var plan := FibonacciStep().plan;
    assert Below(plan.groups, 1) == {0} by { assert Below(plan.groups, 0) == {}; }
    assert Below(plan.groups, 2) == {0, 1};
  }

  lemma FibonacciStepOk(rank: Lock -> int)
    ensures ReqOk(rank, FibonacciStep())
  {
    FibonacciPlan();
    hide Distinct, All;
  }

  lemma FibonacciStarts(rank: Lock -> int, s: State)
    requires s.table == map[] && s.log == [] && EachMakes(s, FibonacciStep())
    ensures Init(rank, s) && NoTryLocks(s) && Remaining(s, FibonacciStep()) && TotalOwed(s) == |s.threads|
  {
    FibonacciStepOk(rank);
    OwedEach(s.threads, FibonacciStep());
  }

  /** N threads, each making one Fibonacci step: under every schedule that finishes with no step cut
      short by a panic, the two cells hold the N-th and the next Fibonacci number. */
  lemma FibonacciUnderEverySchedule(run: seq<State>, end: State)
    requires IsRun(run) && run[0].table == map[] && run[0].log == [] && EachMakes(run[0], FibonacciStep())
    requires Val(run[0].data, 0) == 0 && Val(run[0].data, 1) == 1
    requires end == run[|run| - 1] && DeadlockFreedom.Done(end)
    requires forall k | 0 <= k < |end.log| :: end.log[k].whole
    ensures Val(end.data, 0) == Fib(|run[0].threads|) && Val(end.data, 1) == Fib(|run[0].threads| + 1)
  {
    var rank := (l: Lock) => l;
    FibonacciStarts(rank, run[0]);
    AllCommitted(rank, run, end);
    LogIsOfScripts(rank, run, |run| - 1, FibonacciStep());
    FibonacciReplay(run[0].data, end.log);
    Atomic(rank, run, |run| - 1, 0);
    Atomic(rank, run, |run| - 1, 1);
  }

  // ---------- examples/dining_philosophers.rs ----------

  /** Philosopher i of n locks forks i and i + 1, sorted by address, and drops them left then right. */
  function Meal(i: nat, n: nat): Req
    requires i < n
  {
    var left, right := i, (i + 1) % n;
    Req(Plan([if left < right then [left, right] else [right, left]], false), Write, [left, right], [])
  }

  ghost predicate Table(s: State, n: nat) {
    && |s.threads| == n && s.table == map[] && s.log == []
    && forall i | 0 <= i < n :: s.threads[i] == Thread([Meal(i, n)], false, Idle)
  }

  lemma MealOk(i: nat, n: nat)
    requires i < n && 2 <= n
    ensures ReqOk((l: Lock) => l, Meal(i, n))
  {
    var left, right := i, (i + 1) % n;
    assert left != right;
    var plan := Meal(i, n).plan;
    assert Below(plan.groups, 1) == {left, right} by { assert Below(plan.groups, 0) == {}; }
  }

  lemma {:induction false} OwedMeals(ths: seq<Thread>)
    requires forall i | 0 <= i < |ths| :: ths[i].at.Idle? && |ths[i].script| == 1
    ensures DeadlockFreedom.Total(Owed, ths) == |ths|
  {
    if ths != [] { OwedMeals(ths[1..]); }
  }

  /** Any number of philosophers, from two on: every run is finite, and a run that cannot go on, with
      no fork leaked, has fed everyone and put every fork back. */
  lemma PhilosophersDine(run: seq<State>, end: State, n: nat)
    requires IsRun(run) && Table(run[0], n) && 2 <= n && end == run[|run| - 1]
    ensures |run| <= DeadlockFreedom.Work(run[0]) + 1
    ensures DeadlockFreedom.NoneForgotten(end) && DeadlockFreedom.Stuck(end)
            ==> DeadlockFreedom.Done(end) && |end.log| == n
  {
    var rank := (l: Lock) => l;
    forall i | 0 <= i < n ensures ReqOk(rank, Meal(i, n)) { MealOk(i, n); }
    assert Init(rank, run[0]);
    DeadlockFreedom.OrderedSystemTerminates(rank, run);
    if DeadlockFreedom.NoneForgotten(end) && DeadlockFreedom.Stuck(end) {
      AllCommitted(rank, run, end);
      OwedMeals(run[0].threads);
    }
  }
}
