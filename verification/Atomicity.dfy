/** Critical sections are atomic: whatever the interleaving, the data are those of running the
    committed sections one at a time, in the order in which they commit. */
module Atomicity {
  import opened Locks
  import opened Protocol
  import opened Machine

  // ---------- Running sections one at a time ----------

  datatype Outcome = Outcome(regs: map<nat, int>, data: map<Lock, int>)

  /** A section run alone, from fresh registers. */
  function Exec(ops: seq<Op>, data: map<Lock, int>): Outcome {
    if ops == [] then Outcome(map[], data)
    else
      var last := ops[|ops| - 1];
      var before := Exec(ops[..|ops| - 1], data);
      Outcome(RegsAfter(last, before.regs, before.data), DataAfter(last, before.regs, before.data))
  }

  /** The atomic system: the committed sections, one after the other. */
  function Replay(init: map<Lock, int>, log: seq<Entry>): map<Lock, int> {
    if log == [] then init
    else Exec(log[|log| - 1].ops, Replay(init, log[..|log| - 1])).data
  }

  predicate Agree(a: map<Lock, int>, b: map<Lock, int>, on: set<Lock>) {
    forall l | l in on :: Val(a, l) == Val(b, l)
  }

  predicate Within(ops: seq<Op>, on: set<Lock>) {
    forall k | 0 <= k < |ops| :: ops[k].l in on
  }

  /** A section sees and changes only the locks it names. */
  lemma {:induction false} ExecLocal(ops: seq<Op>, a: map<Lock, int>, b: map<Lock, int>, on: set<Lock>)
    requires Within(ops, on) && Agree(a, b, on)
    ensures Exec(ops, a).regs == Exec(ops, b).regs
    ensures Agree(Exec(ops, a).data, Exec(ops, b).data, on)
  {
    if ops != [] {
      assert ops[|ops| - 1].l in on;
      assert Within(ops[..|ops| - 1], on);
      ExecLocal(ops[..|ops| - 1], a, b, on);
    }
  }

  lemma {:induction false} ExecFrame(ops: seq<Op>, data: map<Lock, int>, l: Lock)
    requires forall k | 0 <= k < |ops| :: ops[k].Put? ==> ops[k].l != l
    ensures Val(Exec(ops, data).data, l) == Val(data, l)
  {
    if ops != [] {
      ExecFrame(ops[..|ops| - 1], data, l);
      assert ops[|ops| - 1].Put? ==> ops[|ops| - 1].l != l;
    }
  }

  // ---------- The simulation ----------

  predicate InSection(th: Thread) {
    th.at.Critical? && th.script != [] && th.at.k <= |th.script[0].body|
  }

  /** The section a thread is in has so far done to the data what its accesses do to `atomic`. */
  predicate SectionInSync(th: Thread, data: map<Lock, int>, atomic: map<Lock, int>)
    requires InSection(th)
  {
    var sofar := Exec(th.script[0].body[..th.at.k], atomic);
    sofar.regs == th.at.regs && Agree(sofar.data, data, All(th.script[0].plan))
  }

  /** No thread in its section holds l exclusively. */
  ghost predicate Unwritten(s: State, l: Lock) {
    forall t: Tid :: t < |s.threads| && InSection(s.threads[t]) && l in Holding(s.threads[t])
                     ==> ModeOf(s.threads[t]) == Read
  }

  /** The data are those of the atomic system, except where a section in progress has advanced them. */
  ghost predicate InSync(s: State, atomic: map<Lock, int>) {
    && (forall l: Lock | Unwritten(s, l) :: Val(s.data, l) == Val(atomic, l))
    && (forall t | 0 <= t < |s.threads| && InSection(s.threads[t]) :: SectionInSync(s.threads[t], s.data, atomic))
  }

  /** While a thread holds a lock, no access that any other thread can make to its data changes them. */
  lemma OthersDoNotWrite(rank: Lock -> int, s: State, t: Tid, u: Tid, l: Lock)
    requires Inv(rank, s) && t != u && Holds(s, t, l) && Can(s, u, Use)
    ensures Val(After(s, u, Use).data, l) == Val(s.data, l)
  {
    var th := s.threads[u];
    var req := th.script[0];
    assert ReqOk(rank, req);
    if req.body[th.at.k].l == l {
      assert Holds(s, u, l);
      Exclusive(rank, s, t, u, l);
    }
  }

  lemma UseKeepsSync(rank: Lock -> int, s: State, t: Tid, atomic: map<Lock, int>)
    requires Inv(rank, s) && Can(s, t, Use) && InSync(s, atomic)
    ensures InSync(After(s, t, Use), atomic)
  {
    var s' := After(s, t, Use);
    OwnUseInSync(rank, s, t, atomic);
    forall u | 0 <= u < |s'.threads| && u != t && InSection(s'.threads[u])
      ensures SectionInSync(s'.threads[u], s'.data, atomic)
    {
      OtherUseInSync(rank, s, t, u, atomic);
    }
    forall l: Lock | Unwritten(s', l) ensures Val(s'.data, l) == Val(atomic, l) {
      UnwrittenByUse(rank, s, t, l);
    }
  }

  /** The access of a section is the next one of its body. */
  lemma OwnUseInSync(rank: Lock -> int, s: State, t: Tid, atomic: map<Lock, int>)
    requires Inv(rank, s) && Can(s, t, Use) && SectionInSync(s.threads[t], s.data, atomic)
    ensures SectionInSync(After(s, t, Use).threads[t], After(s, t, Use).data, atomic)
  {
    var req, k := s.threads[t].script[0], s.threads[t].at.k;
    assert ReqOk(rank, req);
    ExecNext(req.body, k, atomic);
    hide ReqOk, Exec, All, RegsAfter, DataAfter, Inv;
    AccessAgrees(req.body[k], Exec(req.body[..k], atomic), s.threads[t].at.regs, s.data, All(req.plan));
  }

  lemma ExecNext(body: seq<Op>, k: nat, data: map<Lock, int>)
    requires k < |body|
    ensures var before := Exec(body[..k], data);
            Exec(body[..k + 1], data)
            == Outcome(RegsAfter(body[k], before.regs, before.data), DataAfter(body[k], before.regs, before.data))
  {
    assert body[..k + 1][..k] == body[..k];
  }

  lemma AccessAgrees(op: Op, sofar: Outcome, regs: map<nat, int>, data: map<Lock, int>, on: set<Lock>)
    requires sofar.regs == regs && Agree(sofar.data, data, on) && op.l in on
    ensures RegsAfter(op, sofar.regs, sofar.data) == RegsAfter(op, regs, data)
    ensures Agree(DataAfter(op, sofar.regs, sofar.data), DataAfter(op, regs, data), on)
  {
  }

  lemma OtherUseInSync(rank: Lock -> int, s: State, t: Tid, u: Tid, atomic: map<Lock, int>)
    requires Inv(rank, s) && Can(s, t, Use) && u != t && u < |s.threads| && InSection(s.threads[u])
    requires SectionInSync(s.threads[u], s.data, atomic)
    ensures SectionInSync(s.threads[u], After(s, t, Use).data, atomic)
  {
    forall l | l in All(s.threads[u].script[0].plan) ensures Val(After(s, t, Use).data, l) == Val(s.data, l) {
      assert Holds(s, u, l);
      OthersDoNotWrite(rank, s, u, t, l);
    }
  }

  /** Data that no section writes afterwards were not written by this access, nor before it. */
  lemma UnwrittenByUse(rank: Lock -> int, s: State, t: Tid, l: Lock)
    requires Inv(rank, s) && Can(s, t, Use) && Unwritten(After(s, t, Use), l)
    ensures Unwritten(s, l) && Val(After(s, t, Use).data, l) == Val(s.data, l)
  {
    var s' := After(s, t, Use);
    var op := s.threads[t].script[0].body[s.threads[t].at.k];
    assert ReqOk(rank, s.threads[t].script[0]);
    assert op.l == l ==> InSection(s'.threads[t]) && l in Holding(s'.threads[t]);
    forall u: Tid | u < |s.threads| && InSection(s.threads[u]) && l in Holding(s.threads[u])
      ensures ModeOf(s.threads[u]) == Read
    {
      assert InSection(s'.threads[u]) && l in Holding(s'.threads[u]);
    }
  }

  lemma EnterKeepsSync(rank: Lock -> int, s: State, t: Tid, atomic: map<Lock, int>)
    requires Inv(rank, s) && Can(s, t, Enter) && InSync(s, atomic)
    ensures InSync(After(s, t, Enter), atomic)
  {
    var s' := After(s, t, Enter);
    var th := s.threads[t];
    assert th.script[0].body[..0] == [];
    forall l | l in All(th.script[0].plan) ensures Val(s.data, l) == Val(atomic, l) {
      assert Holds(s, t, l);
      assert Unwritten(s, l) by {
        forall u: Tid | u < |s.threads| && InSection(s.threads[u]) && l in Holding(s.threads[u])
          ensures ModeOf(s.threads[u]) == Read
        {
          Exclusive(rank, s, t, u, l);
        }
      }
    }
    forall l: Lock | Unwritten(s', l) ensures Val(s'.data, l) == Val(atomic, l) {
      assert Unwritten(s, l) by {
        forall u: Tid | u < |s.threads| && InSection(s.threads[u]) && l in Holding(s.threads[u])
          ensures ModeOf(s.threads[u]) == Read
        {
          assert InSection(s'.threads[u]) && l in Holding(s'.threads[u]);
        }
      }
    }
  }

  /** Committing, whether at the end, by a panic, or by forgetting the guard, is one atomic step. */
  lemma CommitKeepsSync(rank: Lock -> int, s: State, t: Tid, a: Action, atomic: map<Lock, int>)
    requires Inv(rank, s) && Can(s, t, a) && (a.Finish? || a.Forget?) && InSync(s, atomic)
    ensures var th := s.threads[t];
            InSync(After(s, t, a), Exec(th.script[0].body[..th.at.k], atomic).data)
  {
    var s' := After(s, t, a);
    var th := s.threads[t];
    var req, ops := th.script[0], th.script[0].body[..th.at.k];
    var atomic' := Exec(ops, atomic).data;
    assert ReqOk(rank, req);
    assert SectionInSync(th, s.data, atomic);
    forall l: Lock | l !in All(req.plan) || req.mode == Read ensures Val(atomic', l) == Val(atomic, l) {
      forall k | 0 <= k < |ops| ensures ops[k].Put? ==> ops[k].l != l { assert ops[k] == req.body[k]; }
      ExecFrame(ops, atomic, l);
    }
    forall u | 0 <= u < |s'.threads| && InSection(s'.threads[u])
      ensures SectionInSync(s'.threads[u], s'.data, atomic')
    {
      var other := s.threads[u];
      assert u != t && SectionInSync(other, s.data, atomic);
      forall l | l in All(other.script[0].plan) ensures Val(atomic, l) == Val(atomic', l) {
        if l in All(req.plan) {
          assert Holds(s, t, l) && Holds(s, u, l);
          Exclusive(rank, s, t, u, l);
        }
      }
      assert ReqOk(rank, other.script[0]);
      ExecLocal(other.script[0].body[..other.at.k], atomic, atomic', All(other.script[0].plan));
    }
    forall l: Lock | Unwritten(s', l) ensures Val(s'.data, l) == Val(atomic', l) {
      if l !in All(req.plan) {
        UnwrittenBefore(s, t, a, l);
      }
    }
  }

  lemma UnwrittenBefore(s: State, t: Tid, a: Action, l: Lock)
    requires Can(s, t, a) && !a.Use? && Unwritten(After(s, t, a), l)
    requires InSection(s.threads[t]) ==> l !in All(s.threads[t].script[0].plan)
    ensures Unwritten(s, l)
  {
    var s' := After(s, t, a);
    forall u: Tid | u < |s.threads| && InSection(s.threads[u]) && l in Holding(s.threads[u])
      ensures ModeOf(s.threads[u]) == Read
    {
      assert u != t && InSection(s'.threads[u]) && l in Holding(s'.threads[u]);
    }
  }

  lemma OtherKeepsSync(s: State, t: Tid, a: Action, atomic: map<Lock, int>)
    requires Can(s, t, a) && !a.Use? && !a.Enter? && !a.Finish? && !a.Forget? && InSync(s, atomic)
    ensures InSync(After(s, t, a), atomic)
  {
    var s' := After(s, t, a);
    forall l: Lock | Unwritten(s', l) ensures Val(s'.data, l) == Val(atomic, l) {
      UnwrittenBefore(s, t, a, l);
    }
  }

  lemma StepKeepsSync(rank: Lock -> int, init: map<Lock, int>, s: State, s': State)
    requires Inv(rank, s) && Step(s, s') && InSync(s, Replay(init, s.log))
    ensures InSync(s', Replay(init, s'.log))
  {
    hide Inv, Can, After, InSync, Replay;
    var t: Tid, a: Action :| Can(s, t, a) && s' == After(s, t, a);
    ActionKeepsSync(rank, init, s, t, a);
  }

  lemma ActionKeepsSync(rank: Lock -> int, init: map<Lock, int>, s: State, t: Tid, a: Action)
    requires Inv(rank, s) && Can(s, t, a) && InSync(s, Replay(init, s.log))
    ensures InSync(After(s, t, a), Replay(init, After(s, t, a).log))
  {
    hide Inv, InSync;
    var atomic := Replay(init, s.log);
    var log := After(s, t, a).log;
    if a.Use? { UseKeepsSync(rank, s, t, atomic); }
    else if a.Enter? { EnterKeepsSync(rank, s, t, atomic); }
    else if a.Finish? || a.Forget? {
      CommitKeepsSync(rank, s, t, a, atomic);
      assert log[..|log| - 1] == s.log;
    } else { OtherKeepsSync(s, t, a, atomic); }
  }

  /** The forward simulation, along any run. */
  lemma {:induction false} RunInSync(rank: Lock -> int, run: seq<State>, k: nat)
    requires IsRun(run) && Init(rank, run[0]) && k < |run|
    ensures InSync(run[k], Replay(run[0].data, run[k].log))
  {
    if k == 0 {
      StartsInSync(rank, run[0]);
    } else {
      InitInv(rank, run[0]);
      hide Init, Inv, InSync, Replay, Step;
      RunInSync(rank, run, k - 1);
      RunKeepsInv(rank, run, k - 1);
      assert Step(run[k - 1], run[k - 1 + 1]);
      StepKeepsSync(rank, run[0].data, run[k - 1], run[k]);
    }
  }

  lemma StartsInSync(rank: Lock -> int, s: State)
    requires Init(rank, s)
    ensures InSync(s, Replay(s.data, s.log))
  {
  }

  /** In any state where no thread is inside its section, the data are exactly those of the committed
      sections run one at a time. */
  lemma Atomic(rank: Lock -> int, run: seq<State>, k: nat, l: Lock)
    requires IsRun(run) && Init(rank, run[0]) && k < |run|
    requires forall t | 0 <= t < |run[k].threads| :: !run[k].threads[t].at.Critical?
    ensures Val(run[k].data, l) == Val(Replay(run[0].data, run[k].log), l)
  {
    RunInSync(rank, run, k);
    assert Unwritten(run[k], l);
  }
}
