/** Sequences of calls on leaf locks, as runs of the acquisition automaton. */
module Traces {
  import opened Locks
  import opened Protocol

  function Acqs(s: seq<Lock>): seq<Event> {
    if s == [] then [] else [Acquired(s[0])] + Acqs(s[1..])
  }

  function Trues(s: seq<Lock>): seq<Event> {
    if s == [] then [] else [Tried(s[0], true)] + Trues(s[1..])
  }

  function Rels(s: seq<Lock>): seq<Event> {
    if s == [] then [] else [Released(s[0])] + Rels(s[1..])
  }

  lemma {:induction false} AcqsConcat(a: seq<Lock>, b: seq<Lock>)
    ensures Acqs(a + b) == Acqs(a) + Acqs(b)
  {
    if a == [] { assert a + b == b; } else {
      assert (a + b)[1..] == a[1..] + b;
      AcqsConcat(a[1..], b);
    }
  }

  lemma {:induction false} TruesConcat(a: seq<Lock>, b: seq<Lock>)
    ensures Trues(a + b) == Trues(a) + Trues(b)
  {
    if a == [] { assert a + b == b; } else {
      assert (a + b)[1..] == a[1..] + b;
      TruesConcat(a[1..], b);
    }
  }

  lemma {:induction false} RelsConcat(a: seq<Lock>, b: seq<Lock>)
    ensures Rels(a + b) == Rels(a) + Rels(b)
  {
    if a == [] { assert a + b == b; } else {
      assert (a + b)[1..] == a[1..] + b;
      RelsConcat(a[1..], b);
    }
  }

  /** Where the automaton is after a sequence of calls; None if it does not allow them. */
  function Run(plan: Plan, ph: Phase, tr: seq<Event>): Option<Phase> {
    if tr == [] then Some(ph)
    else
      match Run(plan, ph, tr[..|tr| - 1])
      case None => None
      case Some(q) => if PhaseOk(plan, q) then Next(plan, q, tr[|tr| - 1]) else None
  }

  lemma {:induction false} RunConcat(plan: Plan, ph: Phase, a: seq<Event>, b: seq<Event>)
    requires Run(plan, ph, a).Some?
    ensures Run(plan, ph, a + b) == Run(plan, Run(plan, ph, a).value, b)
    decreases |b|
  {
    if b == [] {
      assert a + b == a;
    } else {
      var front := b[..|b| - 1];
      assert (a + b)[..|a + b| - 1] == a + front;
      RunConcat(plan, ph, a, front);
    }
  }

  lemma RunOne(plan: Plan, ph: Phase, ev: Event)
    requires PhaseOk(plan, ph)
    ensures Run(plan, ph, [ev]) == Next(plan, ph, ev)
  {
    assert [ev][..0] == [];
  }

  /** Blocking calls from leaf p of a group to leaf q. */
  lemma {:induction false} RunAcquiresTo(plan: Plan, f: nat, p: nat, q: nat)
    requires !plan.trying && f < |plan.groups| && p <= q <= |plan.groups[f]|
    ensures Run(plan, SettleBlock(plan, f, p), Acqs(plan.groups[f][p..q])) == Some(SettleBlock(plan, f, q))
    decreases q - p
  {
    var g := plan.groups[f];
    if p < q {
      SettleBlockHeld(plan, f, p);
      RunOne(plan, Block(f, p), Acquired(g[p]));
      RunConcat(plan, Block(f, p), [Acquired(g[p])], Acqs(g[p + 1..q]));
      assert Acqs(g[p..q]) == [Acquired(g[p])] + Acqs(g[p + 1..q]);
      RunAcquiresTo(plan, f, p + 1, q);
    } else {
      assert Acqs(g[p..q]) == [];
    }
  }

  /** Successful trials from leaf p of a group to leaf q. */
  lemma {:induction false} RunTrials(plan: Plan, first: int, i: nat, p: nat, q: nat)
    requires -1 <= first < |plan.groups| && (plan.trying <==> first == -1)
    requires i < |plan.groups| && i != first && p <= q <= |plan.groups[i]|
    ensures Run(plan, SettleTrial(plan, first, i, p), Trues(plan.groups[i][p..q]))
            == Some(SettleTrial(plan, first, i, q))
    decreases q - p
  {
    var g := plan.groups[i];
    if p < q {
      SettleTrialHeld(plan, first, i, p);
      RunOne(plan, Trial(first, i, p), Tried(g[p], true));
      RunConcat(plan, Trial(first, i, p), [Tried(g[p], true)], Trues(g[p + 1..q]));
      assert Trues(g[p..q]) == [Tried(g[p], true)] + Trues(g[p + 1..q]);
      RunTrials(plan, first, i, p + 1, q);
    } else {
      assert Trues(g[p..q]) == [];
    }
  }

  /** Giving locks back, in any order. */
  lemma {:induction false} RunReleases(plan: Plan, rest: set<Lock>, next: nat, order: seq<Lock>)
    requires next < |plan.groups| && plan.groups[next] != [] && rest <= All(plan)
    requires NoDup(order) && Elems(order) <= rest
    ensures Run(plan, SettleUndo(plan, rest, next), Rels(order))
            == Some(SettleUndo(plan, rest - Elems(order), next))
  {
    if order == [] {
      assert rest - Elems(order) == rest;
    } else {
      var l, tail := order[0], order[1..];
      assert l in Elems(order) && Elems(order) == {l} + Elems(tail) && l !in tail;
      SettleUndoHeld(plan, rest, next);
      RunOne(plan, Undo(rest, next), Released(l));
      RunConcat(plan, Undo(rest, next), [Released(l)], Rels(tail));
      assert Rels(order) == [Released(l)] + Rels(tail);
      RunReleases(plan, rest - {l}, next, tail);
      assert rest - {l} - Elems(tail) == rest - Elems(order);
    }
  }

  /** A refused trial of leaf p of group i, after which everything held is given back. */
  lemma RunRefusal(plan: Plan, first: int, i: nat, p: nat, order: seq<Lock>)
    requires -1 <= first < |plan.groups| && (plan.trying <==> first == -1)
    requires i < |plan.groups| && i != first && p < |plan.groups[i]|
    requires NoDup(order) && Elems(order) == Held(plan, Trial(first, i, p))
    ensures Run(plan, SettleTrial(plan, first, i, 0),
                Trues(plan.groups[i][..p]) + [Tried(plan.groups[i][p], false)] + Rels(order))
            == Some(if plan.trying then Failed else SettleBlock(plan, i, 0))
  {
    var g := plan.groups[i];
    var here := Trial(first, i, p);
    assert g[0..p] == g[..p];
    RunTrials(plan, first, i, 0, p);
    RunOne(plan, here, Tried(g[p], false));
    HeldInAll(plan, here);
    RunReleases(plan, Held(plan, here), i, order);
    assert Held(plan, here) - Elems(order) == {};
    RunConcat(plan, SettleTrial(plan, first, i, 0), Trues(g[..p]), [Tried(g[p], false)]);
    RunConcat(plan, SettleTrial(plan, first, i, 0), Trues(g[..p]) + [Tried(g[p], false)], Rels(order));
  }

  /** The calls of an ordered acquisition that succeeds. */
  lemma OrderedLockRuns(s: seq<Lock>)
    ensures var plan := Plan([s], false); Run(plan, Start(plan), Acqs(s)) == Some(Got)
  {
    var plan := Plan([s], false);
    assert plan.groups[0][0..|s|] == s;
    RunAcquiresTo(plan, 0, 0, |s|);
    assert SettleTrial(plan, 0, 1, 0) == Got;
  }

  /** The calls of an ordered try-lock that succeeds. */
  lemma OrderedTryRuns(s: seq<Lock>)
    ensures var plan := Plan([s], true); Run(plan, Start(plan), Trues(s)) == Some(Got)
  {
    var plan := Plan([s], true);
    assert plan.groups[0][0..|s|] == s;
    RunTrials(plan, -1, 0, 0, |s|);
  }

  /** The calls of an ordered try-lock that is refused leaf p, and gives back the earlier ones. */
  lemma OrderedTryFails(s: seq<Lock>, p: nat, order: seq<Lock>)
    requires p < |s| && NoDup(order) && Elems(order) == Elems(s[..p])
    ensures var plan := Plan([s], true);
            Run(plan, Start(plan), Trues(s[..p]) + [Tried(s[p], false)] + Rels(order)) == Some(Failed)
  {
    RunRefusal(Plan([s], true), -1, 0, p, order);
  }

  lemma {:induction false} RunPrefix(plan: Plan, ph: Phase, tr: seq<Event>, k: nat)
    requires Run(plan, ph, tr).Some? && k <= |tr|
    ensures Run(plan, ph, tr[..k]).Some?
  {
    if k < |tr| {
      RunPrefix(plan, ph, tr[..|tr| - 1], k);
      assert tr[..|tr| - 1][..k] == tr[..k];
    } else {
      assert tr[..k] == tr;
    }
  }

  // ---------- What a call sequence holds ----------

  function HeldBy(tr: seq<Event>): set<Lock> {
    if tr == [] then {}
    else
      var before := HeldBy(tr[..|tr| - 1]);
      match tr[|tr| - 1]
      case Acquired(l) => before + {l}
      case Tried(l, ok) => if ok then before + {l} else before
      case Released(l) => before - {l}
  }

  lemma {:induction false} RunHolds(plan: Plan, tr: seq<Event>)
    requires Distinct(plan) && Run(plan, Start(plan), tr).Some?
    ensures PhaseOk(plan, Run(plan, Start(plan), tr).value)
    ensures Held(plan, Run(plan, Start(plan), tr).value) == HeldBy(tr)
  {
    if tr == [] {
      StartHoldsNothing(plan);
    } else {
      RunHolds(plan, tr[..|tr| - 1]);
      NextHeld(plan, Run(plan, Start(plan), tr[..|tr| - 1]).value, tr[|tr| - 1]);
    }
  }

  /** At every blocking call of an accepted sequence, the thread holds exactly the earlier leaves of
      the group it is blocking on: for an ordered collection the leaves before it, for a retrying
      one nothing outside the one element it is acquiring. */
  lemma BlockingCallHolds(plan: Plan, tr: seq<Event>, k: nat) returns (f: nat, p: nat)
    requires Distinct(plan) && k < |tr| && tr[k].Acquired? && Run(plan, Start(plan), tr[..k + 1]).Some?
    ensures f < |plan.groups| && p < |plan.groups[f]| && tr[k].l == plan.groups[f][p]
    ensures HeldBy(tr[..k]) == Elems(plan.groups[f][..p])
  {
    assert tr[..k + 1][..k] == tr[..k];
    RunHolds(plan, tr[..k]);
    var ph := Run(plan, Start(plan), tr[..k]).value;
    f, p := ph.f, ph.p;
  }

  /** At every trial, it holds exactly the groups tried before, the group it blocked on, and the
      earlier leaves of the group it is trying. */
  lemma TrialHolds(plan: Plan, tr: seq<Event>, k: nat) returns (first: int, i: nat, p: nat)
    requires Distinct(plan) && k < |tr| && tr[k].Tried? && Run(plan, Start(plan), tr[..k + 1]).Some?
    ensures -1 <= first < |plan.groups| && (plan.trying <==> first == -1)
    ensures i < |plan.groups| && i != first && p < |plan.groups[i]|
    ensures tr[k].l == plan.groups[i][p]
    ensures HeldBy(tr[..k]) == Below(plan.groups, i) + Elems(plan.groups[i][..p])
                               + (if first >= 0 then Elems(plan.groups[first]) else {})
  {
    assert tr[..k + 1][..k] == tr[..k];
    RunHolds(plan, tr[..k]);
    var ph := Run(plan, Start(plan), tr[..k]).value;
    first, i, p := ph.first, ph.i, ph.p;
    if 0 <= first < i { BelowMonotone(plan.groups, first + 1, i); }
  }
}
