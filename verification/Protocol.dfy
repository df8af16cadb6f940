/** One thread's acquisition of one collection, as an automaton over its calls on leaf locks.

    A plan lists the leaf locks in groups. An ordered collection (`ordered_write`, `ordered_read`)
    is a single group, taken by blocking calls from left to right. A retrying collection has one
    group per element of its flattened lock list: a plain lock is a group of one, an owned
    collection used as an element is the group of its leaves in their private order. */
module Protocol {
  import opened Locks

  datatype Plan = Plan(groups: seq<seq<Lock>>, trying: bool)

  datatype Phase =
    | Block(f: nat, p: nat)             // about to block on leaf p of group f
    | Trial(first: int, i: nat, p: nat) // about to try leaf p of group i; group `first` was blocked on, -1 if none
    | Undo(rest: set<Lock>, next: nat)  // giving back `rest` after a trial in group `next` was refused
    | Got                               // everything is held
    | Failed                            // a try-lock gave up

  /** A completed call on a leaf lock. */
  datatype Event =
    | Acquired(l: Lock)
    | Tried(l: Lock, ok: bool)
    | Released(l: Lock)

  datatype Option<T> = None | Some(value: T)

  // ---------- The automaton ----------

  /** The next call of the trial scan from leaf p of group i, skipping the group blocked on. */
  function SettleTrial(plan: Plan, f: int, i: nat, p: nat): Phase
    requires i <= |plan.groups|
    requires i < |plan.groups| ==> p <= |plan.groups[i]|
    decreases |plan.groups| - i
  {
    if i == |plan.groups| then Got
    else if i == f || p == |plan.groups[i]| then SettleTrial(plan, f, i + 1, 0)
    else Trial(f, i, p)
  }

  function SettleBlock(plan: Plan, f: nat, p: nat): Phase
    requires f < |plan.groups| && p <= |plan.groups[f]|
  {
    if p < |plan.groups[f]| then Block(f, p) else SettleTrial(plan, f, 0, 0)
  }

  function SettleUndo(plan: Plan, rest: set<Lock>, next: nat): Phase
    requires next < |plan.groups|
  {
    if rest != {} then Undo(rest, next)
    else if plan.trying then Failed
    else SettleBlock(plan, next, 0)
  }

  function Start(plan: Plan): Phase {
    if plan.trying then SettleTrial(plan, -1, 0, 0)
    else if plan.groups == [] then Got
    else SettleBlock(plan, 0, 0)
  }

  /** The leaves of the first i groups. */
  function Below(groups: seq<seq<Lock>>, i: nat): set<Lock>
    requires i <= |groups|
  {
    if i == 0 then {} else Below(groups, i - 1) + Elems(groups[i - 1])
  }

  function All(plan: Plan): set<Lock> {
    Below(plan.groups, |plan.groups|)
  }

  predicate PhaseOk(plan: Plan, ph: Phase) {
    var n := |plan.groups|;
    match ph
    case Block(f, p) => !plan.trying && f < n && p < |plan.groups[f]|
    case Trial(f, i, p) => -1 <= f < n && (plan.trying <==> f == -1) && i < n && i != f && p < |plan.groups[i]|
    case Undo(rest, next) => rest != {} && rest <= All(plan) && next < n && plan.groups[next] != []
    case Got => true
    case Failed => plan.trying
  }

  /** The leaves held while the automaton is in a phase. */
  function Held(plan: Plan, ph: Phase): set<Lock>
    requires PhaseOk(plan, ph)
  {
    match ph
    case Block(f, p) => Elems(plan.groups[f][..p])
    case Trial(f, i, p) =>
      Below(plan.groups, i) + Elems(plan.groups[i][..p]) + (if f >= i then Elems(plan.groups[f]) else {})
    case Undo(rest, _) => rest
    case Got => All(plan)
    case Failed => {}
  }

  /** The call a phase may make next, and the phase it leads to; None for any other call. */
  function Next(plan: Plan, ph: Phase, ev: Event): Option<Phase>
    requires PhaseOk(plan, ph)
  {
    match (ph, ev)
    case (Block(f, p), Acquired(l)) =>
      if l == plan.groups[f][p] then Some(SettleBlock(plan, f, p + 1)) else None
    case (Trial(f, i, p), Tried(l, ok)) =>
      if l != plan.groups[i][p] then None
      else if ok then Some(SettleTrial(plan, f, i, p + 1))
      else Some(SettleUndo(plan, Held(plan, ph), i))
    case (Undo(rest, next), Released(l)) =>
      if l in rest then Some(SettleUndo(plan, rest - {l}, next)) else None
    case _ => None
  }

  // ---------- What it holds ----------

  /** No leaf occurs twice in a plan. */
  ghost predicate Distinct(plan: Plan) {
    forall i, p, j, q |
      0 <= i < |plan.groups| && 0 <= p < |plan.groups[i]| &&
      0 <= j < |plan.groups| && 0 <= q < |plan.groups[j]| &&
      plan.groups[i][p] == plan.groups[j][q] :: i == j && p == q
  }

  lemma BelowHas(groups: seq<seq<Lock>>, i: nat, l: Lock)
    requires i <= |groups|
    ensures l in Below(groups, i) <==> exists j :: 0 <= j < i && l in groups[j]
  {
  }

  lemma BelowMonotone(groups: seq<seq<Lock>>, i: nat, j: nat)
    requires i <= j <= |groups|
    ensures Below(groups, i) <= Below(groups, j)
  {
  }

  lemma GroupInAll(plan: Plan, i: nat)
    requires i < |plan.groups|
    ensures Elems(plan.groups[i]) <= All(plan)
  {
    BelowMonotone(plan.groups, i + 1, |plan.groups|);
  }

  /** Held, as a formula, for a trial scan position that may still need settling. */
  ghost function ScanHeld(plan: Plan, f: int, i: nat, p: nat): set<Lock>
    requires -1 <= f < |plan.groups| && i <= |plan.groups|
    requires i < |plan.groups| ==> p <= |plan.groups[i]|
  {
    Below(plan.groups, i)
    + (if i < |plan.groups| then Elems(plan.groups[i][..p]) else {})
    + (if f >= i then Elems(plan.groups[f]) else {})
  }

  lemma SettleTrialHeld(plan: Plan, f: int, i: nat, p: nat)
    requires -1 <= f < |plan.groups| && (plan.trying <==> f == -1)
    requires i <= |plan.groups|
    requires i < |plan.groups| ==> p <= |plan.groups[i]| && (i == f ==> p == 0)
    ensures PhaseOk(plan, SettleTrial(plan, f, i, p))
    ensures Held(plan, SettleTrial(plan, f, i, p)) == ScanHeld(plan, f, i, p)
    ensures SettleTrial(plan, f, i, p).Trial? || SettleTrial(plan, f, i, p).Got?
    decreases |plan.groups| - i
  {
    if i < |plan.groups| && (i == f || p == |plan.groups[i]|) {
      SettleTrialHeld(plan, f, i + 1, 0);
      if i != f { assert plan.groups[i][..p] == plan.groups[i]; }
      if i + 1 < |plan.groups| { assert plan.groups[i + 1][..0] == []; }
      assert ScanHeld(plan, f, i, p) == ScanHeld(plan, f, i + 1, 0);
    }
  }

  lemma SettleBlockHeld(plan: Plan, f: nat, p: nat)
    requires !plan.trying && f < |plan.groups| && p <= |plan.groups[f]|
    ensures PhaseOk(plan, SettleBlock(plan, f, p))
    ensures Held(plan, SettleBlock(plan, f, p)) == Elems(plan.groups[f][..p])
    ensures SettleBlock(plan, f, p).Block? || SettleBlock(plan, f, p).Trial? || SettleBlock(plan, f, p).Got?
  {
    if p == |plan.groups[f]| {
      SettleTrialHeld(plan, f, 0, 0);
      assert plan.groups[0][..0] == [];
      assert plan.groups[f][..p] == plan.groups[f];
    }
  }

  lemma SettleUndoHeld(plan: Plan, rest: set<Lock>, next: nat)
    requires next < |plan.groups| && plan.groups[next] != [] && rest <= All(plan)
    ensures PhaseOk(plan, SettleUndo(plan, rest, next))
    ensures Held(plan, SettleUndo(plan, rest, next)) == rest
  {
    if rest == {} && !plan.trying {
      SettleBlockHeld(plan, next, 0);
      assert plan.groups[next][..0] == [];
    }
  }

  lemma StartHoldsNothing(plan: Plan)
    ensures PhaseOk(plan, Start(plan)) && Held(plan, Start(plan)) == {}
  {
    if plan.trying {
      SettleTrialHeld(plan, -1, 0, 0);
      if plan.groups != [] { assert plan.groups[0][..0] == []; }
    } else if plan.groups != [] {
      SettleBlockHeld(plan, 0, 0);
      assert plan.groups[0][..0] == [];
    }
  }

  lemma HeldInAll(plan: Plan, ph: Phase)
    requires PhaseOk(plan, ph)
    ensures Held(plan, ph) <= All(plan)
  {
    match ph
    case Block(f, p) => GroupInAll(plan, f);
    case Trial(f, i, p) =>
      BelowMonotone(plan.groups, i, |plan.groups|);
      GroupInAll(plan, i);
      if f >= i { GroupInAll(plan, f); }
    case _ =>
  }

  /** The lock a call concerns is not held when it is asked for. */
  lemma AskedIsNotHeld(plan: Plan, ph: Phase)
    requires Distinct(plan) && PhaseOk(plan, ph)
    ensures ph.Block? ==> plan.groups[ph.f][ph.p] !in Held(plan, ph)
    ensures ph.Trial? ==> plan.groups[ph.i][ph.p] !in Held(plan, ph)
  {
    if ph.Trial? {
      BelowHas(plan.groups, ph.i, plan.groups[ph.i][ph.p]);
    }
  }

  /** Every call changes what is held by exactly the lock it names, and a refusal by nothing. */
  lemma NextHeld(plan: Plan, ph: Phase, ev: Event)
    requires Distinct(plan) && PhaseOk(plan, ph) && Next(plan, ph, ev).Some?
    ensures PhaseOk(plan, Next(plan, ph, ev).value)
    ensures match ev
            case Acquired(l) =>
              l !in Held(plan, ph) && Held(plan, Next(plan, ph, ev).value) == Held(plan, ph) + {l}
            case Tried(l, ok) =>
              l !in Held(plan, ph) &&
              Held(plan, Next(plan, ph, ev).value) == if ok then Held(plan, ph) + {l} else Held(plan, ph)
            case Released(l) =>
              l in Held(plan, ph) && Held(plan, Next(plan, ph, ev).value) == Held(plan, ph) - {l}
  {
    AskedIsNotHeld(plan, ph);
    match (ph, ev)
    case (Block(f, p), Acquired(l)) =>
      SettleBlockHeld(plan, f, p + 1);
      assert plan.groups[f][..p + 1] == plan.groups[f][..p] + [l];
    case (Trial(f, i, p), Tried(l, ok)) =>
      if ok {
        SettleTrialHeld(plan, f, i, p + 1);
        assert plan.groups[i][..p + 1] == plan.groups[i][..p] + [l];
      } else {
        HeldInAll(plan, ph);
        SettleUndoHeld(plan, Held(plan, ph), i);
      }
    case (Undo(rest, next), Released(l)) =>
      SettleUndoHeld(plan, rest - {l}, next);
  }
}
