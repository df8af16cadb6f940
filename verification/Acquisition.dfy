/** The acquisition loops, as one thread runs them while other threads interfere and while the raw
    locks underneath may panic. What they do is read off the calls they make on leaf locks, which are
    runs of the automaton in `Protocol`. */
module Acquisition {
  import opened Locks
  import opened Protocol
  import opened Pointers
  import opened Groups
  import opened Traces

  /** A blocking call or an unlock returns, or unwinds. */
  datatype Outcome = Normal | Panicked

  /** Where a retrying acquisition panicked: in its blocking call, or in the trial of element i. */
  datatype Site = AtBlock(first: nat) | AtTrial(first: nat, i: nat)

  /** A try-lock returns true or false, or unwinds. */
  datatype Attempt = Locked | WouldBlock | Unwound

  // ---------- Views ----------

  /** What a thread holds, the calls it has made, and the unlocks it made without holding the lock. */
  datatype View = View(mine: multiset<Lock>, trace: seq<Event>, strays: multiset<Lock>)

  /** The leaves of s were taken by blocking calls, in order. */
  ghost predicate Took(before: View, after: View, s: seq<Lock>) {
    after == View(before.mine + multiset(s), before.trace + Acqs(s), before.strays)
  }

  /** The leaves of s were taken by successful trials, in order. */
  ghost predicate Tested(before: View, after: View, s: seq<Lock>) {
    after == View(before.mine + multiset(s), before.trace + Trues(s), before.strays)
  }

  /** The leaves of s were unlocked, in order; those that were not held are stray. */
  ghost predicate GaveBack(before: View, after: View, s: seq<Lock>) {
    after == View(before.mine - multiset(s), before.trace + Rels(s), before.strays + (multiset(s) - before.mine))
  }

  lemma Assoc<T>(x: seq<T>, y: seq<T>, z: seq<T>)
    ensures (x + y) + z == x + (y + z)
  {
  }

  lemma OneRelease(l: Lock)
    ensures Rels([l]) == [Released(l)] && multiset([l]) == multiset{l}
  {
  }

  lemma GiveTwice(m: multiset<Lock>, x: multiset<Lock>, y: multiset<Lock>)
    ensures (m - x) - y == m - (x + y)
    ensures (x - m) + (y - (m - x)) == (x + y) - m
  {
  }

  lemma TookMore(u: View, v: View, w: View, a: seq<Lock>, b: seq<Lock>)
    requires Took(u, v, a) && Took(v, w, b)
    ensures Took(u, w, a + b)
  {
    AcqsConcat(a, b);
    Assoc(u.trace, Acqs(a), Acqs(b));
    assert multiset(a + b) == multiset(a) + multiset(b);
  }

  lemma TestedMore(u: View, v: View, w: View, a: seq<Lock>, b: seq<Lock>)
    requires Tested(u, v, a) && Tested(v, w, b)
    ensures Tested(u, w, a + b)
  {
    TruesConcat(a, b);
    Assoc(u.trace, Trues(a), Trues(b));
    assert multiset(a + b) == multiset(a) + multiset(b);
  }

  lemma GaveMore(u: View, v: View, w: View, a: seq<Lock>, b: seq<Lock>)
    requires GaveBack(u, v, a) && GaveBack(v, w, b)
    ensures GaveBack(u, w, a + b)
  {
    RelsConcat(a, b);
    Assoc(u.trace, Rels(a), Rels(b));
    assert multiset(a + b) == multiset(a) + multiset(b);
    GiveTwice(u.mine, multiset(a), multiset(b));
  }

  /** Why an acquisition of a list of leaves stops halfway: a trial is refused, a trial panics, or a
      blocking call panics. */
  datatype Stop = Refusal | TrialPanic | BlockPanic

  /** The calls that take the leaves of s, and those made until leaf p of s stops the acquisition. */
  function Taking(why: Stop, s: seq<Lock>): seq<Event> {
    if why.BlockPanic? then Acqs(s) else Trues(s)
  }

  function Until(why: Stop, s: seq<Lock>, p: nat): seq<Event>
    requires p < |s|
  {
    Taking(why, s[..p]) + if why.Refusal? then [Tried(s[p], false)] else []
  }

  /** Leaf p of s stopped the acquisition, after the earlier leaves had been taken; they were given back
      in `order`, each once. */
  ghost predicate Stopped(why: Stop, before: View, after: View, s: seq<Lock>, p: nat, order: seq<Lock>) {
    && p < |s| && NoDup(order) && Elems(order) == Elems(s[..p])
    && after == View(before.mine, before.trace + (Until(why, s, p) + Rels(order)), before.strays)
  }

  ghost predicate Refused(before: View, after: View, s: seq<Lock>, p: nat, order: seq<Lock>) {
    Stopped(Refusal, before, after, s, p, order)
  }

  /** A stop inside an element of a list, after which the earlier elements are given back. */
  lemma StoppedMore(why: Stop, u: View, v: View, w: View, x: View, a: seq<Lock>, b: seq<Lock>, c: seq<Lock>,
                    s: seq<Lock>, q: nat, inner: seq<Lock>)
    requires v == View(u.mine + multiset(a), u.trace + Taking(why, a), u.strays)
    requires Stopped(why, v, w, b, q, inner) && GaveBack(w, x, a)
    requires s == a + b + c && NoDup(s)
    ensures Stopped(why, u, x, s, |a| + q, inner + a) && s[|a| + q] == b[q]
  {
    hide Until, Taking, Trues, Acqs, Rels;
    StopOrder(a, b, c, q, inner);
    assert s[..|a| + q] == a + b[..q] && s[|a| + q] == b[q];
    GaveWhatWasTaken(u.mine, a);
    StopTrace(why, u.trace, a, b, q, s, inner);
  }

  lemma StopOrder(a: seq<Lock>, b: seq<Lock>, c: seq<Lock>, q: nat, inner: seq<Lock>)
    requires NoDup(a + b + c) && q < |b| && NoDup(inner) && Elems(inner) == Elems(b[..q])
    ensures NoDup(inner + a) && Elems(inner + a) == Elems(a + b[..q])
  {
    ThreeParts(a, b, c);
    forall l | l in inner ensures l !in a { assert l in Elems(b[..q]) && l in b; }
    NoDupJoin(inner, a);
    assert Elems(inner + a) == Elems(inner) + Elems(a) == Elems(a + b[..q]);
  }

  lemma StopTrace(why: Stop, t: seq<Event>, a: seq<Lock>, b: seq<Lock>, q: nat, s: seq<Lock>, inner: seq<Lock>)
    requires q < |b| && |a| + q < |s| && s[..|a| + q] == a + b[..q] && s[|a| + q] == b[q]
    ensures t + Taking(why, a) + (Until(why, b, q) + Rels(inner)) + Rels(a)
            == t + (Until(why, s, |a| + q) + Rels(inner + a))
  {
    hide Trues, Rels, Acqs, Until, Taking;
    RelsConcat(inner, a);
    UntilMore(why, a, b, q, s);
    Regroup(t, Taking(why, a), Until(why, b, q), Rels(inner), Rels(a));
  }

  lemma Regroup<T>(t: seq<T>, x: seq<T>, y: seq<T>, r: seq<T>, z: seq<T>)
    ensures t + x + (y + r) + z == t + ((x + y) + (r + z))
  {
  }

  lemma UntilMore(why: Stop, a: seq<Lock>, b: seq<Lock>, q: nat, s: seq<Lock>)
    requires q < |b| && |a| + q < |s| && s[..|a| + q] == a + b[..q] && s[|a| + q] == b[q]
    ensures Until(why, s, |a| + q) == Taking(why, a) + Until(why, b, q)
  {
    hide Trues, Rels, Acqs;
    if why.BlockPanic? { AcqsConcat(a, b[..q]); } else { TruesConcat(a, b[..q]); }
  }

  lemma StoppedAt(why: Stop, locks: seq<Ptr>, i: nat, start: View, before: View, stopped: View, end: View,
                  q: nat, inner: seq<Lock>)
    returns (at: nat, order: seq<Lock>)
    requires NoDup(LeavesOf(locks)) && i < |locks|
    requires before == View(start.mine + multiset(LeavesOf(locks[..i])),
                            start.trace + Taking(why, LeavesOf(locks[..i])), start.strays)
    requires Stopped(why, before, stopped, Leaves(locks[i]), q, inner)
    requires GaveBack(stopped, end, LeavesOf(locks[..i]))
    ensures Stopped(why, start, end, LeavesOf(locks), at, order) && LeavesOf(locks)[at] == Leaves(locks[i])[q]
  {
    hide LeavesOf, Leaves, Stopped, Taking, GaveBack;
    Cut(locks, i);
    StoppedMore(why, start, before, stopped, end, LeavesOf(locks[..i]), Leaves(locks[i]), LeavesOf(locks[i + 1..]),
                LeavesOf(locks), q, inner);
    at, order := |LeavesOf(locks[..i])| + q, inner + LeavesOf(locks[..i]);
  }

  /** A leaf that stops the acquisition itself leaves nothing to give back. */
  lemma StoppedAtOnce(why: Stop, v: View, w: View, l: Lock)
    requires w == View(v.mine, v.trace + if why.Refusal? then [Tried(l, false)] else [], v.strays)
    ensures Stopped(why, v, w, [l], 0, [])
  {
    var none: seq<Lock> := [];
    assert [l][..0] == none;
    assert v.trace + (Until(why, [l], 0) + Rels(none)) == w.trace;
  }

  lemma TestedHolds(u: View, v: View, s: seq<Lock>)
    requires Tested(u, v, s)
    ensures multiset(s) <= v.mine
  {
  }

  lemma TookHolds(u: View, v: View, s: seq<Lock>)
    requires Took(u, v, s)
    ensures forall l | l in s :: l in v.mine
  {
    forall l | l in s ensures l in v.mine { assert l in multiset(s); }
  }

  lemma PrefixGrows(locks: seq<Ptr>, i: nat)
    requires i < |locks|
    ensures LeavesOf(locks[..i + 1]) == LeavesOf(locks[..i]) + Leaves(locks[i]) <= LeavesOf(locks)
  {
    Cut(locks, i);
  }

  lemma PrefixSound(locks: seq<Ptr>, i: nat)
    requires i <= |locks|
    ensures forall l | l in LeavesOf(locks[..i]) :: l in LeavesOf(locks)
  {
    if i < |locks| { Cut(locks, i); } else { assert locks[..i] == locks; }
  }

  lemma NoDupJoin(a: seq<Lock>, b: seq<Lock>)
    requires NoDup(a) && NoDup(b) && forall l | l in a :: l !in b
    ensures NoDup(a + b)
  {
    forall p, q | 0 <= p < q < |a + b| ensures (a + b)[p] != (a + b)[q] {
      if p < |a| { assert a[p] in a; } else { assert b[p - |a|] != b[q - |a|]; }
    }
  }

  /** Giving back what was just taken leaves no trace on the holds. */
  lemma GaveWhatWasTaken(m: multiset<Lock>, s: seq<Lock>)
    ensures (m + multiset(s)) - multiset(s) == m
    ensures multiset(s) - (m + multiset(s)) == multiset{}
  {
  }

  lemma PartsFit(a: seq<Lock>, b: seq<Lock>, c: seq<Lock>, m: multiset<Lock>)
    ensures multiset(a + b + c) <= m ==> multiset(b) <= m - multiset(a)
  {
    assert multiset(a + b + c) == multiset(a) + multiset(b) + multiset(c);
  }

  /** After a prefix of a list was taken, its next element is still free to take. */
  lemma NextIsFree(locks: seq<Ptr>, i: nat, m: multiset<Lock>)
    requires NoDup(LeavesOf(locks)) && i < |locks|
    requires forall l | l in LeavesOf(locks) :: l !in m
    ensures NoDup(Leaves(locks[i]))
    ensures forall l | l in Leaves(locks[i]) :: l !in m + multiset(LeavesOf(locks[..i])) && l in LeavesOf(locks)
    ensures forall l | l in LeavesOf(locks[..i]) :: l in LeavesOf(locks)
  {
    Around(locks, i);
    forall l | l in Leaves(locks[i]) ensures l !in m + multiset(LeavesOf(locks[..i])) {
      assert l !in multiset(LeavesOf(locks[..i]));
    }
  }

  // ---------- One round of a retrying acquisition ----------

  /** What is unlocked, in order, by a round that blocked on element `first` and gives back elements
      0 to k: the slice, and the first lock if the slice does not contain it. */
  function GivenBack(locks: seq<Ptr>, first: nat, k: nat): seq<Lock>
    requires first < |locks| && k <= |locks|
  {
    LeavesOf(locks[..k]) + Beyond(locks, first, k)
  }

  function Beyond(locks: seq<Ptr>, first: nat, k: nat): seq<Lock>
    requires first < |locks|
  {
    if first >= k then Leaves(locks[first]) else []
  }

  /** Giving back in two parts: if everything is held, the second part still is after the first. */
  lemma GivenBackFits(a: seq<Lock>, b: seq<Lock>, m: multiset<Lock>)
    ensures multiset(a + b) <= m ==> multiset(a) <= m && multiset(b) <= m - multiset(a)
  {
    assert multiset(a + b) == multiset(a) + multiset(b);
  }

  /** At trial i a round holds exactly the leaves below i and those of the element it blocked on. */
  lemma RoundStep(locks: seq<Ptr>, first: nat, i: nat)
    requires first < |locks| && i < |locks|
    ensures multiset(GivenBack(locks, first, i + 1))
            == multiset(GivenBack(locks, first, i)) + if i == first then multiset{} else multiset(Leaves(locks[i]))
  {
    Cut(locks, i);
    var a, b, c := LeavesOf(locks[..i]), Leaves(locks[i]), Leaves(locks[first]);
    assert multiset(a + b) == multiset(a) + multiset(b);
    assert multiset((a + b) + c) == multiset(a) + multiset(b) + multiset(c);
    assert multiset(a + c) == multiset(a) + multiset(c);
    assert a + b + [] == a + b && a + [] == a;
  }

  lemma RoundFree(locks: seq<Ptr>, first: nat, i: nat, l: Lock)
    requires NoDup(LeavesOf(locks)) && first < |locks| && i < |locks| && i != first && l in Leaves(locks[i])
    ensures l !in GivenBack(locks, first, i)
  {
    Around(locks, i);
    if l in Leaves(locks[first]) {
      if first < i { Apart(locks, first, i, l); } else { Apart(locks, i, first, l); }
    }
  }

  lemma GivenBackNoDup(locks: seq<Ptr>, first: nat, i: nat)
    requires NoDup(LeavesOf(locks)) && first < |locks| && i <= |locks|
    ensures NoDup(GivenBack(locks, first, i))
  {
    if i < |locks| { Around(locks, i); } else { assert locks[..i] == locks; }
    if first >= i {
      Around(locks, first);
      forall l | l in LeavesOf(locks[..i]) ensures l !in Leaves(locks[first]) {
        LaterLeaves(locks, i, first, l);
      }
      NoDupJoin(LeavesOf(locks[..i]), Leaves(locks[first]));
    } else {
      assert LeavesOf(locks[..i]) + [] == LeavesOf(locks[..i]);
    }
  }

  lemma {:induction false} LaterLeaves(locks: seq<Ptr>, i: nat, j: nat, l: Lock)
    requires NoDup(LeavesOf(locks)) && i <= j < |locks| && l in LeavesOf(locks[..i])
    ensures l !in Leaves(locks[j]) && l in LeavesOf(locks[..j])
    decreases j - i
  {
    if i == j {
      Around(locks, j);
    } else {
      Cut(locks, i);
      LaterLeaves(locks, i + 1, j, l);
    }
  }

  /** The calls so far, as a run of the automaton. */
  ghost predicate Reached(plan: Plan, start: View, now: View, calls: seq<Event>, ph: Phase) {
    now.trace == start.trace + calls && Run(plan, Start(plan), calls) == Some(ph)
  }

  /** A round at trial i: what it holds, and where the automaton is. */
  ghost predicate AtRound(locks: seq<Ptr>, start: View, now: View, calls: seq<Event>, first: nat, i: nat)
    requires first < |locks| && i <= |locks|
  {
    var plan := Plan(LeavesEach(locks), false);
    && now.mine == start.mine + multiset(GivenBack(locks, first, i)) && now.strays == start.strays
    && Reached(plan, start, now, calls, SettleTrial(plan, first, i, 0))
  }

  lemma RoundStarts(locks: seq<Ptr>, start: View, before: View, now: View, calls: seq<Event>, first: nat)
    requires first < |locks| && before.mine == start.mine && before.strays == start.strays
    requires Took(before, now, Leaves(locks[first]))
    requires var plan := Plan(LeavesEach(locks), false);
             Reached(plan, start, before, calls, SettleBlock(plan, first, 0))
    ensures AtRound(locks, start, now, calls + Acqs(Leaves(locks[first])), first, 0)
  {
    var plan := Plan(LeavesEach(locks), false);
    var g := plan.groups[first];
    assert g[0..|g|] == g;
    RunAcquiresTo(plan, first, 0, |g|);
    RunConcat(plan, Start(plan), calls, Acqs(g));
    Assoc(start.trace, calls, Acqs(g));
    assert GivenBack(locks, first, 0) == g by { assert locks[..0] == []; }
  }

  lemma RoundSkips(locks: seq<Ptr>, start: View, now: View, calls: seq<Event>, first: nat)
    requires first < |locks| && AtRound(locks, start, now, calls, first, first)
    ensures AtRound(locks, start, now, calls, first, first + 1)
  {
    RoundStep(locks, first, first);
  }

  lemma RoundGoesOn(locks: seq<Ptr>, start: View, before: View, now: View, calls: seq<Event>, first: nat, i: nat)
    requires first < |locks| && i < |locks| && i != first
    requires AtRound(locks, start, before, calls, first, i) && Tested(before, now, Leaves(locks[i]))
    ensures AtRound(locks, start, now, calls + Trues(Leaves(locks[i])), first, i + 1)
  {
    var plan := Plan(LeavesEach(locks), false);
    TrialsGoOn(plan, calls, first, i);
    Assoc(start.trace, calls, Trues(Leaves(locks[i])));
    RoundStep(locks, first, i);
  }

  lemma TrialsGoOn(plan: Plan, calls: seq<Event>, first: nat, i: nat)
    requires !plan.trying && first < |plan.groups| && i < |plan.groups| && i != first
    requires Run(plan, Start(plan), calls) == Some(SettleTrial(plan, first, i, 0))
    ensures Run(plan, Start(plan), calls + Trues(plan.groups[i])) == Some(SettleTrial(plan, first, i + 1, 0))
  {
    var g := plan.groups[i];
    assert g[0..|g|] == g;
    RunTrials(plan, first, i, 0, |g|);
    RunConcat(plan, Start(plan), calls, Trues(g));
  }

  lemma RoundEnds(locks: seq<Ptr>, start: View, now: View, calls: seq<Event>, first: nat)
    requires first < |locks| && AtRound(locks, start, now, calls, first, |locks|)
    ensures now.mine == start.mine + multiset(LeavesOf(locks)) && now.strays == start.strays
    ensures Reached(Plan(LeavesEach(locks), false), start, now, calls, Got)
  {
    assert locks[..|locks|] == locks && LeavesOf(locks) + [] == LeavesOf(locks);
  }

  /** A refusal at element i, after which the round is given back: nothing is held, and the automaton
      is about to block on element i. */
  lemma RoundRollsBack(locks: seq<Ptr>, start: View, before: View, refused: View, now: View, calls: seq<Event>,
                       first: nat, i: nat, q: nat, inner: seq<Lock>) returns (calls': seq<Event>)
    requires NoDup(LeavesOf(locks)) && first < |locks| && i < |locks| && i != first
    requires AtRound(locks, start, before, calls, first, i) && Refused(before, refused, Leaves(locks[i]), q, inner)
    requires GaveBack(refused, now, GivenBack(locks, first, i))
    ensures now.mine == start.mine && now.strays == start.strays
    ensures var plan := Plan(LeavesEach(locks), false);
            Reached(plan, start, now, calls', SettleBlock(plan, i, 0))
  {
    var back := GivenBack(locks, first, i);
    GaveWhatWasTaken(start.mine, back);
    RollbackRuns(locks, calls, first, i, q, inner);
    var refusal := Trues(Leaves(locks[i])[..q]) + [Tried(Leaves(locks[i])[q], false)] + Rels(inner);
    calls' := calls + (refusal + Rels(back));
    Assoc(start.trace, calls, refusal);
    Assoc(start.trace, calls + refusal, Rels(back));
    Assoc(calls, refusal, Rels(back));
  }

  lemma RollbackRuns(locks: seq<Ptr>, calls: seq<Event>, first: nat, i: nat, q: nat, inner: seq<Lock>)
    requires NoDup(LeavesOf(locks)) && first < |locks| && i < |locks| && i != first
    requires q < |Leaves(locks[i])| && NoDup(inner) && Elems(inner) == Elems(Leaves(locks[i])[..q])
    requires var plan := Plan(LeavesEach(locks), false);
             Run(plan, Start(plan), calls) == Some(SettleTrial(plan, first, i, 0))
    ensures var plan := Plan(LeavesEach(locks), false);
            var refusal := Trues(Leaves(locks[i])[..q]) + [Tried(Leaves(locks[i])[q], false)] + Rels(inner);
            Run(plan, Start(plan), calls + (refusal + Rels(GivenBack(locks, first, i))))
            == Some(SettleBlock(plan, i, 0))
  {
    var plan := Plan(LeavesEach(locks), false);
    var back := GivenBack(locks, first, i);
    var attempt := Trues(Leaves(locks[i])[..q]) + [Tried(Leaves(locks[i])[q], false)];
    OrderCoversRound(locks, first, i, q, inner);
    RunRefusal(plan, first, i, q, inner + back);
    RelsConcat(inner, back);
    Assoc(attempt, Rels(inner), Rels(back));
    RunConcat(plan, Start(plan), calls, attempt + Rels(inner + back));
  }

  lemma OrderCoversRound(locks: seq<Ptr>, first: nat, i: nat, q: nat, inner: seq<Lock>)
    requires NoDup(LeavesOf(locks)) && first < |locks| && i < |locks| && i != first
    requires q < |Leaves(locks[i])| && NoDup(inner) && Elems(inner) == Elems(Leaves(locks[i])[..q])
    ensures var order := inner + GivenBack(locks, first, i);
            NoDup(order) && Elems(order) == Held(Plan(LeavesEach(locks), false), Trial(first, i, q))
  {
    var back := GivenBack(locks, first, i);
    GivenBackNoDup(locks, first, i);
    forall l | l in inner ensures l !in back {
      assert l in Elems(Leaves(locks[i])[..q]);
      RoundFree(locks, first, i, l);
    }
    NoDupJoin(inner, back);
    BelowEach(locks, i);
    assert Elems(inner + back) == Elems(inner) + Elems(back);
    assert Elems(back) == Elems(LeavesOf(locks[..i])) + (if first >= i then Elems(Leaves(locks[first])) else {});
  }

  /** Nothing is held, and the automaton is about to block on element f. */
  ghost predicate BlocksNext(locks: seq<Ptr>, start: View, now: View, calls: seq<Event>, f: nat)
    requires f < |locks|
  {
    var plan := Plan(LeavesEach(locks), false);
    now.mine == start.mine && now.strays == start.strays && Reached(plan, start, now, calls, SettleBlock(plan, f, 0))
  }

  /** Every lock is held once, by an accepted acquisition. */
  ghost predicate GotAll(locks: seq<Ptr>, start: View, now: View, calls: seq<Event>) {
    && now.mine == start.mine + multiset(LeavesOf(locks)) && now.strays == start.strays
    && Reached(Plan(LeavesEach(locks), false), start, now, calls, Got)
  }

  /** The element of a site, and the automaton when leaf p of that element is up. */
  function Element(site: Site): nat {
    match site
    case AtBlock(first) => first
    case AtTrial(_, i) => i
  }

  function PhaseAt(site: Site, p: nat): Phase {
    match site
    case AtBlock(first) => Block(first, p)
    case AtTrial(first, i) => Trial(first, i, p)
  }

  /** The calls that block and try, up to a panic, are a run of the automaton to that phase; only unlocks
      follow. */
  ghost predicate RanUntil(locks: seq<Ptr>, start: View, now: View, calls: seq<Event>, ph: Phase) {
    var plan := Plan(LeavesEach(locks), false);
    && Run(plan, Start(plan), calls) == Some(ph)
    && exists undone: seq<Lock> :: now.trace == start.trace + (calls + Rels(undone))
  }

  /** What a panic at leaf p of the element of `site` leaves behind: after a blocking call, the element that
      was not acquired has been unlocked all the same; after a trial, one element may still be held. */
  ghost predicate LeftBehind(locks: seq<Ptr>, start: View, now: View, site: Site, p: nat, calls: seq<Event>) {
    RanUntil(locks, start, now, calls, PhaseAt(site, p)) &&
    Element(site) < |locks| && p < |Leaves(locks[Element(site)])| &&
    match site
    case AtBlock(first) => now.mine == start.mine && now.strays == start.strays + multiset(Leaves(locks[first]))
    case AtTrial(first, i) =>
      first < |locks| && i != first && now.strays == start.strays && now.mine == start.mine + Missed(locks, first, i)
  }

  lemma EndsInUnlocks(locks: seq<Ptr>, start: View, before: View, stopped: View, now: View,
                      calls: seq<Event>, more: seq<Event>, ph: Phase, order: seq<Lock>, back: seq<Lock>)
    requires before.trace == start.trace + calls && stopped.trace == before.trace + (more + Rels(order))
    requires now.trace == stopped.trace + Rels(back)
    requires var plan := Plan(LeavesEach(locks), false); Run(plan, Start(plan), calls + more) == Some(ph)
    ensures RanUntil(locks, start, now, calls + more, ph)
  {
    RelsConcat(order, back);
    assert now.trace == start.trace + (calls + more + Rels(order + back)) by {
      Assoc(calls, more, Rels(order));
      Assoc(start.trace, calls, more + Rels(order));
      Assoc(start.trace, calls + more + Rels(order), Rels(back));
      Assoc(calls + more, Rels(order), Rels(back));
    }
  }

  lemma BlockPanicRuns(locks: seq<Ptr>, start: View, before: View, stopped: View, now: View, calls: seq<Event>,
                       first: nat, at: nat, order: seq<Lock>)
    requires first < |locks| && BlocksNext(locks, start, before, calls, first)
    requires Stopped(BlockPanic, before, stopped, Leaves(locks[first]), at, order)
    requires now.trace == stopped.trace + Rels(Leaves(locks[first]))
    ensures RanUntil(locks, start, now, calls + Acqs(Leaves(locks[first])[..at]), Block(first, at))
  {
    hide Acqs, Rels;
    var plan := Plan(LeavesEach(locks), false);
    var g := plan.groups[first];
    assert g[0..at] == g[..at] && g == Leaves(locks[first]);
    RunAcquiresTo(plan, first, 0, at);
    RunConcat(plan, Start(plan), calls, Acqs(g[..at]));
    assert Until(BlockPanic, g, at) == Acqs(g[..at]);
    EndsInUnlocks(locks, start, before, stopped, now, calls, Acqs(g[..at]), Block(first, at), order, g);
  }

  lemma TrialPanicRuns(locks: seq<Ptr>, start: View, before: View, stopped: View, now: View, calls: seq<Event>,
                       first: nat, i: nat, at: nat, order: seq<Lock>, back: seq<Lock>)
    requires first < |locks| && i < |locks| && i != first && AtRound(locks, start, before, calls, first, i)
    requires Stopped(TrialPanic, before, stopped, Leaves(locks[i]), at, order)
    requires now.trace == stopped.trace + Rels(back)
    ensures RanUntil(locks, start, now, calls + Trues(Leaves(locks[i])[..at]), Trial(first, i, at))
  {
    hide Trues, Rels;
    var plan := Plan(LeavesEach(locks), false);
    var g := plan.groups[i];
    assert g[0..at] == g[..at] && g == Leaves(locks[i]);
    RunTrials(plan, first, i, 0, at);
    RunConcat(plan, Start(plan), calls, Trues(g[..at]));
    assert Until(TrialPanic, g, at) == Trues(g[..at]);
    EndsInUnlocks(locks, start, before, stopped, now, calls, Trues(g[..at]), Trial(first, i, at), order, back);
  }

  /** What the panic cleanup of a trial of element i leaves taken: nothing, unless the element blocked
      on comes before element i - 1, which then stays taken. */
  function Missed(locks: seq<Ptr>, first: nat, i: nat): multiset<Lock>
    requires i < |locks|
  {
    if first < i - 1 then multiset(Leaves(locks[i - 1])) else multiset{}
  }

  /** No leaf of s is dead, those of `spare` aside. */
  ghost predicate AliveBut(dead: set<Lock>, s: seq<Lock>, spare: seq<Lock>) {
    forall l | l in s && l in dead :: l in spare
  }

  lemma AliveMore(dead: set<Lock>, locks: seq<Ptr>, first: nat, i: nat)
    requires first < |locks| && i < |locks| && AliveBut(dead, LeavesOf(locks[..i]), Leaves(locks[first]))
    requires i != first ==> Elems(Leaves(locks[i])) !! dead
    ensures AliveBut(dead, LeavesOf(locks[..i + 1]), Leaves(locks[first]))
  {
    hide LeavesOf, Leaves;
    LeavesUpTo(locks, i);
    assert forall l | l in Leaves(locks[i]) :: l in Elems(Leaves(locks[i]));
  }

  lemma AllAlive(dead: set<Lock>, s: seq<Lock>, spare: seq<Lock>)
    requires AliveBut(dead, s, spare) && Elems(spare) !! dead
    ensures Elems(s) !! dead
  {
    forall l | l in s ensures l !in dead { assert l in spare ==> l in Elems(spare); }
  }

  /** How many trials have succeeded when element i comes up; the element blocked on is not tried. */
  function Counted(first: nat, i: nat): nat {
    if first < i then i - 1 else i
  }

  lemma CleanedUp(locks: seq<Ptr>, first: nat, i: nat, locked: nat, start: View, before: View, now: View)
    requires first < |locks| && i < |locks| && i != first && locked == Counted(first, i)
    requires before.mine == start.mine + multiset(GivenBack(locks, first, i)) && before.strays == start.strays
    requires GaveBack(before, now, GivenBack(locks, first, locked))
    ensures now.strays == start.strays && now.mine == start.mine + Missed(locks, first, i)
  {
    AllButMissed(locks, first, i);
    LeftOver(start, before, now, GivenBack(locks, first, locked), Missed(locks, first, i));
  }

  lemma AllButMissed(locks: seq<Ptr>, first: nat, i: nat)
    requires first < |locks| && i < |locks| && i != first
    ensures multiset(GivenBack(locks, first, i))
            == multiset(GivenBack(locks, first, Counted(first, i))) + Missed(locks, first, i)
  {
    if first < i {
      RoundStep(locks, first, i - 1);
    }
  }

  lemma LeftOver(start: View, before: View, now: View, given: seq<Lock>, left: multiset<Lock>)
    requires before.mine == start.mine + (multiset(given) + left) && before.strays == start.strays
    requires GaveBack(before, now, given)
    ensures now.mine == start.mine + left && now.strays == start.strays
  {
  }

  /** The panic cleanup of a trial of element i gives back everything if and only if the element
      blocked on is after i, or just before it, or else the element before i takes no locks. */
  lemma CleanupIsExactIff(locks: seq<Ptr>, first: nat, i: nat, start: View, before: View, now: View)
    requires first < |locks| && i < |locks| && i != first
    requires before.mine == start.mine + multiset(GivenBack(locks, first, i)) && before.strays == start.strays
    requires GaveBack(before, now, GivenBack(locks, first, Counted(first, i)))
    ensures now.mine == start.mine <==> first > i || first + 1 == i || Leaves(locks[i - 1]) == []
  {
    hide GivenBack, Leaves;
    CleanedUp(locks, first, i, Counted(first, i), start, before, now);
    if first < i - 1 {
      AddsNothing(start.mine, Leaves(locks[i - 1]));
    }
  }

  lemma AddsNothing(m: multiset<Lock>, s: seq<Lock>)
    ensures m + multiset(s) == m <==> s == []
  {
    if s != [] {
      assert s[0] in multiset(s) && (m + multiset(s))[s[0]] > m[s[0]];
    }
  }

  function ThreeLocks(): seq<Ptr> {
    [LeafPtr(0, 0), LeafPtr(1, 0), LeafPtr(2, 0)]
  }

  lemma ThreeLocksGiven()
    ensures GivenBack(ThreeLocks(), 0, 1) == [0] && GivenBack(ThreeLocks(), 0, 2) == [0, 1]
  {
    var locks := ThreeLocks();
    assert locks[..0] == [];
    LeavesUpTo(locks, 0);
    LeavesUpTo(locks, 1);
  }

  /** Three locks, taken from nothing by a blocking call and a trial, and a panic in the trial of the third:
      the second stays locked. */
  lemma CleanupLeaks() returns (before: View, now: View, calls: seq<Event>)
    ensures AtRound(ThreeLocks(), View(multiset{}, [], multiset{}), before, calls, 0, 2)
    ensures calls == [Acquired(0)] + [Tried(1, true)] && before.mine == multiset{0, 1}
    ensures GaveBack(before, now, GivenBack(ThreeLocks(), 0, Counted(0, 2))) && now.mine == multiset{1}
  {
    before, calls := ThreeLocksRound();
    ThreeLocksGiven();
    now := View(multiset{1}, before.trace + Rels([0]), multiset{});
  }

  lemma ThreeLocksRound() returns (before: View, calls: seq<Event>)
    ensures AtRound(ThreeLocks(), View(multiset{}, [], multiset{}), before, calls, 0, 2)
    ensures calls == [Acquired(0)] + [Tried(1, true)] && before.mine == multiset{0, 1} && before.strays == multiset{}
  {
    hide BlocksNext, GivenBack, Beyond, Reached;
    var locks, start := ThreeLocks(), View(multiset{}, [], multiset{});
    var blocked := View(multiset{0}, [Acquired(0)], multiset{});
    before := View(multiset{0, 1}, [Acquired(0)] + [Tried(1, true)], multiset{});
    ThreeLocksCalls(start, blocked, before);
    hide AtRound, Took, Tested, Acqs, Trues, Leaves, Run;
    RoundsBegin(locks, start);
    RoundStarts(locks, start, start, blocked, [], 0);
    RoundSkips(locks, start, blocked, [] + Acqs([0]), 0);
    RoundGoesOn(locks, start, blocked, before, [] + Acqs([0]), 0, 1);
    calls := [] + Acqs([0]) + Trues([1]);
  }

  lemma ThreeLocksCalls(start: View, blocked: View, before: View)
    requires start == View(multiset{}, [], multiset{}) && blocked == View(multiset{0}, [Acquired(0)], multiset{})
    requires before == View(multiset{0, 1}, [Acquired(0)] + [Tried(1, true)], multiset{})
    ensures Leaves(ThreeLocks()[0]) == [0] && Leaves(ThreeLocks()[1]) == [1]
    ensures Acqs([0]) == [Acquired(0)] && Trues([1]) == [Tried(1, true)]
    ensures Took(start, blocked, [0]) && Tested(blocked, before, [1])
  {
    assert multiset([0]) == multiset{0} && multiset([1]) == multiset{1};
    assert multiset{0} + multiset{1} == multiset{0, 1};
  }

  // ---------- What is held at each call ----------

  /** An ordered acquisition, whether it returns or panics, makes one blocking call per leaf in order,
      and holds at each exactly the leaves before it. */
  lemma OrderedLockHolds(s: seq<Lock>, p: nat, k: nat)
    requires NoDup(s) && k < p <= |s|
    ensures |Acqs(s[..p])| == p && Acqs(s[..p])[k] == Acquired(s[k])
    ensures HeldBy(Acqs(s[..p])[..k]) == Elems(s[..k])
  {
    var calls := Acqs(s[..p]);
    var plan := Plan([s], false);
    AcqsAt(s[..p], k);
    assert plan.groups[0][0..p] == s[..p];
    RunAcquiresTo(plan, 0, 0, p);
    RunPrefix(plan, Start(plan), calls, k + 1);
    var f, q := BlockingCallHolds(plan, calls, k);
    assert q == k;
  }

  lemma {:induction false} AcqsAt(s: seq<Lock>, k: nat)
    requires k < |s|
    ensures |Acqs(s)| == |s| && Acqs(s)[k] == Acquired(s[k])
  {
    if k > 0 { AcqsAt(s[1..], k - 1); } else if |s| > 1 { AcqsAt(s[1..], 0); }
  }

  /** A retrying acquisition, whether it returns or panics, holds at each blocking call nothing but the
      earlier leaves of the one element it blocks on. */
  lemma RetryLockBlocksOn(locks: seq<Ptr>, calls: seq<Event>, k: nat) returns (f: nat, p: nat)
    requires var plan := Plan(LeavesEach(locks), false); Run(plan, Start(plan), calls).Some?
    requires NoDup(LeavesOf(locks)) && k < |calls| && calls[k].Acquired?
    ensures f < |locks| && p < |Leaves(locks[f])| && calls[k].l == Leaves(locks[f])[p]
    ensures HeldBy(calls[..k]) == Elems(Leaves(locks[f])[..p])
  {
    var plan := Plan(LeavesEach(locks), false);
    DistinctEach(locks, false);
    RunPrefix(plan, Start(plan), calls, k + 1);
    f, p := BlockingCallHolds(plan, calls, k);
    assert plan.groups[f] == Leaves(locks[f]);
  }

  /** At each trial of element i it holds exactly the elements before i, the element it blocked on, and
      the earlier leaves of element i. */
  lemma RetryLockTries(locks: seq<Ptr>, calls: seq<Event>, k: nat) returns (first: nat, i: nat, p: nat)
    requires var plan := Plan(LeavesEach(locks), false); Run(plan, Start(plan), calls).Some?
    requires NoDup(LeavesOf(locks)) && k < |calls| && calls[k].Tried?
    ensures first < |locks| && i < |locks| && i != first && p < |Leaves(locks[i])|
    ensures calls[k].l == Leaves(locks[i])[p]
    ensures HeldBy(calls[..k])
            == Elems(LeavesOf(locks[..i])) + Elems(Leaves(locks[i])[..p]) + Elems(Leaves(locks[first]))
  {
    hide LeavesOf, Leaves, Run, HeldBy;
    var plan := Plan(LeavesEach(locks), false);
    DistinctEach(locks, false);
    RunPrefix(plan, Start(plan), calls, k + 1);
    var f: int;
    f, i, p := TrialHolds(plan, calls, k);
    first := f;
    BelowEach(locks, i);
    assert plan.groups[i] == Leaves(locks[i]);
  }

  /** A try-lock makes the calls of the automaton for trying, up to success or to failure. */
  lemma OrderedTryFollowsPlan(s: seq<Lock>, start: View, end: View, at: nat, order: seq<Lock>)
    returns (calls: seq<Event>)
    requires Tested(start, end, s) || Refused(start, end, s, at, order)
    ensures Reached(Plan([s], true), start, end, calls, if Tested(start, end, s) then Got else Failed)
  {
    if Tested(start, end, s) {
      OrderedTryRuns(s);
      calls := Trues(s);
    } else {
      OrderedTryFails(s, at, order);
      calls := Trues(s[..at]) + [Tried(s[at], false)] + Rels(order);
    }
  }

  /** Leaf `at` of a list, as leaf p of element i. */
  lemma {:induction false} FindLeaf(locks: seq<Ptr>, at: nat) returns (i: nat, p: nat)
    requires at < |LeavesOf(locks)|
    ensures i < |locks| && p < |Leaves(locks[i])| && LeavesOf(locks)[at] == Leaves(locks[i])[p]
    ensures LeavesOf(locks)[..at] == LeavesOf(locks[..i]) + Leaves(locks[i])[..p]
  {
    var front := locks[..|locks| - 1];
    if at < |LeavesOf(front)| {
      i, p := FindLeaf(front, at);
      assert front[..i] == locks[..i];
    } else {
      i, p := |front|, at - |LeavesOf(front)|;
    }
  }

  lemma {:induction false} RunElements(locks: seq<Ptr>, i: nat)
    requires i <= |locks|
    ensures var plan := Plan(LeavesEach(locks), true);
            Run(plan, Start(plan), Trues(LeavesOf(locks[..i]))) == Some(SettleTrial(plan, -1, i, 0))
  {
    var plan := Plan(LeavesEach(locks), true);
    if i == 0 {
      assert locks[..0] == [];
    } else {
      var g := Leaves(locks[i - 1]);
      RunElements(locks, i - 1);
      LeavesUpTo(locks, i - 1);
      TruesConcat(LeavesOf(locks[..i - 1]), g);
      assert plan.groups[i - 1] == g && g[0..|g|] == g;
      RunTrials(plan, -1, i - 1, 0, |g|);
      RunConcat(plan, Start(plan), Trues(LeavesOf(locks[..i - 1])), Trues(g));
    }
  }

  /** The same calls are those of the automaton that tries a retrying collection element by element. */
  lemma TryFollowsElements(locks: seq<Ptr>, start: View, end: View, at: nat, order: seq<Lock>)
    returns (calls: seq<Event>)
    requires Tested(start, end, LeavesOf(locks)) || Refused(start, end, LeavesOf(locks), at, order)
    ensures Reached(Plan(LeavesEach(locks), true), start, end, calls,
                    if Tested(start, end, LeavesOf(locks)) then Got else Failed)
  {
    if Tested(start, end, LeavesOf(locks)) {
      RunElements(locks, |locks|);
      assert locks[..|locks|] == locks;
      calls := Trues(LeavesOf(locks));
    } else {
      calls := Trues(LeavesOf(locks)[..at]) + [Tried(LeavesOf(locks)[at], false)] + Rels(order);
      RefusalRuns(locks, at, order);
    }
  }

  lemma RefusalRuns(locks: seq<Ptr>, at: nat, order: seq<Lock>)
    requires at < |LeavesOf(locks)| && NoDup(order) && Elems(order) == Elems(LeavesOf(locks)[..at])
    ensures var plan := Plan(LeavesEach(locks), true);
            Run(plan, Start(plan), Trues(LeavesOf(locks)[..at]) + [Tried(LeavesOf(locks)[at], false)] + Rels(order))
            == Some(Failed)
  {
    hide Leaves, LeavesOf, Trues, Rels;
    var plan := Plan(LeavesEach(locks), true);
    var i, p := FindLeaf(locks, at);
    var a, b := LeavesOf(locks[..i]), Leaves(locks[i])[..p];
    RunElements(locks, i);
    TruesConcat(a, b);
    BelowEach(locks, i);
    assert plan.groups[i] == Leaves(locks[i]);
    assert Elems(a + b) == Elems(a) + Elems(b);
    RunRefusal(plan, -1, i, p, order);
    var tail := Trues(b) + [Tried(LeavesOf(locks)[at], false)] + Rels(order);
    RunConcat(plan, Start(plan), Trues(a), tail);
    assert Trues(a) + tail == Trues(a + b) + [Tried(LeavesOf(locks)[at], false)] + Rels(order);
  }

  // ---------- Memory ----------

  /** All leaf locks as one thread sees them, for one acquisition in one mode: its own holds, the open
      hold sessions of other threads, and how many sessions the others may still open. */
  class Memory {
    const mode: Mode
    const badUnlock: set<Lock>  // leaf locks whose raw unlock panics
    const quiet: bool           // no other thread moves, and no raw trial panics, unless it is waited for
    var mine: multiset<Lock>
    var foreign: multiset<(Lock, Mode)>
    var patience: nat
    var killed: set<Lock>
    ghost var own: set<Lock>          // leaf locks that this thread killed
    ghost var trace: seq<Event>
    ghost var strays: multiset<Lock>  // unlocks of locks this thread did not hold

    constructor (mode: Mode, badUnlock: set<Lock>, quiet: bool, foreign: multiset<(Lock, Mode)>, patience: nat)
      ensures this.mode == mode && this.badUnlock == badUnlock && this.quiet == quiet && this.foreign == foreign
      ensures this.patience == patience && mine == multiset{} && trace == [] && strays == multiset{}
      ensures killed == {} && own == {} && Valid()
    {
      this.mode, this.badUnlock, this.quiet, this.foreign, this.patience := mode, badUnlock, quiet, foreign, patience;
      mine, killed, own, trace, strays := multiset{}, {}, {}, [], multiset{};
    }

    ghost function Now(): View
      reads this
    {
      View(mine, trace, strays)
    }

    /** Another thread holds l in a conflicting mode. */
    predicate Blocked(l: Lock)
      reads this
    {
      Conflict(mode, foreign, l)
    }

    /** A trial of l would succeed now. */
    predicate Open(l: Lock)
      reads this
    {
      l !in killed && !Blocked(l)
    }

    static predicate Conflict(mode: Mode, sessions: multiset<(Lock, Mode)>, l: Lock) {
      (l, Write) in sessions || (mode == Write && (l, Read) in sessions)
    }

    /** The sessions of other threads on l are what its raw lock says. */
    static ghost predicate SessionsAre(sessions: multiset<(Lock, Mode)>, l: Lock, h: Hold) {
      match h
      case Free => (l, Write) !in sessions && (l, Read) !in sessions
      case Writer(_) => sessions[(l, Write)] == 1 && (l, Read) !in sessions
      case Readers(who) => who != multiset{} && sessions[(l, Read)] == |who| && (l, Write) !in sessions
    }

    /** They conflict exactly if the raw lock refuses. */
    static lemma ConflictIsRefusal(mode: Mode, sessions: multiset<(Lock, Mode)>, l: Lock, h: Hold)
      requires SessionsAre(sessions, l, h)
      ensures Conflict(mode, sessions, l) <==> !CanTake(h, mode)
    {
    }

    ghost predicate Valid()
      reads this
    {
      own <= killed && forall l | l in mine :: !Blocked(l)
    }

    /** Sessions of other threads, open or still to come. */
    function Fuel(): nat
      reads this
    {
      patience + |foreign|
    }

    /** Sessions only run out, and a lock that is no longer blocked has cost one. Locks stay killed, and
        in quiet this thread killed all that are new. */
    twostate predicate Eased()
      reads this
    {
      && Eases(mode, old(foreign), old(patience), foreign, patience)
      && old(own) <= own && old(killed) <= killed && (quiet ==> killed <= old(killed) + own)
    }

    /** This thread killed at most l, and l is dead. */
    twostate predicate KilledOnly(l: Lock)
      reads this
    {
      l in killed && own <= old(own) + {l}
    }

    /** This thread killed one leaf of s, whose raw unlock panics. */
    static ghost predicate KilledOneOf(before: set<Lock>, after: set<Lock>, bad: set<Lock>, s: seq<Lock>) {
      exists l :: l in s && l in bad && after == before + {l}
    }

    static ghost predicate Eases(mode: Mode, before: multiset<(Lock, Mode)>, p: nat,
                                 after: multiset<(Lock, Mode)>, q: nat)
    {
      && q + |after| <= p + |before|
      && forall l: Lock :: Conflict(mode, before, l) && !Conflict(mode, after, l) ==> q + |after| < p + |before|
    }

    static lemma EasesOn(mode: Mode, before: multiset<(Lock, Mode)>, p: nat, middle: multiset<(Lock, Mode)>, m: nat,
                         after: multiset<(Lock, Mode)>, q: nat)
      requires Eases(mode, before, p, middle, m) && Eases(mode, middle, m, after, q)
      ensures Eases(mode, before, p, after, q)
    {
    }

    static lemma OneEnds(mode: Mode, before: multiset<(Lock, Mode)>, p: nat, after: multiset<(Lock, Mode)>, q: nat,
                         x: (Lock, Mode))
      requires Eases(mode, before, p, after, q)
      ensures Eases(mode, before, p, after - multiset{x}, q)
      ensures forall l: Lock :: !Conflict(mode, after, l) ==> !Conflict(mode, after - multiset{x}, l)
    {
      if x in after {
        assert after == (after - multiset{x}) + multiset{x};
      } else {
        assert after - multiset{x} == after;
      }
    }

    /** Any moves of other threads: they end and open sessions on locks this thread does not hold, and
        may kill locks. */
    method Interfere()
      requires Valid()
      modifies this`foreign, this`patience, this`killed
      ensures Valid() && Eased() && old(killed) <= killed
      ensures quiet ==> foreign == old(foreign) && patience == old(patience) && killed == old(killed)
    {
      if quiet {
        return;
      }
      var sessions: multiset<(Lock, Mode)> := *;
      var left: nat := *;
      var dead: set<Lock> := *;
      if (forall l | l in mine :: !Conflict(mode, sessions, l))
         && left + |sessions| + |foreign - sessions| <= patience + |foreign| {
        ghost var before := foreign;
        foreign, patience := sessions, left;
        EndedCost(before, foreign);
      }
      killed := killed + dead;
    }

    lemma EndedCost(before: multiset<(Lock, Mode)>, after: multiset<(Lock, Mode)>)
      ensures forall l: Lock :: Conflict(mode, before, l) && !Conflict(mode, after, l) ==> |before - after| > 0
    {
      forall l: Lock | Conflict(mode, before, l) && !Conflict(mode, after, l)
        ensures |before - after| > 0
      {
        assert (l, Write) in before - after || (l, Read) in before - after;
      }
    }

    /** Waits until nobody else holds l in a conflicting mode; whoever does gets to finish. */
    method AwaitRelease(l: Lock)
      requires Valid()
      modifies this`foreign, this`patience, this`killed
      ensures Valid() && Eased() && old(killed) <= killed && !Blocked(l)
    {
      Interfere();
      if Blocked(l) {
        ghost var before := foreign;
        foreign := foreign[(l, Write) := 0];
        if mode == Write {
          foreign := foreign[(l, Read) := 0];
        }
      }
    }

    // ---------- Leaf locks ----------

    /** `raw_write` / `raw_read` of a leaf: panics at once if the lock was killed, and kills it if the
        raw lock panics. */
    method LeafLock(l: Lock) returns (o: Outcome)
      requires Valid() && l !in mine
      modifies this`mine, this`foreign, this`patience, this`killed, this`own, this`trace
      ensures Valid() && Eased() && old(killed) <= killed
      ensures l in old(killed) ==> o.Panicked?
      ensures o.Normal? ==> mine == old(mine) + multiset{l} && trace == old(trace) + [Acquired(l)]
      ensures o.Panicked? ==> mine == old(mine) && trace == old(trace) && KilledOnly(l)
      ensures o.Normal? ==> own == old(own)
    {
      Interfere();
      if l in killed {
        return Panicked;
      }
      var faulty: bool := *;
      if faulty {
        killed, own := killed + {l}, own + {l};
        return Panicked;
      }
      AwaitRelease(l);
      mine := mine + multiset{l};
      trace := trace + [Acquired(l)];
      return Normal;
    }

    /** `raw_try_write` / `raw_try_read` of a leaf: false if it was killed or is held in a conflicting
        mode. */
    method LeafTry(l: Lock) returns (o: Attempt)
      requires Valid() && l !in mine
      modifies this`mine, this`foreign, this`patience, this`killed, this`own, this`trace
      ensures Valid() && Eased() && old(killed) <= killed
      ensures l in old(killed) ==> o.WouldBlock?
      ensures o.Locked? ==> mine == old(mine) + multiset{l} && trace == old(trace) + [Tried(l, true)]
      ensures o.WouldBlock? ==> mine == old(mine) && trace == old(trace) + [Tried(l, false)]
                                     && (l in killed || Blocked(l))
      ensures o.Unwound? ==> mine == old(mine) && trace == old(trace) && KilledOnly(l)
      ensures !o.Unwound? ==> own == old(own)
      ensures quiet ==> o == (if old(Open(l)) then Locked else WouldBlock)
                        && foreign == old(foreign) && killed == old(killed)
    {
      Interfere();
      if l in killed {
        trace := trace + [Tried(l, false)];
        return WouldBlock;
      }
      var faulty: bool := *;
      if faulty && !quiet {
        killed, own := killed + {l}, own + {l};
        return Unwound;
      }
      if Blocked(l) {
        trace := trace + [Tried(l, false)];
        return WouldBlock;
      }
      mine := mine + multiset{l};
      trace := trace + [Tried(l, true)];
      return Locked;
    }

    /** `raw_unlock_*` of a leaf. Unlocking a lock that this thread does not hold is recorded as stray,
        and cuts short a session of somebody else. */
    method LeafUnlock(l: Lock) returns (o: Outcome)
      requires Valid()
      modifies this`mine, this`foreign, this`patience, this`killed, this`own, this`trace, this`strays
      ensures Valid() && Eased() && old(killed) <= killed
      ensures o.Panicked? <==> l in badUnlock
      ensures o.Normal? ==> mine == old(mine) - multiset{l} && trace == old(trace) + [Released(l)]
                            && strays == old(strays) + (multiset{l} - old(mine))
      ensures o.Panicked? ==> mine == old(mine) && trace == old(trace) && strays == old(strays)
      ensures own == if o.Panicked? then old(own) + {l} else old(own)
      ensures quiet && o.Normal? ==> foreign == old(CutShort(l)) && killed == old(killed)
    {
      if l in badUnlock {
        killed, own := killed + {l}, own + {l};
        Interfere();
        return Panicked;
      }
      Unlock(l);
      return Normal;
    }

    /** The sessions of other threads that are left by an unlock of l: if this thread does not hold it, it
        is somebody else's that ends, if there is one in this mode. */
    function CutShort(l: Lock): multiset<(Lock, Mode)>
      reads this
    {
      if l in mine then foreign else foreign - multiset{(l, mode)}
    }

    method Unlock(l: Lock)
      requires Valid()
      modifies this`mine, this`foreign, this`patience, this`killed, this`trace, this`strays
      ensures Valid() && Eased() && old(killed) <= killed
      ensures mine == old(mine) - multiset{l} && trace == old(trace) + [Released(l)]
      ensures strays == old(strays) + (multiset{l} - old(mine))
      ensures quiet ==> foreign == old(CutShort(l)) && killed == old(killed)
    {
      hide Eases, Conflict;
      var held := l in mine;
      strays := strays + (multiset{l} - mine);
      mine := mine - multiset{l};
      trace := trace + [Released(l)];
      LetGo(l, held);
    }

    /** Moves of other threads around an unlock: if this thread did not hold l, it is somebody else's
        session that ends. */
    method LetGo(l: Lock, held: bool)
      requires Valid()
      modifies this`foreign, this`patience, this`killed
      ensures Valid() && Eased() && old(killed) <= killed
      ensures quiet ==> killed == old(killed)
      ensures quiet ==> foreign == if held then old(foreign) else old(foreign) - multiset{(l, mode)}
    {
      Interfere();
      if !held {
        hide Eases;
        OneEnds(mode, old(foreign), old(patience), foreign, patience, (l, mode));
        foreign := foreign - multiset{(l, mode)};
      }
    }

    // ---------- Unlocking ----------

    /** None of these raw unlocks panics. */
    ghost predicate Sound(s: seq<Lock>)
    {
      forall l | l in s :: l !in badUnlock
    }

    method RawUnlock(p: Ptr) returns (o: Outcome)
      requires Valid()
      modifies this
      ensures Valid() && Eased() && old(killed) <= killed
      ensures Sound(Leaves(p)) ==> o.Normal?
      ensures o.Normal? ==> GaveBack(old(Now()), Now(), Leaves(p)) && own == old(own)
      ensures o.Panicked? ==> KilledOneOf(old(own), own, badUnlock, Leaves(p))
      ensures quiet && o.Normal? && multiset(Leaves(p)) <= old(mine) ==>
                foreign == old(foreign) && killed == old(killed)
      decreases p
    {
      match p
      case LeafPtr(lock, _) =>
        o := LeafUnlock(lock);
        OneRelease(lock);
        assert o.Panicked? ==> lock in Leaves(p);
      case OwnedPtr(_, _, kids) => o := UnlockAll(kids);
    }

    /** `raw_unlock_write` / `raw_unlock_read` of a collection: its raw locks in order. */
    method UnlockAll(locks: seq<Ptr>) returns (o: Outcome)
      requires Valid()
      modifies this
      ensures Valid() && Eased() && old(killed) <= killed
      ensures Sound(LeavesOf(locks)) ==> o.Normal?
      ensures o.Normal? ==> GaveBack(old(Now()), Now(), LeavesOf(locks)) && own == old(own)
      ensures o.Panicked? ==> KilledOneOf(old(own), own, badUnlock, LeavesOf(locks))
      ensures quiet && o.Normal? && multiset(LeavesOf(locks)) <= old(mine) ==>
                foreign == old(foreign) && killed == old(killed)
      decreases locks
    {
      for i := 0 to |locks|
        invariant Valid() && Eased() && old(killed) <= killed
        invariant GaveBack(old(Now()), Now(), LeavesOf(locks[..i])) && own == old(own)
        invariant quiet && multiset(LeavesOf(locks)) <= old(mine) ==> foreign == old(foreign) && killed == old(killed)
      {
        ghost var before := Now();
        Cut(locks, i);
        PartsFit(LeavesOf(locks[..i]), Leaves(locks[i]), LeavesOf(locks[i + 1..]), old(mine));
        o := RawUnlock(locks[i]);
        if o.Panicked? {
          OneOfMore(old(own), own, badUnlock, locks, i);
          return;
        }
        GaveMore(old(Now()), before, Now(), LeavesOf(locks[..i]), Leaves(locks[i]));
      }
      assert locks[..|locks|] == locks;
      return Normal;
    }

    static lemma OneOfMore(before: set<Lock>, after: set<Lock>, bad: set<Lock>, locks: seq<Ptr>, i: nat)
      requires i < |locks| && KilledOneOf(before, after, bad, Leaves(locks[i]))
      ensures KilledOneOf(before, after, bad, LeavesOf(locks))
    {
      var l :| l in Leaves(locks[i]) && l in bad && after == before + {l};
      Cut(locks, i);
      assert l in LeavesOf(locks);
    }

    /** Kills every leaf of a raw lock. */
    method Poison(p: Ptr)
      requires Valid()
      modifies this`killed, this`own
      ensures killed == old(killed) + Elems(Leaves(p)) && own == old(own) + Elems(Leaves(p))
    {
      killed, own := killed + Elems(Leaves(p)), own + Elems(Leaves(p));
    }

    /** `attempt_to_recover_writes_from_panic` / `..._reads_...`: releases every lock of the slice. Only if
        an unlock panics, it kills every lock of the slice and panics again. */
    method RecoverFromPanic(locks: seq<Ptr>) returns (o: Outcome)
      requires Valid()
      modifies this
      ensures Valid() && Eased() && old(killed) <= killed
      ensures Sound(LeavesOf(locks)) ==> o.Normal?
      ensures o.Normal? ==> GaveBack(old(Now()), Now(), LeavesOf(locks))
      ensures own == if o.Normal? then old(own) else old(own) + Elems(LeavesOf(locks))
      ensures o.Panicked? ==> Elems(LeavesOf(locks)) <= killed
      ensures quiet && o.Normal? && multiset(LeavesOf(locks)) <= old(mine) ==>
                foreign == old(foreign) && killed == old(killed)
    {
      o := UnlockAll(locks);
      if o.Panicked? {
        ghost var l :| l in LeavesOf(locks) && own == old(own) + {l};
        for i := 0 to |locks|
          invariant Valid() && Eased() && old(killed) <= killed
          invariant Elems(LeavesOf(locks[..i])) <= killed
          invariant own == old(own) + {l} + Elems(LeavesOf(locks[..i]))
        {
          Poison(locks[i]);
          LeavesUpTo(locks, i);
        }
        assert locks[..|locks|] == locks;
      }
    }

    /** The cleanup of an ordered acquisition that stopped at element i by a panic. */
    method CleanUpPrefix(why: Stop, locks: seq<Ptr>, i: nat, ghost start: View, ghost before: View,
                         ghost q: nat, ghost inner: seq<Lock>)
      returns (ghost at: nat, ghost order: seq<Lock>)
      requires Valid() && NoDup(LeavesOf(locks)) && Sound(LeavesOf(locks)) && i < |locks|
      requires before == View(start.mine + multiset(LeavesOf(locks[..i])),
                              start.trace + Taking(why, LeavesOf(locks[..i])), start.strays)
      requires Stopped(why, before, Now(), Leaves(locks[i]), q, inner)
      modifies this
      ensures Valid() && Eased() && old(killed) <= killed
      ensures Stopped(why, start, Now(), LeavesOf(locks), at, order) && LeavesOf(locks)[at] == Leaves(locks[i])[q]
      ensures own == old(own)
    {
      ghost var stopped := Now();
      PrefixSound(locks, i);
      var r := RecoverFromPanic(locks[..i]);
      at, order := StoppedAt(why, locks, i, start, before, stopped, Now(), q, inner);
    }

    // ---------- Ordered acquisition ----------

    /** The leaves are distinct, not held by this thread, and unlock without panicking. */
    ghost predicate Ready(s: seq<Lock>)
      reads this
    {
      NoDup(s) && Sound(s) && forall l | l in s :: l !in mine
    }

    method RawLock(p: Ptr) returns (o: Outcome, ghost at: nat, ghost order: seq<Lock>)
      requires Valid() && Ready(Leaves(p))
      modifies this
      ensures Valid() && Eased() && old(killed) <= killed
      ensures Elems(Leaves(p)) !! old(killed) || o.Panicked?
      ensures o.Normal? ==> Took(old(Now()), Now(), Leaves(p)) && own == old(own)
      ensures o.Panicked? ==> Stopped(BlockPanic, old(Now()), Now(), Leaves(p), at, order)
                              && KilledOnly(Leaves(p)[at])
      decreases p
    {
      match p
      case LeafPtr(lock, _) =>
        o := LeafLock(lock);
        at, order := 0, [];
        if o.Panicked? {
          StoppedAtOnce(BlockPanic, old(Now()), Now(), lock);
        }
      case OwnedPtr(_, _, kids) => o, at, order := OrderedLock(kids);
    }

    /** Element i of an ordered acquisition, with its cleanup. */
    method LockNext(locks: seq<Ptr>, i: nat, ghost start: View)
      returns (o: Outcome, ghost at: nat, ghost order: seq<Lock>)
      requires Valid() && NoDup(LeavesOf(locks)) && Sound(LeavesOf(locks)) && i < |locks|
      requires forall l | l in LeavesOf(locks) :: l !in start.mine
      requires Took(start, Now(), LeavesOf(locks[..i]))
      modifies this
      ensures Valid() && Eased() && old(killed) <= killed
      ensures Elems(Leaves(locks[i])) !! old(killed) || o.Panicked?
      ensures o.Normal? ==> Took(start, Now(), LeavesOf(locks[..i + 1])) && own == old(own)
      ensures o.Panicked? ==> Stopped(BlockPanic, start, Now(), LeavesOf(locks), at, order)
                              && KilledOnly(LeavesOf(locks)[at])
      decreases locks, 0
    {
      NextIsFree(locks, i, start.mine);
      ghost var before := Now();
      o, at, order := RawLock(locks[i]);
      if o.Panicked? {
        at, order := CleanUpPrefix(BlockPanic, locks, i, start, before, at, order);
      } else {
        LeavesUpTo(locks, i);
        TookMore(start, before, Now(), LeavesOf(locks[..i]), Leaves(locks[i]));
      }
    }

    /** `ordered_write` / `ordered_read`: blocking calls in list order; a panic gives back exactly what
        was taken, and goes on. */
    method OrderedLock(locks: seq<Ptr>) returns (o: Outcome, ghost at: nat, ghost order: seq<Lock>)
      requires Valid() && Ready(LeavesOf(locks))
      modifies this
      ensures Valid() && Eased() && old(killed) <= killed
      ensures Elems(LeavesOf(locks)) !! old(killed) || o.Panicked?
      ensures o.Normal? ==> Took(old(Now()), Now(), LeavesOf(locks)) && own == old(own)
      ensures o.Panicked? ==> Stopped(BlockPanic, old(Now()), Now(), LeavesOf(locks), at, order)
                              && KilledOnly(LeavesOf(locks)[at])
      decreases locks, 1
    {
      for locked := 0 to |locks|
        invariant Valid() && Eased() && old(killed) <= killed
        invariant Elems(LeavesOf(locks[..locked])) !! old(killed)
        invariant Took(old(Now()), Now(), LeavesOf(locks[..locked])) && own == old(own)
      {
        LeavesUpTo(locks, locked);
        o, at, order := LockNext(locks, locked, old(Now()));
        if o.Panicked? {
          return;
        }
      }
      assert locks[..|locks|] == locks;
      return Normal, 0, [];
    }

    // ---------- Trying ----------

    /** A trial of every leaf would succeed now. */
    ghost predicate AllOpen(s: seq<Lock>)
      reads this
    {
      AllOpenIn(mode, killed, foreign, s)
    }

    static ghost predicate AllOpenIn(mode: Mode, dead: set<Lock>, sessions: multiset<(Lock, Mode)>, s: seq<Lock>) {
      forall l | l in s :: l !in dead && !Conflict(mode, sessions, l)
    }

    lemma AllOpenParts(dead: set<Lock>, sessions: multiset<(Lock, Mode)>, a: seq<Lock>, b: seq<Lock>, s: seq<Lock>)
      requires a + b <= s
      ensures AllOpenIn(mode, dead, sessions, a) && AllOpenIn(mode, dead, sessions, b)
              <==> AllOpenIn(mode, dead, sessions, a + b)
      ensures AllOpenIn(mode, dead, sessions, s) ==> AllOpenIn(mode, dead, sessions, b)
    {
      forall l | l in b ensures l in s { assert l in a + b; }
    }

    method RawTry(p: Ptr) returns (o: Attempt, ghost at: nat, ghost order: seq<Lock>)
      requires Valid() && Ready(Leaves(p))
      modifies this
      ensures Valid() && Eased() && old(killed) <= killed
      ensures o.Locked? ==> Tested(old(Now()), Now(), Leaves(p))
      ensures o.WouldBlock? ==> Refused(old(Now()), Now(), Leaves(p), at, order)
                                     && (!Open(Leaves(p)[at]) || Fuel() < old(Fuel()))
      ensures o.Unwound? ==> Stopped(TrialPanic, old(Now()), Now(), Leaves(p), at, order)
                             && KilledOnly(Leaves(p)[at])
      ensures !o.Unwound? ==> own == old(own)
      ensures o.Locked? ==> Elems(Leaves(p)) !! old(killed)
      ensures quiet ==> o == (if old(AllOpen(Leaves(p))) then Locked else WouldBlock)
                        && foreign == old(foreign) && killed == old(killed)
      decreases p, 0
    {
      match p
      case LeafPtr(lock, _) =>
        o := LeafTry(lock);
        at, order := 0, [];
        if !o.Locked? {
          StoppedAtOnce(if o.WouldBlock? then Refusal else TrialPanic, old(Now()), Now(), lock);
        }
      case OwnedPtr(_, _, kids) =>
        o, at, order := OrderedTry(kids);
    }

    /** After element i was refused: the earlier elements are unlocked, in order. */
    method UndoTry(locks: seq<Ptr>, i: nat, ghost start: View, ghost before: View, ghost q: nat, ghost inner: seq<Lock>)
      returns (ghost at: nat, ghost order: seq<Lock>)
      requires Valid() && NoDup(LeavesOf(locks)) && Sound(LeavesOf(locks)) && i < |locks|
      requires Tested(start, before, LeavesOf(locks[..i])) && Refused(before, Now(), Leaves(locks[i]), q, inner)
      modifies this
      ensures Valid() && Eased() && old(killed) <= killed
      ensures Refused(start, Now(), LeavesOf(locks), at, order) && LeavesOf(locks)[at] == Leaves(locks[i])[q]
      ensures old(!Open(Leaves(locks[i])[q])) ==> !Open(LeavesOf(locks)[at]) || Fuel() < old(Fuel())
      ensures own == old(own)
      ensures quiet ==> foreign == old(foreign) && killed == old(killed)
      decreases locks, 0
    {
      ghost var refused := Now();
      TestedHolds(start, before, LeavesOf(locks[..i]));
      PrefixSound(locks, i);
      var undone := UnlockAll(locks[..i]);
      at, order := StoppedAt(Refusal, locks, i, start, before, refused, Now(), q, inner);
    }

    /** Element i of an ordered trial, with its cleanup: what was taken since `start` stays taken only if
        the trial succeeds. */
    method TryNext(locks: seq<Ptr>, i: nat, ghost start: View)
      returns (o: Attempt, ghost at: nat, ghost order: seq<Lock>)
      requires Valid() && NoDup(LeavesOf(locks)) && Sound(LeavesOf(locks)) && i < |locks|
      requires forall l | l in LeavesOf(locks) :: l !in start.mine
      requires Tested(start, Now(), LeavesOf(locks[..i]))
      modifies this
      ensures Valid() && Eased() && old(killed) <= killed
      ensures o.Locked? ==> Tested(start, Now(), LeavesOf(locks[..i + 1]))
      ensures o.WouldBlock? ==> Refused(start, Now(), LeavesOf(locks), at, order)
                                && (!Open(LeavesOf(locks)[at]) || Fuel() < old(Fuel()))
      ensures o.Unwound? ==> Stopped(TrialPanic, start, Now(), LeavesOf(locks), at, order)
                             && KilledOnly(LeavesOf(locks)[at])
      ensures !o.Unwound? ==> own == old(own)
      ensures o.Locked? ==> Elems(Leaves(locks[i])) !! old(killed)
      ensures quiet ==> o == (if old(AllOpen(Leaves(locks[i]))) then Locked else WouldBlock)
                        && foreign == old(foreign) && killed == old(killed)
      decreases locks, 1
    {
      NextIsFree(locks, i, start.mine);
      ghost var before := Now();
      var r, q, inner := RawTry(locks[i]);
      if r.Unwound? {
        at, order := CleanUpPrefix(TrialPanic, locks, i, start, before, q, inner);
        return Unwound, at, order;
      }
      if r.WouldBlock? {
        at, order := UndoTry(locks, i, start, before, q, inner);
        return WouldBlock, at, order;
      }
      PrefixGrows(locks, i);
      TestedMore(start, before, Now(), LeavesOf(locks[..i]), Leaves(locks[i]));
      return Locked, 0, [];
    }

    /** `ordered_try_write` / `ordered_try_read`: all or nothing. */
    method OrderedTry(locks: seq<Ptr>) returns (o: Attempt, ghost at: nat, ghost order: seq<Lock>)
      requires Valid() && Ready(LeavesOf(locks))
      modifies this
      ensures Valid() && Eased() && old(killed) <= killed
      ensures o.Locked? ==> Tested(old(Now()), Now(), LeavesOf(locks))
      ensures o.WouldBlock? ==> Refused(old(Now()), Now(), LeavesOf(locks), at, order)
                                     && (!Open(LeavesOf(locks)[at]) || Fuel() < old(Fuel()))
      ensures o.Unwound? ==> Stopped(TrialPanic, old(Now()), Now(), LeavesOf(locks), at, order)
                             && KilledOnly(LeavesOf(locks)[at])
      ensures !o.Unwound? ==> own == old(own)
      ensures o.Locked? ==> Elems(LeavesOf(locks)) !! old(killed)
      ensures quiet ==> o == (if old(AllOpen(LeavesOf(locks))) then Locked else WouldBlock)
                        && foreign == old(foreign) && killed == old(killed)
      decreases locks, 2
    {
      for i := 0 to |locks|
        invariant Valid() && Eased() && old(killed) <= killed
        invariant Tested(old(Now()), Now(), LeavesOf(locks[..i])) && own == old(own)
        invariant Elems(LeavesOf(locks[..i])) !! old(killed)
        invariant quiet ==> old(AllOpen(LeavesOf(locks[..i]))) && foreign == old(foreign) && killed == old(killed)
      {
        PrefixGrows(locks, i);
        AllOpenParts(killed, foreign, LeavesOf(locks[..i]), Leaves(locks[i]), LeavesOf(locks));
        o, at, order := TryNext(locks, i, old(Now()));
        if !o.Locked? {
          return;
        }
      }
      assert locks[..|locks|] == locks;
      return Locked, 0, [];
    }

    // ---------- Retrying acquisition ----------

    /** The common tail of the ordinary rollback and of the panic cleanup: release the first k elements,
        and the element blocked on unless it is among them. */
    method GiveBackFrom(locks: seq<Ptr>, first: nat, k: nat)
      requires Valid() && Sound(LeavesOf(locks)) && first < |locks| && k <= |locks|
      modifies this
      ensures Valid() && Eased() && old(killed) <= killed
      ensures GaveBack(old(Now()), Now(), GivenBack(locks, first, k)) && own == old(own)
      ensures quiet && multiset(GivenBack(locks, first, k)) <= old(mine) ==>
                foreign == old(foreign) && killed == old(killed)
    {
      hide Leaves, LeavesOf, Eases;
      PrefixSound(locks, k);
      GivenBackFits(LeavesOf(locks[..k]), Beyond(locks, first, k), mine);
      ghost var start := Now();
      var r := RecoverFromPanic(locks[..k]);
      ghost var middle, sessions, left := Now(), foreign, patience;
      ReleaseBeyond(locks, first, k);
      EasesOn(mode, old(foreign), old(patience), sessions, left, foreign, patience);
      GaveMore(start, middle, Now(), LeavesOf(locks[..k]), Beyond(locks, first, k));
    }

    method ReleaseBeyond(locks: seq<Ptr>, first: nat, k: nat)
      requires Valid() && Sound(LeavesOf(locks)) && first < |locks|
      modifies this
      ensures Valid() && Eased() && old(killed) <= killed
      ensures GaveBack(old(Now()), Now(), Beyond(locks, first, k)) && own == old(own)
      ensures quiet && multiset(Beyond(locks, first, k)) <= old(mine) ==>
                foreign == old(foreign) && killed == old(killed)
    {
      if first >= k {
        Cut(locks, first);
        var r := RawUnlock(locks[first]);
      } else {
        assert trace + Rels([]) == trace;
      }
    }

    /** The plan's calls so far in this acquisition. */
    ghost predicate RoundAt(locks: seq<Ptr>, start: View, calls: seq<Event>, first: nat, i: nat)
      requires first < |locks| && i <= |locks|
      reads this
    {
      AtRound(locks, start, Now(), calls, first, i)
    }

    lemma ElementFree(locks: seq<Ptr>, start: View, calls: seq<Event>, first: nat, i: nat)
      requires NoDup(LeavesOf(locks)) && Sound(LeavesOf(locks)) && forall l | l in LeavesOf(locks) :: l !in start.mine
      requires first < |locks| && i < |locks| && i != first && RoundAt(locks, start, calls, first, i)
      ensures Ready(Leaves(locks[i]))
    {
      Around(locks, i);
      forall l | l in Leaves(locks[i]) ensures l !in mine {
        RoundFree(locks, first, i, l);
        assert l !in multiset(GivenBack(locks, first, i));
      }
    }

    /** Element i in a round: the one blocked on is skipped, any other is tried. */
    method Visit(locks: seq<Ptr>, first: nat, i: nat, locked: nat, ghost start: View, ghost calls: seq<Event>)
      returns (o: Attempt, n: nat, ghost calls': seq<Event>, ghost q: nat, ghost inner: seq<Lock>)
      requires Valid() && NoDup(LeavesOf(locks)) && Sound(LeavesOf(locks))
      requires forall l | l in LeavesOf(locks) :: l !in start.mine
      requires first < |locks| && i < |locks| && RoundAt(locks, start, calls, first, i)
      requires locked == Counted(first, i)
      modifies this
      ensures Valid() && Eased() && old(killed) <= killed
      ensures o.Locked? ==> RoundAt(locks, start, calls', first, i + 1) && n == Counted(first, i + 1)
      ensures !o.Locked? ==> i != first && n == locked && calls' == calls
      ensures o.WouldBlock? ==> Refused(old(Now()), Now(), Leaves(locks[i]), q, inner)
                                && (!Open(Leaves(locks[i])[q]) || Fuel() < old(Fuel()))
      ensures o.Unwound? ==> Stopped(TrialPanic, old(Now()), Now(), Leaves(locks[i]), q, inner)
                             && KilledOnly(Leaves(locks[i])[q])
      ensures !o.Unwound? ==> own == old(own)
      ensures o.Locked? && i != first ==> Elems(Leaves(locks[i])) !! old(killed)
    {
      hide AtRound;
      calls' := calls;
      if i == first {
        RoundSkips(locks, start, Now(), calls, first);
        o, n, q, inner := Locked, locked, 0, [];
      } else {
        ElementFree(locks, start, calls, first, i);
        ghost var before := Now();
        o, q, inner := RawTry(locks[i]);
        n := locked;
        if o.Locked? {
          RoundGoesOn(locks, start, before, Now(), calls, first, i);
          calls' := calls + Trues(Leaves(locks[i]));
          n := locked + 1;
        }
      }
    }

    /** The trials of one round, after element `first` was blocked on and acquired. `locked` counts the
        successful trials, as the source does. */
    method TryOthers(locks: seq<Ptr>, first: nat, ghost start: View, ghost begun: seq<Event>)
      returns (o: Attempt, i: nat, locked: nat, ghost before: View, ghost calls: seq<Event>,
               ghost q: nat, ghost inner: seq<Lock>)
      requires Valid() && NoDup(LeavesOf(locks)) && Sound(LeavesOf(locks))
      requires forall l | l in LeavesOf(locks) :: l !in start.mine
      requires first < |locks| && RoundAt(locks, start, begun, first, 0)
      modifies this
      ensures Valid() && Eased() && old(killed) <= killed
      ensures o.Locked? ==> RoundAt(locks, start, calls, first, |locks|)
      ensures !o.Locked? ==> i < |locks| && i != first && locked == Counted(first, i)
                             && AtRound(locks, start, before, calls, first, i)
      ensures o.WouldBlock? ==> Refused(before, Now(), Leaves(locks[i]), q, inner)
                                && (!Open(Leaves(locks[i])[q]) || Fuel() < old(Fuel()))
      ensures o.Unwound? ==> Stopped(TrialPanic, before, Now(), Leaves(locks[i]), q, inner)
                             && KilledOnly(Leaves(locks[i])[q])
      ensures !o.Unwound? ==> own == old(own)
      ensures o.Locked? ==> AliveBut(old(killed), LeavesOf(locks), Leaves(locks[first]))
    {
      hide AtRound;
      i, locked, calls := 0, 0, begun;
      assert locks[..0] == [];
      while true
        invariant i <= |locks| && locked == Counted(first, i)
        invariant Valid() && Eased() && old(killed) <= killed
        invariant RoundAt(locks, start, calls, first, i) && own == old(own)
        invariant AliveBut(old(killed), LeavesOf(locks[..i]), Leaves(locks[first]))
        decreases |locks| - i
      {
        before := Now();
        if i == |locks| {
          assert locks[..i] == locks;
          return Locked, i, locked, before, calls, 0, [];
        }
        o, locked, calls, q, inner := Visit(locks, first, i, locked, start, calls);
        if !o.Locked? {
          return;
        }
        AliveMore(old(killed), locks, first, i);
        i := i + 1;
      }
    }

    /** Bounds the rounds a retrying acquisition can still make when it is about to block on p. */
    ghost function Rounds(p: Ptr): nat
      reads this
    {
      RoundsIn(mode, killed, foreign, patience, Leaves(p))
    }

    static ghost function RoundsIn(mode: Mode, dead: set<Lock>, sessions: multiset<(Lock, Mode)>, patience: nat,
                                   s: seq<Lock>): nat
    {
      if !(Elems(s) !! dead) then 0
      else if patience + |sessions| > 0 && exists l :: l in s && Conflict(mode, sessions, l) then patience + |sessions|
      else 1 + patience + |sessions|
    }

    /** Getting through a blocking call on s costs the session that was in the way, if there was one. */
    static lemma BlockingCosts(mode: Mode, dead: set<Lock>, before: multiset<(Lock, Mode)>, p: nat,
                               after: multiset<(Lock, Mode)>, p': nat, s: seq<Lock>)
      requires Eases(mode, before, p, after, p') && Elems(s) !! dead
      requires forall l | l in s :: !Conflict(mode, after, l)
      ensures p' + |after| < RoundsIn(mode, dead, before, p, s)
    {
      if exists l :: l in s && Conflict(mode, before, l) {
        var l :| l in s && Conflict(mode, before, l);
        assert !Conflict(mode, after, l);
      }
    }

    /** After a refusal on leaf l of s, the next round costs a session, or ends in a panic. */
    static lemma RefusalCosts(mode: Mode, limit: nat, dead: set<Lock>, before: multiset<(Lock, Mode)>, p: nat,
                              dead': set<Lock>, after: multiset<(Lock, Mode)>, p': nat, s: seq<Lock>, l: Lock)
      requires Eases(mode, before, p, after, p') && dead <= dead' && l in s && p + |before| <= limit
      requires l in dead || Conflict(mode, before, l) || p + |before| < limit
      ensures RoundsIn(mode, dead', after, p', s) <= limit
    {
      if l in dead' {
        assert l in Elems(s);
      } else if Conflict(mode, after, l) {
        SessionCounts(mode, after, l);
      }
    }

    static lemma SessionCounts(mode: Mode, sessions: multiset<(Lock, Mode)>, l: Lock)
      requires Conflict(mode, sessions, l)
      ensures |sessions| > 0
    {
      assert (l, Write) in sessions || (l, Read) in sessions;
    }

    /** The panic cleanup of a trial of element i: exact, except that the element just before i stays
        taken if the element blocked on comes earlier still. */
    method CleanUpTrial(locks: seq<Ptr>, first: nat, i: nat, locked: nat, ghost start: View)
      requires Valid() && Sound(LeavesOf(locks)) && first < |locks| && i < |locks| && i != first
      requires locked == Counted(first, i)
      requires mine == start.mine + multiset(GivenBack(locks, first, i)) && strays == start.strays
      modifies this
      ensures Valid() && Eased() && old(killed) <= killed && strays == start.strays
      ensures mine == start.mine + Missed(locks, first, i) && own == old(own)
      ensures trace == old(trace) + Rels(GivenBack(locks, first, locked))
    {
      ghost var before := Now();
      GiveBackFrom(locks, first, locked);
      CleanedUp(locks, first, i, locked, start, before, Now());
    }

    /** The panic cleanup of a blocking call: it unlocks the element that was never acquired. */
    method CleanUpBlock(locks: seq<Ptr>, first: nat)
      requires Valid() && NoDup(LeavesOf(locks)) && Sound(LeavesOf(locks)) && first < |locks|
      requires forall l | l in LeavesOf(locks) :: l !in mine
      modifies this
      ensures Valid() && Eased() && old(killed) <= killed
      ensures mine == old(mine) && strays == old(strays) + multiset(Leaves(locks[first])) && own == old(own)
      ensures trace == old(trace) + Rels(Leaves(locks[first]))
    {
      Cut(locks, first);
      GiveBackFrom(locks, first, 0);
      assert locks[..0] == [] && GivenBack(locks, first, 0) == Leaves(locks[first]);
      Absent(old(mine), Leaves(locks[first]));
    }

    lemma Absent(m: multiset<Lock>, s: seq<Lock>)
      requires forall l | l in s :: l !in m
      ensures m - multiset(s) == m && multiset(s) - m == multiset(s)
    {
      forall l ensures (m - multiset(s))[l] == m[l] { assert l in multiset(s) <==> l in s; }
      forall l ensures (multiset(s) - m)[l] == multiset(s)[l] { assert l in multiset(s) <==> l in s; }
    }

    /** The blocking call of a round, with its panic cleanup. Getting through it costs the session that
        was in the way, if there was one. */
    method BlockOn(locks: seq<Ptr>, first: nat, ghost start: View, ghost calls: seq<Event>)
      returns (o: Outcome, ghost p: nat, ghost calls': seq<Event>)
      requires Valid() && Ready(LeavesOf(locks)) && first < |locks| && BlocksNext(locks, start, Now(), calls, first)
      modifies this
      ensures Valid() && Eased() && old(killed) <= killed
      ensures o.Normal? ==> RoundAt(locks, start, calls', first, 0) && Fuel() < old(Rounds(locks[first]))
      ensures o.Normal? ==> Elems(Leaves(locks[first])) !! old(killed) && own == old(own)
      ensures o.Panicked? ==> LeftBehind(locks, start, Now(), AtBlock(first), p, calls')
                              && KilledOnly(Leaves(locks[first])[p])
    {
      ghost var before := Now();
      ghost var dead, sessions, left := killed, foreign, patience;
      Around(locks, first);
      ghost var order;
      o, p, order := RawLock(locks[first]);
      if o.Panicked? {
        ghost var stopped := Now();
        CleanUpBlock(locks, first);
        BlockPanicRuns(locks, start, before, stopped, Now(), calls, first, p, order);
        calls' := calls + Acqs(Leaves(locks[first])[..p]);
      } else {
        TookHolds(before, Now(), Leaves(locks[first]));
        BlockingCosts(mode, dead, sessions, left, foreign, patience, Leaves(locks[first]));
        RoundStarts(locks, start, before, Now(), calls, first);
        calls' := calls + Acqs(Leaves(locks[first]));
      }
    }

    /** The ordinary rollback after a refusal in element i: the next round blocks on element i, and costs
        a session or ends in a panic. */
    method RollBack(locks: seq<Ptr>, first: nat, i: nat, ghost start: View, ghost before: View, ghost calls: seq<Event>,
                    ghost q: nat, ghost inner: seq<Lock>, ghost limit: nat)
      returns (ghost calls': seq<Event>)
      requires Valid() && NoDup(LeavesOf(locks)) && Sound(LeavesOf(locks))
      requires first < |locks| && i < |locks| && i != first && AtRound(locks, start, before, calls, first, i)
      requires Refused(before, Now(), Leaves(locks[i]), q, inner)
      requires Fuel() <= limit && (!Open(Leaves(locks[i])[q]) || Fuel() < limit)
      modifies this
      ensures Valid() && Eased() && old(killed) <= killed
      ensures BlocksNext(locks, start, Now(), calls', i) && Rounds(locks[i]) <= limit
      ensures own == old(own) && (quiet ==> foreign == old(foreign) && killed == old(killed))
    {
      ghost var refused := Now();
      ghost var dead, sessions, left := killed, foreign, patience;
      assert multiset(GivenBack(locks, first, i)) <= mine;
      GiveBackFrom(locks, first, i);
      calls' := RoundRollsBack(locks, start, before, refused, Now(), calls, first, i, q, inner);
      RefusalCosts(mode, limit, dead, sessions, left, killed, foreign, patience, Leaves(locks[i]), Leaves(locks[i])[q]);
    }

    /** A panic in the trial of element i: the cleanup, and what it leaves behind. */
    method AbandonTrial(locks: seq<Ptr>, first: nat, i: nat, locked: nat, ghost start: View, ghost before: View,
                        ghost calls: seq<Event>, ghost q: nat, ghost inner: seq<Lock>)
      returns (ghost calls': seq<Event>)
      requires Valid() && Sound(LeavesOf(locks)) && first < |locks| && i < |locks| && i != first
      requires locked == Counted(first, i) && AtRound(locks, start, before, calls, first, i)
      requires Stopped(TrialPanic, before, Now(), Leaves(locks[i]), q, inner)
      modifies this
      ensures Valid() && Eased() && old(killed) <= killed
      ensures LeftBehind(locks, start, Now(), AtTrial(first, i), q, calls') && own == old(own)
    {
      ghost var stopped := Now();
      CleanUpTrial(locks, first, i, locked, start);
      TrialPanicRuns(locks, start, before, stopped, Now(), calls, first, i, q, inner, GivenBack(locks, first, locked));
      calls' := calls + Trues(Leaves(locks[i])[..q]);
    }

    /** One turn of the outer loop: it gets everything, or is back at a blocking call with less fuel, or
        panics. */
    method Round(locks: seq<Ptr>, first: nat, ghost start: View, ghost calls: seq<Event>)
      returns (o: Attempt, site: Site, next: nat, ghost p: nat, ghost calls': seq<Event>)
      requires Valid() && Ready(LeavesOf(locks)) && first < |locks| && BlocksNext(locks, start, Now(), calls, first)
      modifies this
      ensures Valid() && Eased() && old(killed) <= killed
      ensures o.Locked? ==> GotAll(locks, start, Now(), calls') && old(Rounds(locks[first])) > 0
      ensures o.Locked? ==> Elems(LeavesOf(locks)) !! old(killed)
      ensures o.WouldBlock? ==> next < |locks| && BlocksNext(locks, start, Now(), calls', next)
                                && Rounds(locks[next]) < old(Rounds(locks[first]))
      ensures o.Unwound? ==> LeftBehind(locks, start, Now(), site, p, calls')
                             && KilledOnly(Leaves(locks[Element(site)])[p])
      ensures !o.Unwound? ==> own == old(own)
    {
      next, site := first, AtBlock(first);
      var r: Outcome;
      r, p, calls' := BlockOn(locks, first, start, calls);
      if r.Panicked? {
        return Unwound, site, next, p, calls';
      }
      ghost var limit := Fuel();
      var i, locked;
      ghost var before, inner;
      o, i, locked, before, calls', p, inner := TryOthers(locks, first, start, calls');
      if o.Locked? {
        RoundEnds(locks, start, Now(), calls', first);
        AllAlive(old(killed), LeavesOf(locks), Leaves(locks[first]));
      } else if o.Unwound? {
        calls' := AbandonTrial(locks, first, i, locked, start, before, calls', p, inner);
        site := AtTrial(first, i);
      } else {
        calls' := RollBack(locks, first, i, start, before, calls', p, inner, limit);
        next := i;
      }
    }

    /** `raw_write` / `raw_read` of a retrying collection. */
    method RetryLock(locks: seq<Ptr>)
      returns (o: Outcome, site: Site, ghost p: nat, ghost calls: seq<Event>, ghost rollbacks: nat)
      requires Valid() && Ready(LeavesOf(locks))
      modifies this
      ensures Valid() && Eased() && old(killed) <= killed
      ensures o.Normal? ==> GotAll(locks, old(Now()), Now(), calls) && Elems(LeavesOf(locks)) !! old(killed)
      ensures o.Panicked? ==> LeftBehind(locks, old(Now()), Now(), site, p, calls)
                              && KilledOnly(Leaves(locks[Element(site)])[p])
      ensures o.Normal? ==> own == old(own)
      ensures rollbacks <= old(Fuel()) + if o.Panicked? then 1 else 0
    {
      hide Reached, GotAll, RanUntil, Leaves, LeavesOf, NoDup;
      site, p, calls, rollbacks := AtBlock(0), 0, [], 0;
      if |locks| == 0 {
        NothingToGet(locks, Now());
        return Normal, site, p, calls, rollbacks;
      }
      ghost var start := Now();
      var first: nat := 0;
      RoundsBegin(locks, start);
      while true
        invariant first < |locks| && BlocksNext(locks, start, Now(), calls, first)
        invariant Valid() && Eased() && old(killed) <= killed
        invariant own == old(own)
        invariant rollbacks + Rounds(locks[first]) <= 1 + old(Fuel())
        decreases Rounds(locks[first])
      {
        var r;
        r, site, first, p, calls := Round(locks, first, start, calls);
        if r.Locked? {
          return Normal, site, p, calls, rollbacks;
        }
        if r.Unwound? {
          return Panicked, site, p, calls, rollbacks;
        }
        rollbacks := rollbacks + 1;
      }
    }
  }

  lemma NothingToGet(locks: seq<Ptr>, start: View)
    requires locks == []
    ensures GotAll(locks, start, start, [])
  {
    assert start.trace + [] == start.trace;
  }

  lemma RoundsBegin(locks: seq<Ptr>, start: View)
    requires locks != []
    ensures BlocksNext(locks, start, start, [], 0)
  {
    assert start.trace + [] == start.trace;
  }
}
