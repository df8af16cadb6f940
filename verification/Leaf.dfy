/** The two leaf locks: a raw lock that may panic, and the flag that kills the leaf when it does. */
module Leaf {
  import opened Locks

  datatype Call =
    | Acquire(who: Tid, m: Mode)
    | TryAcquire(who: Tid, m: Mode)
    | Unlock(who: Tid, m: Mode)
    | Kill

  datatype Answer = Done | Yes | No | Panic

  /** A raw lock as `lock_api` has it. It counts the calls made on it. */
  class RawRw {
    var held: Hold
    ghost var calls: nat

    constructor ()
      ensures held == Free && calls == 0
    {
      held, calls := Free, 0;
    }

    /** Blocks while other threads come and go, until the lock can be taken; may panic instead. */
    method Lock(t: Tid, m: Mode) returns (panics: bool)
      modifies this
      ensures calls == old(calls) + 1
      ensures !panics ==> exists h :: CanTake(h, m) && held == Take(h, t, m)
    {
      calls := calls + 1;
      var broken: bool := *;
      if broken {
        return true;
      }
      var left: Hold := *;
      held := if CanTake(left, m) then left else Free;
      held := Take(held, t, m);
      return false;
    }

    method TryLock(t: Tid, m: Mode) returns (panics: bool, ok: bool)
      modifies this
      ensures calls == old(calls) + 1
      ensures !panics ==> ok == CanTake(old(held), m) && held == if ok then Take(old(held), t, m) else old(held)
      ensures panics ==> held == old(held)
    {
      calls := calls + 1;
      panics := *;
      ok := !panics && CanTake(held, m);
      if ok {
        held := Take(held, t, m);
      }
    }

    method Unlock(t: Tid, m: Mode) returns (panics: bool)
      modifies this
      ensures calls == old(calls) + 1
      ensures held == if panics then old(held) else Drop(old(held), t, m)
    {
      calls := calls + 1;
      panics := *;
      if !panics {
        held := Drop(held, t, m);
      }
    }
  }

  /** What a leaf answers: a killed leaf refuses every new request without a call on its raw lock; a
      raw call that panics kills the leaf; an answer is given only after a call on the raw lock. */
  ghost predicate Answers(killed: bool, held: Hold, calls: nat, c: Call, a: Answer,
                          killed': bool, held': Hold, calls': nat)
  {
    && (killed ==> killed')
    && match c
       case Kill => a.Done? && killed' && held' == held && calls' == calls
       case Acquire(t, m) =>
         if killed then a.Panic? && held' == held && calls' == calls
         else
           && calls' == calls + 1 && (a.Done? || a.Panic?) && (a.Panic? <==> killed')
           && (a.Done? ==> exists h :: CanTake(h, m) && held' == Take(h, t, m))
       case TryAcquire(t, m) =>
         if killed then a.No? && held' == held && calls' == calls
         else
           && calls' == calls + 1 && !a.Done? && (a.Panic? <==> killed')
           && (!a.Panic? ==> (a.Yes? <==> CanTake(held, m)))
           && held' == if a.Yes? && CanTake(held, m) then Take(held, t, m) else held
       case Unlock(t, m) =>
         && calls' == calls + 1 && (a.Done? || a.Panic?)
         && (a.Panic? ==> killed' && held' == held)
         && (a.Done? ==> killed' == killed && held' == Drop(held, t, m))
  }

  /** A mutex or a reader/writer lock. A mutex has one way to be held: it treats a read as a write. */
  class LeafLock {
    const exclusive: bool
    const raw: RawRw
    var killed: bool

    constructor (exclusive: bool)
      ensures this.exclusive == exclusive && !killed && fresh(raw) && raw.held == Free && raw.calls == 0
    {
      this.exclusive, killed := exclusive, false;
      raw := new RawRw();
    }

    function AsHeld(m: Mode): Mode {
      if exclusive then Write else m
    }

    /** `poison` of `RawLock` */
    method Kill()
      modifies this
      ensures killed
    {
      killed := true;
    }

    /** A write, and any request of a mutex, takes the lock alone; a read of a reader/writer lock shares it. */
    method RawLock(t: Tid, m: Mode) returns (a: Answer)
      modifies this, raw
      ensures a.Done? && (exclusive || m.Write?) ==> raw.held == Writer(t)
      ensures a.Done? && !exclusive && m.Read? ==> raw.held.Readers? && t in raw.held.who
      ensures Answers(old(killed), old(raw.held), old(raw.calls), Acquire(t, AsHeld(m)), a, killed, raw.held, raw.calls)
    {
      if killed {
        return Panic;
      }
      var panics := raw.Lock(t, AsHeld(m));
      if panics {
        Kill();
        return Panic;
      }
      return Done;
    }

    method RawTryLock(t: Tid, m: Mode) returns (a: Answer)
      modifies this, raw
      ensures a.Yes? && (exclusive || m.Write?) ==> old(raw.held).Free? && raw.held == Writer(t)
      ensures a.Yes? && !exclusive && m.Read? ==> !old(raw.held).Writer? && raw.held.Readers? && t in raw.held.who
      ensures !exclusive && m.Read? && !old(raw.held).Writer? && !old(killed) ==> !a.No?
      ensures old(raw.held).Free? && !old(killed) ==> !a.No?
      ensures exclusive && !old(raw.held).Free? ==> !a.Yes?
      ensures Answers(old(killed), old(raw.held), old(raw.calls), TryAcquire(t, AsHeld(m)), a,
                      killed, raw.held, raw.calls)
    {
      if killed {
        return No;
      }
      var panics, ok := raw.TryLock(t, AsHeld(m));
      if panics {
        Kill();
        return Panic;
      }
      return if ok then Yes else No;
    }

    method RawUnlock(t: Tid, m: Mode) returns (a: Answer)
      modifies this, raw
      ensures Answers(old(killed), old(raw.held), old(raw.calls), Unlock(t, AsHeld(m)), a, killed, raw.held, raw.calls)
    {
      var panics := raw.Unlock(t, AsHeld(m));
      if panics {
        Kill();
        return Panic;
      }
      return Done;
    }

    /** An unlock in the mode of the acquire undoes it, and leaves other readers where they were. */
    method TryAndUnlock(t: Tid, m: Mode) returns (a: Answer, b: Answer)
      requires raw.held != Readers(multiset{})
      modifies this, raw
      ensures a.Yes? && b.Done? ==> raw.held == old(raw.held)
      ensures a.Yes? && b.Panic? && !exclusive && m.Read? ==> raw.held.Readers? && t in raw.held.who
      ensures a.No? || (a.Panic? && !old(killed)) ==> raw.held == old(raw.held) && b == No
    {
      a := RawTryLock(t, m);
      b := No;
      if a.Yes? {
        ghost var before := old(raw.held);
        if before.Readers? {
          assert before.who + multiset{t} - multiset{t} == before.who;
        }
        b := RawUnlock(t, m);
      }
    }

    /** Any calls, one after the other. Killed is for good: once a raw call has panicked, or the leaf was
        killed, every later request is refused, and refused requests never reach the raw lock. */
    method Serve(calls: seq<Call>) returns (answers: seq<Answer>)
      modifies this, raw
      ensures |answers| == |calls|
      ensures forall i | 0 <= i < |calls| :: old(killed) || Kills(calls, answers, i) ==> Refuses(calls, answers, i)
      ensures old(killed) ==> killed && raw.calls == old(raw.calls) + Unlocks(calls)
    {
      answers := [];
      assert calls[..0] == [];
      for i := 0 to |calls|
        invariant |answers| == i
        invariant old(killed) ==> killed && raw.calls == old(raw.calls) + Unlocks(calls[..i])
        invariant Kills(calls, answers, i) ==> killed
        invariant forall j | 0 <= j < i :: old(killed) || Kills(calls, answers, j) ==> Refuses(calls, answers, j)
      {
        var a: Answer;
        match calls[i] {
          case Acquire(t, m) => a := RawLock(t, m);
          case TryAcquire(t, m) => a := RawTryLock(t, m);
          case Unlock(t, m) => a := RawUnlock(t, m);
          case Kill => Kill(); a := Done;
        }
        ghost var before := answers;
        answers := answers + [a];
        forall j | 0 <= j <= i ensures Kills(calls, answers, j) == Kills(calls, before, j) {
          KillsStable(calls, before, a, j);
        }
        assert calls[..i + 1][..i] == calls[..i];
      }
      assert calls[..|calls|] == calls;
    }

    static function Unlocks(calls: seq<Call>): nat {
      if calls == [] then 0
      else Unlocks(calls[..|calls| - 1]) + if calls[|calls| - 1].Unlock? then 1 else 0
    }

    /** One of the first i calls killed the leaf. */
    static predicate Kills(calls: seq<Call>, answers: seq<Answer>, i: nat)
      requires i <= |calls| && i <= |answers|
    {
      exists j | 0 <= j < i :: calls[j].Kill? || answers[j].Panic?
    }

    static lemma KillsStable(calls: seq<Call>, answers: seq<Answer>, a: Answer, i: nat)
      requires i <= |calls| && i <= |answers|
      ensures Kills(calls, answers + [a], i) == Kills(calls, answers, i)
    {
      forall j | 0 <= j < i ensures (answers + [a])[j] == answers[j] {}
      assert Kills(calls, answers, i) ==> Kills(calls, answers + [a], i);
    }

    static predicate Refuses(calls: seq<Call>, answers: seq<Answer>, i: nat)
      requires i < |calls| && i < |answers|
    {
      && (calls[i].Acquire? ==> answers[i].Panic?)
      && (calls[i].TryAcquire? ==> answers[i].No?)
    }
  }
}
