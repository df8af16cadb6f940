/** Leaf locks as the rest of the project sees them: a lock is taken by one writer, or shared by
    readers, and it refuses a request only because of incompatible holders. */
module Locks {
  type Tid = nat
  type Lock = nat

  datatype Mode = Read | Write

  /** The raw state of one leaf lock. Readers are counted, as a reader/writer lock counts them. */
  datatype Hold = Free | Writer(owner: Tid) | Readers(who: multiset<Tid>)

  /** Whether a request in this mode is granted at once. */
  predicate CanTake(h: Hold, m: Mode) {
    h.Free? || (m.Read? && h.Readers?)
  }

  function Take(h: Hold, t: Tid, m: Mode): Hold
    requires CanTake(h, m)
  {
    match m
    case Write => Writer(t)
    case Read => if h.Free? then Readers(multiset{t}) else Readers(h.who + multiset{t})
  }

  /** What an unlock does to the raw lock; an exclusive unlock frees it, a shared one removes a reader. */
  function Drop(h: Hold, t: Tid, m: Mode): Hold {
    match m
    case Write => Free
    case Read =>
      if !h.Readers? then h
      else
        var left := h.who - multiset{t};
        if left == multiset{} then Free else Readers(left)
  }

  type Table = map<Lock, Hold>

  function HoldAt(table: Table, l: Lock): Hold {
    if l in table then table[l] else Free
  }

  function Elems<T>(s: seq<T>): set<T> {
    set x | x in s
  }

  ghost predicate NoDup<T>(s: seq<T>) {
    forall p, q :: 0 <= p < q < |s| ==> s[p] != s[q]
  }
}
