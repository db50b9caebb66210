/** What both event registries keep: a growing table of optional entries indexed by descriptor, and live guards. */
module SlotTable {
  import opened Prelude

  function At<T>(slots: seq<Option<T>>, i: nat): Option<T> { if i < |slots| then slots[i] else None }

  /** Empty entries are pushed until the index is inside. */
  function Grow<T>(slots: seq<Option<T>>, i: nat): (r: seq<Option<T>>)
    ensures |r| > i
    decreases i + 1 - |slots|
  {
    if |slots| <= i then Grow(slots + [None], i) else slots
  }

  /** Growing changes no entry, present or absent. */
  lemma {:induction false} GrowKeepsSlots<T>(slots: seq<Option<T>>, i: nat, other: nat)
    ensures At(Grow(slots, i), other) == At(slots, other)
    decreases i + 1 - |slots|
  {
    if |slots| <= i {
      GrowKeepsSlots(slots + [None], i, other);
    }
  }

  /** A live guard borrows the handler it was made for, wherever that handler is by now. */
  datatype Guard = Guard(fd: nat, handler: nat)

  /** No guard for the descriptor is live. */
  ghost predicate Free(guards: multiset<Guard>, fd: nat) { forall h: nat :: Guard(fd, h) !in guards }

  /** Every live guard for the descriptor holds this handler. */
  ghost predicate HeldBy(guards: multiset<Guard>, fd: nat, handler: nat) {
    forall h: nat :: Guard(fd, h) in guards ==> h == handler
  }

  lemma FewerGuards(before: multiset<Guard>, after: multiset<Guard>, fd: nat)
    requires after <= before
    ensures Free(before, fd) ==> Free(after, fd)
    ensures forall h: nat :: HeldBy(before, fd, h) ==> HeldBy(after, fd, h)
  {
    assert forall h: nat :: Guard(fd, h) in after ==> Guard(fd, h) in before;
  }
}
