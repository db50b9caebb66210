/**
 * One thread on its own: with every other thread out of the lock, a read and an upgrade go
 * through, and an upgrade leaves the value its `mut_func` wrote.
 */
module DeviceLockSolo {
  import opened Prelude
  import opened DeviceLock

  /** One thread's steps, taken without interruption. */
  function Alone(s: State, t: nat, acts: seq<Act>): State
    decreases |acts|
  {
    if acts == [] then s else Alone(Step(s, t, acts[0]), t, acts[1..])
  }

  function Moves(t: nat, acts: seq<Act>): seq<Move> {
    if acts == [] then [] else [Move(t, acts[0])] + Moves(t, acts[1..])
  }

  lemma {:induction false} ExecFirst(s: State, first: Move, rest: seq<Move>)
    ensures Exec(s, [first] + rest) == Exec(Step(s, first.thread, first.act), rest)
    decreases |rest|
  {
    var moves := [first] + rest;
    if rest == [] {
      assert moves[..|moves| - 1] == [];
    } else {
      assert moves[..|moves| - 1] == [first] + rest[..|rest| - 1];
      ExecFirst(s, first, rest[..|rest| - 1]);
    }
  }

  lemma {:induction false} AloneIsASchedule(s: State, t: nat, acts: seq<Act>)
    ensures Alone(s, t, acts) == Exec(s, Moves(t, acts))
    decreases |acts|
  {
    if acts != [] {
      AloneIsASchedule(Step(s, t, acts[0]), t, acts[1..]);
      ExecFirst(s, Move(t, acts[0]), Moves(t, acts[1..]));
    }
  }

  lemma {:induction false} AloneConcat(s: State, t: nat, a: seq<Act>, b: seq<Act>)
    ensures Alone(s, t, a + b) == Alone(Alone(s, t, a), t, b)
    decreases |a|
  {
    if a == [] {
      assert a + b == b;
    } else {
      assert (a + b)[1..] == a[1..] + b;
      AloneConcat(Step(s, t, a[0]), t, a[1..], b);
    }
  }

  /** Thread `t` stands at `pc` with every other thread out, and this is all there is to the lock. */
  ghost predicate Stands(s: State, t: nat, pc: Pc, wantsWrite: bool, locked: bool, value: int) {
    && t < |s.threads| && s.threads[t].pc == pc
    && (forall u :: 0 <= u < |s.threads| && u != t ==> s.threads[u].pc.Out?)
    && s.wantsWrite == wantsWrite && s.mutex == (if locked then Some(t) else None) && s.value == value
  }

  lemma Enters(s: State, t: nat, v: int)
    requires Stands(s, t, Guard, false, false, v)
    ensures Stands(Alone(s, t, [CallUpgrade, Advance, Advance]), t, UpCheck, false, true, v)
  {
    var a := Step(s, t, CallUpgrade);
    assert Stands(a, t, UpLock, false, false, v);
    var b := Step(a, t, Advance);
    assert Stands(b, t, UpYield, false, true, v);
    Three(s, t, CallUpgrade, Advance, Advance);
  }

  lemma Raises(s: State, t: nat, v: int)
    requires Stands(s, t, UpCheck, false, true, v)
    ensures Stands(Alone(s, t, [Advance, Advance, Advance]), t, UpPrep(v), true, false, v)
  {
    var a := Step(s, t, Advance);
    assert Stands(a, t, UpRaised, true, true, v);
    var b := Step(a, t, Advance);
    assert Stands(b, t, UpReread, true, false, v);
    Three(s, t, Advance, Advance, Advance);
  }

  lemma Prepares(s: State, t: nat, v: int)
    requires Stands(s, t, UpPrep(v), true, false, v)
    ensures Stands(Alone(s, t, [FinishPrep(false), Advance, Advance]), t, UpEnter(v), true, false, v)
  {
    var a := Step(s, t, FinishPrep(false));
    assert Stands(a, t, UpRelease(v), true, false, v);
    var b := Step(a, t, Advance);
    assert Stands(b, t, UpWrite(v), true, false, v);
    Three(s, t, FinishPrep(false), Advance, Advance);
  }

  lemma Writes(s: State, t: nat, v: int, to: int, panics: bool)
    requires Stands(s, t, UpEnter(v), true, false, v)
    ensures Stands(Alone(s, t, [Mutate(to), FinishMut(panics), Advance]), t, UpLower, true, false, to)
  {
    var a := Step(s, t, Mutate(to));
    assert Stands(a, t, UpMut, true, false, to);
    var b := Step(a, t, FinishMut(panics));
    assert Stands(b, t, UpRegain, true, false, to);
    Three(s, t, Mutate(to), FinishMut(panics), Advance);
  }

  lemma Lowers(s: State, t: nat, v: int)
    requires Stands(s, t, UpLower, true, false, v)
    ensures Stands(Alone(s, t, [Advance, Advance, Advance]), t, Guard, false, false, v)
  {
    var a := Step(s, t, Advance);
    assert Stands(a, t, UpStore, true, true, v);
    var b := Step(a, t, Advance);
    assert Stands(b, t, UpNotify, false, true, v);
    Three(s, t, Advance, Advance, Advance);
  }

  lemma Three(s: State, t: nat, a: Act, b: Act, c: Act)
    ensures Alone(s, t, [a, b, c]) == Step(Step(Step(s, t, a), t, b), t, c)
  {
    assert [a, b, c][1..] == [b, c] && [b, c][1..] == [c] && [c][1..] == [];
    var u := Step(s, t, a);
    assert Alone(Step(u, t, b), t, [c]) == Step(Step(u, t, b), t, c);
    assert Alone(u, t, [b, c]) == Alone(Step(u, t, b), t, [c]);
  }

  const READING: seq<Act> := [CallRead, Advance, Advance] + [Advance, Advance, DropGuard]

  lemma Locks(s: State, t: nat, v: int)
    requires Stands(s, t, Out, false, false, v)
    ensures Stands(Alone(s, t, [CallRead, Advance, Advance]), t, ReadTake, false, true, v)
  {
    var a := Step(s, t, CallRead);
    assert Stands(a, t, ReadLock, false, false, v);
    var b := Step(a, t, Advance);
    assert Stands(b, t, ReadCheck, false, true, v);
    Three(s, t, CallRead, Advance, Advance);
  }

  lemma Reads(s: State, t: nat, v: int)
    requires Stands(s, t, ReadTake, false, true, v)
    ensures Stands(Step(Step(s, t, Advance), t, Advance), t, Guard, false, false, v)
    ensures Stands(Alone(s, t, [Advance, Advance, DropGuard]), t, Out, false, false, v)
  {
    var a := Step(s, t, Advance);
    assert Stands(a, t, ReadDone, false, true, v);
    Three(s, t, Advance, Advance, DropGuard);
  }

  /** From an empty lock, a read runs through to a guard, and dropping that empties the lock again. */
  lemma ReadAlone(s: State, t: nat)
    requires Stands(s, t, Out, false, false, s.value)
    ensures Stands(Exec(s, Moves(t, READING[..5])), t, Guard, false, false, s.value)
    ensures Stands(Exec(s, Moves(t, READING)), t, Out, false, false, s.value)
  {
    Locks(s, t, s.value);
    var locked := Alone(s, t, [CallRead, Advance, Advance]);
    Reads(locked, t, s.value);
    AloneConcat(s, t, [CallRead, Advance, Advance], [Advance, Advance, DropGuard]);
    AloneIsASchedule(s, t, READING);
    assert READING[..5] == [CallRead, Advance, Advance] + [Advance, Advance];
    AloneConcat(s, t, [CallRead, Advance, Advance], [Advance, Advance]);
    Two(locked, t, Advance, Advance);
    AloneIsASchedule(s, t, READING[..5]);
  }

  lemma Two(s: State, t: nat, a: Act, b: Act)
    ensures Alone(s, t, [a, b]) == Step(Step(s, t, a), t, b)
  {
    assert [a, b][1..] == [b] && [b][1..] == [];
    assert Alone(Step(s, t, a), t, [b]) == Step(Step(s, t, a), t, b);
  }

  const RAISING: seq<Act> := [CallUpgrade, Advance, Advance] + [Advance, Advance, Advance]
  const LOWERING: seq<Act> := [Advance, Advance, Advance]

  function Mutating(to: int, panics: bool): seq<Act> {
    [FinishPrep(false), Advance, Advance] + [Mutate(to), FinishMut(panics), Advance]
  }

  /**
   * From any state in which one thread holds a guard and the others are out, its upgrade runs
   * through to the guard again, and the value is what its `mut_func` wrote, whether that then
   * returned or panicked.
   */
  lemma UpgradeAlone(s: State, t: nat, to: int, panics: bool)
    requires Stands(s, t, Guard, false, false, s.value)
    ensures Stands(Exec(s, Moves(t, RAISING + Mutating(to, panics) + LOWERING)), t, Guard, false, false, to)
  {
    var v := s.value;
    Enters(s, t, v);
    var entered := Alone(s, t, [CallUpgrade, Advance, Advance]);
    Raises(entered, t, v);
    AloneConcat(s, t, [CallUpgrade, Advance, Advance], [Advance, Advance, Advance]);
    var raised := Alone(s, t, RAISING);
    Prepares(raised, t, v);
    var inside := Alone(raised, t, [FinishPrep(false), Advance, Advance]);
    Writes(inside, t, v, to, panics);
    AloneConcat(raised, t, [FinishPrep(false), Advance, Advance], [Mutate(to), FinishMut(panics), Advance]);
    AloneConcat(s, t, RAISING, Mutating(to, panics));
    Lowers(Alone(raised, t, Mutating(to, panics)), t, to);
    AloneConcat(s, t, RAISING + Mutating(to, panics), LOWERING);
    AloneIsASchedule(s, t, RAISING + Mutating(to, panics) + LOWERING);
  }

  /** An upgrade whose `prep_func` panics ends with the guard and the value it began with. */
  lemma PanickedPrepAlone(s: State, t: nat)
    requires Stands(s, t, Guard, false, false, s.value)
    ensures Stands(Exec(s, Moves(t, RAISING + [FinishPrep(true)] + LOWERING)), t, Guard, false, false, s.value)
  {
    var v := s.value;
    Enters(s, t, v);
    Raises(Alone(s, t, [CallUpgrade, Advance, Advance]), t, v);
    AloneConcat(s, t, [CallUpgrade, Advance, Advance], [Advance, Advance, Advance]);
    var raised := Alone(s, t, RAISING);
    assert [FinishPrep(true)][1..] == [];
    var panicked := Alone(raised, t, [FinishPrep(true)]);
    assert panicked == Step(raised, t, FinishPrep(true));
    AloneConcat(s, t, RAISING, [FinishPrep(true)]);
    Lowers(panicked, t, v);
    AloneConcat(s, t, RAISING + [FinishPrep(true)], LOWERING);
    AloneIsASchedule(s, t, RAISING + [FinishPrep(true)] + LOWERING);
  }
}
