/**
 * The device lock (boringtun/src/device/dev_lock.rs): a reader may upgrade to writer in two
 * stages, first raising an intent that keeps new readers out, then writing once the readers
 * it asked to yield are gone.
 *
 * Threads move one primitive at a time -- a mutex acquisition, a condvar park, a read or write
 * lock taken or released, a closure entered or left, normally or by panic -- in any order. A
 * thread holds at most one guard. The closures do not call back into the lock.
 */
module DeviceLock {
  import opened Prelude

  /** Where a thread stands. `Read*` is `Lock::read`, `Up*` is `try_writeable`. */
  datatype Pc =
    | Out                        // holds no guard, is in no call
    | ReadLock                   // waits for the mutex
    | ReadCheck                  // has the mutex, tests the intent
    | ReadParked                 // asleep on the condvar
    | ReadWoken                  // notified, waits for the mutex again
    | ReadTake                   // has the mutex, saw no intent, takes the read lock
    | ReadDone                   // has mutex and read lock, lets the mutex go
    | Guard                      // holds a guard
    | UpLock                     // holds the read lock, waits for the mutex
    | UpYield                    // has the mutex, gives the read lock back
    | UpCheck                    // has the mutex, tests the intent
    | UpParked
    | UpWoken
    | UpRaised                   // intent raised, lets the mutex go
    | UpReread                   // takes the read lock back
    | UpPrep(saw: int)           // runs prep_func on the value it saw
    | UpRelease(saw: int)        // gives the read lock back
    | UpWrite(saw: int)          // waits for the write lock
    | UpEnter(saw: int)          // has the write lock, about to run mut_func
    | UpMut                      // runs mut_func
    | UpRegain                   // write lock released, takes the read lock back
    | UpLower                    // holds the read lock, waits for the mutex to lower the intent
    | UpStore                    // has the mutex, clears the flag
    | UpNotify                   // has the mutex, flag cleared, wakes the waiters

  datatype Prep = Unfinished | Returned | Panicked

  /** One upgrade: how its `prep_func` ended, how often `mut_func` was entered, and what that wrote last. */
  datatype Upgrade = Upgrade(prep: Prep, entered: nat, wrote: Option<int>)

  const BEGUN: Upgrade := Upgrade(Unfinished, 0, None)

  /** A thread, with how often it has raised and lowered an intent, the upgrade it is in and those that are over. */
  datatype Thread = Thread(pc: Pc, raised: nat, lowered: nat, upgrade: Upgrade, past: seq<Upgrade>)

  datatype State = State(wantsWrite: bool, mutex: Option<nat>, value: int, threads: seq<Thread>)

  predicate HoldsMutex(pc: Pc) {
    pc.ReadCheck? || pc.ReadTake? || pc.ReadDone? || pc.UpYield? || pc.UpCheck?
    || pc.UpRaised? || pc.UpStore? || pc.UpNotify?
  }

  predicate HoldsRead(pc: Pc) {
    pc.ReadDone? || pc.Guard? || pc.UpLock? || pc.UpYield? || pc.UpPrep? || pc.UpRelease?
    || pc.UpLower? || pc.UpStore? || pc.UpNotify?
  }

  predicate HoldsWrite(pc: Pc) { pc.UpEnter? || pc.UpMut? }

  /** A thread asking for the write lock already bars new readers from it. */
  predicate BarsReaders(pc: Pc) { pc.UpWrite? || HoldsWrite(pc) }

  /** Between raising the intent and clearing the flag again. */
  predicate OwnsIntent(pc: Pc) {
    pc.UpRaised? || pc.UpReread? || pc.UpPrep? || pc.UpRelease? || pc.UpWrite? || pc.UpEnter?
    || pc.UpMut? || pc.UpRegain? || pc.UpLower? || pc.UpStore?
  }

  predicate Parked(pc: Pc) { pc.ReadParked? || pc.UpParked? }

  /** From the value `prep_func` is shown to the moment `mut_func` is entered. */
  predicate Remembers(pc: Pc) { pc.UpPrep? || pc.UpRelease? || pc.UpWrite? || pc.UpEnter? }

  /** What a thread does next; the payloads are the environment's choices. */
  datatype Act =
    | CallRead                   // Lock::read
    | CallUpgrade                // try_writeable
    | DropGuard
    | Advance                    // the one thing the lock code does next
    | FinishPrep(panics: bool)
    | Mutate(to: int)            // mut_func writes the value, possibly before a panic
    | FinishMut(panics: bool)

  function Wake(threads: seq<Thread>): (r: seq<Thread>)
    ensures |r| == |threads|
    ensures forall i :: 0 <= i < |r| ==>
              r[i] == if threads[i].pc.ReadParked? then threads[i].(pc := ReadWoken)
                      else if threads[i].pc.UpParked? then threads[i].(pc := UpWoken)
                      else threads[i]
  {
    seq(|threads|, i requires 0 <= i < |threads| =>
      if threads[i].pc.ReadParked? then threads[i].(pc := ReadWoken)
      else if threads[i].pc.UpParked? then threads[i].(pc := UpWoken)
      else threads[i])
  }

  predicate NoReaderButMe(s: State, t: nat) {
    forall u :: 0 <= u < |s.threads| && u != t ==> !HoldsRead(s.threads[u].pc)
  }

  /** The read lock can be taken at once: nobody has or awaits the write lock. */
  predicate ReadFree(s: State) {
    forall u :: 0 <= u < |s.threads| ==> !BarsReaders(s.threads[u].pc)
  }

  /** The write lock can be taken: no reader and no other writer. */
  predicate WriteFree(s: State, t: nat) {
    && NoReaderButMe(s, t)
    && forall u :: 0 <= u < |s.threads| && u != t ==> !HoldsWrite(s.threads[u].pc)
  }

  /** Whether thread `t` can take the step: what it waits for is available. */
  predicate Enabled(s: State, t: nat, act: Act)
    requires t < |s.threads|
  {
    var pc := s.threads[t].pc;
    match act
    case CallRead => pc.Out?
    case CallUpgrade => pc.Guard?
    case DropGuard => pc.Guard?
    case FinishPrep(_) => pc.UpPrep?
    case Mutate(_) => pc.UpEnter? || pc.UpMut?
    case FinishMut(_) => pc.UpEnter? || pc.UpMut?
    case Advance =>
      match pc
      case ReadLock | ReadWoken | UpLock | UpWoken | UpLower => s.mutex.None?
      case ReadTake | UpReread | UpRegain => ReadFree(s)
      case UpWrite(_) => WriteFree(s, t)
      case ReadCheck | ReadDone | UpYield | UpCheck | UpRaised | UpRelease(_) | UpStore | UpNotify => true
      case _ => false
  }

  function Goto(s: State, t: nat, pc: Pc): State
    requires t < |s.threads|
  {
    s.(threads := s.threads[t := s.threads[t].(pc := pc)])
  }

  function Lock(s: State, t: nat, pc: Pc): State
    requires t < |s.threads|
  {
    Goto(s, t, pc).(mutex := Some(t))
  }

  function Unlock(s: State, t: nat, pc: Pc): State
    requires t < |s.threads|
  {
    Goto(s, t, pc).(mutex := None)
  }

  function RaiseIntent(s: State, t: nat): State
    requires t < |s.threads|
  {
    var me := s.threads[t];
    s.(wantsWrite := true, threads := s.threads[t := Thread(UpRaised, me.raised + 1, me.lowered, BEGUN, me.past)])
  }

  function ClearFlag(s: State, t: nat): State
    requires t < |s.threads|
  {
    var me := s.threads[t];
    var past := me.past + [me.upgrade];
    s.(wantsWrite := false, threads := s.threads[t := Thread(UpNotify, me.raised, me.lowered + 1, me.upgrade, past)])
  }

  /** Go on, with the thread's upgrade brought up to date. */
  function Note(s: State, t: nat, pc: Pc, u: Upgrade): State
    requires t < |s.threads|
  {
    s.(threads := s.threads[t := s.threads[t].(pc := pc, upgrade := u)])
  }

  function AdvanceFrom(s: State, t: nat): State
    requires t < |s.threads|
  {
    match s.threads[t].pc
    case ReadLock => Lock(s, t, ReadCheck)
    case ReadWoken => Lock(s, t, ReadCheck)
    case ReadCheck => if s.wantsWrite then Unlock(s, t, ReadParked) else Goto(s, t, ReadTake)
    case ReadTake => Goto(s, t, ReadDone)
    case ReadDone => Unlock(s, t, Guard)
    case UpLock => Lock(s, t, UpYield)
    case UpYield => Goto(s, t, UpCheck)
    case UpWoken => Lock(s, t, UpCheck)
    case UpCheck => if s.wantsWrite then Unlock(s, t, UpParked) else RaiseIntent(s, t)
    case UpRaised => Unlock(s, t, UpReread)
    case UpReread => Goto(s, t, UpPrep(s.value))
    case UpRelease(saw) => Goto(s, t, UpWrite(saw))
    case UpWrite(saw) => Note(s, t, UpEnter(saw), s.threads[t].upgrade.(entered := s.threads[t].upgrade.entered + 1))
    case UpRegain => Goto(s, t, UpLower)
    case UpLower => Lock(s, t, UpStore)
    case UpStore => ClearFlag(s, t)
    case UpNotify => Unlock(s.(threads := Wake(s.threads)), t, Guard)
    case _ => s
  }

  /** The step; one that is not enabled changes nothing, so any list of steps is a schedule. */
  function Step(s: State, t: nat, act: Act): State {
    if t >= |s.threads| || !Enabled(s, t, act) then s
    else
      match act
      case CallRead => Goto(s, t, ReadLock)
      case CallUpgrade => Goto(s, t, UpLock)
      case DropGuard => Goto(s, t, Out)
      case Advance => AdvanceFrom(s, t)
      case FinishPrep(panics) =>
        if panics then Note(s, t, UpLower, s.threads[t].upgrade.(prep := Panicked))
        else Note(s, t, UpRelease(s.threads[t].pc.saw), s.threads[t].upgrade.(prep := Returned))
      case Mutate(to) => Note(s, t, UpMut, s.threads[t].upgrade.(wrote := Some(to))).(value := to)
      case FinishMut(_) => Goto(s, t, UpRegain)
  }

  datatype Move = Move(thread: nat, act: Act)

  function Exec(s: State, moves: seq<Move>): State
    decreases |moves|
  {
    if moves == [] then s
    else
      var last := moves[|moves| - 1];
      Step(Exec(s, moves[..|moves| - 1]), last.thread, last.act)
  }

  function Fresh(n: nat, value: int): State {
    State(false, None, value, seq(n, _ => Thread(Out, 0, 0, BEGUN, [])))
  }

  // ----- the invariant -----------------------------------------------------

  ghost predicate MutexInv(s: State) {
    && (s.mutex.Some? ==> s.mutex.value < |s.threads|)
    && forall t :: 0 <= t < |s.threads| ==> (HoldsMutex(s.threads[t].pc) <==> s.mutex == Some(t))
  }

  /** The flag is up exactly while one thread owns the intent. */
  ghost predicate IntentInv(s: State) {
    && (forall t, u :: 0 <= t < u < |s.threads| ==> !(OwnsIntent(s.threads[t].pc) && OwnsIntent(s.threads[u].pc)))
    && (s.wantsWrite <==> exists t :: 0 <= t < |s.threads| && OwnsIntent(s.threads[t].pc))
  }

  /** A thread past the intent test keeps the mutex, so the flag stays down for it. */
  ghost predicate ReaderInv(s: State) {
    forall t :: 0 <= t < |s.threads| && s.threads[t].pc.ReadTake? ==> !s.wantsWrite
  }

  ghost predicate Notifying(s: State) {
    exists t :: 0 <= t < |s.threads| && s.threads[t].pc.UpNotify?
  }

  /** Nobody sleeps once the flag is down, except under the very thread about to wake them all. */
  ghost predicate ParkedInv(s: State) {
    forall t :: 0 <= t < |s.threads| && Parked(s.threads[t].pc) ==> s.wantsWrite || Notifying(s)
  }

  ghost predicate WriterInv(s: State) {
    forall t :: 0 <= t < |s.threads| && HoldsWrite(s.threads[t].pc) ==> NoReaderButMe(s, t)
  }

  ghost predicate MemoryInv(s: State) {
    forall t :: 0 <= t < |s.threads| && Remembers(s.threads[t].pc) ==> s.threads[t].pc.saw == s.value
  }

  ghost predicate BalanceInv(s: State) {
    forall t :: 0 <= t < |s.threads| ==>
      s.threads[t].raised == s.threads[t].lowered + (if OwnsIntent(s.threads[t].pc) then 1 else 0)
  }

  /** An upgrade that is over: `mut_func` was entered once if `prep_func` returned, and not at all if it panicked. */
  predicate Over(u: Upgrade) {
    (u.prep.Returned? && u.entered == 1) || u == Upgrade(Panicked, 0, None)
  }

  /** Where an upgrade stands, by where its thread stands. */
  predicate Stage(pc: Pc, u: Upgrade) {
    if pc.UpRaised? || pc.UpReread? || pc.UpPrep? then u == BEGUN
    else if pc.UpRelease? || pc.UpWrite? then u == Upgrade(Returned, 0, None)
    else if pc.UpEnter? then u == Upgrade(Returned, 1, None)
    else if pc.UpMut? then u.prep.Returned? && u.entered == 1 && u.wrote.Some?
    else if pc.UpRegain? then u.prep.Returned? && u.entered == 1
    else Over(u)
  }

  ghost predicate ThreadCalls(me: Thread) {
    && |me.past| == me.lowered
    && (forall i :: 0 <= i < |me.past| ==> Over(me.past[i]))
    && (OwnsIntent(me.pc) ==> Stage(me.pc, me.upgrade))
  }

  ghost predicate CallsInv(s: State) {
    forall t :: 0 <= t < |s.threads| ==> ThreadCalls(s.threads[t])
  }

  /** What a thread's `mut_func` wrote, while the thread still owns the intent. */
  function Written(me: Thread): Option<int> { if OwnsIntent(me.pc) then me.upgrade.wrote else None }

  /** What `mut_func` wrote stays until its thread lowers the intent. */
  ghost predicate WroteInv(s: State) {
    forall t :: 0 <= t < |s.threads| ==> Written(s.threads[t]).None? || Written(s.threads[t]) == Some(s.value)
  }

  ghost predicate Inv(s: State) {
    && MutexInv(s)
    && IntentInv(s)
    && ReaderInv(s)
    && ParkedInv(s)
    && WriterInv(s)
    && MemoryInv(s)
    && BalanceInv(s)
    && CallsInv(s)
    && WroteInv(s)
  }

  lemma FreshInv(n: nat, value: int)
    ensures Inv(Fresh(n, value))
  {
  }

  // ----- preservation, clause by clause ------------------------------------

  lemma StepKeepsMutex(s: State, t: nat, act: Act)
    requires MutexInv(s) && t < |s.threads| && Enabled(s, t, act)
    ensures MutexInv(Step(s, t, act))
  {
    var pc := s.threads[t].pc;
    assert HoldsMutex(pc) <==> s.mutex == Some(t);
  }

  /** A step raises the intent where the flag was down, lowers it by its owner, or leaves both alone. */
  lemma IntentEffect(s: State, t: nat, act: Act)
    requires t < |s.threads| && Enabled(s, t, act)
    ensures var s' := Step(s, t, act);
            var before, after := OwnsIntent(s.threads[t].pc), OwnsIntent(s'.threads[t].pc);
            && |s'.threads| == |s.threads|
            && (forall u :: 0 <= u < |s.threads| && u != t ==>
                  OwnsIntent(s'.threads[u].pc) == OwnsIntent(s.threads[u].pc))
            && (before == after ==> s'.wantsWrite == s.wantsWrite)
            && (!before && after ==> !s.wantsWrite && s'.wantsWrite)
            && (before && !after ==> !s'.wantsWrite)
  {
  }

  lemma StepKeepsIntent(s: State, t: nat, act: Act)
    requires IntentInv(s) && t < |s.threads| && Enabled(s, t, act)
    ensures IntentInv(Step(s, t, act))
  {
    IntentEffect(s, t, act);
    IntentFollows(s, Step(s, t, act), t);
  }

  lemma IntentFollows(s: State, s': State, t: nat)
    requires IntentInv(s) && t < |s.threads| == |s'.threads|
    requires forall u :: 0 <= u < |s.threads| && u != t ==>
               OwnsIntent(s'.threads[u].pc) == OwnsIntent(s.threads[u].pc)
    requires OwnsIntent(s.threads[t].pc) == OwnsIntent(s'.threads[t].pc) ==> s'.wantsWrite == s.wantsWrite
    requires !OwnsIntent(s.threads[t].pc) && OwnsIntent(s'.threads[t].pc) ==> !s.wantsWrite && s'.wantsWrite
    requires OwnsIntent(s.threads[t].pc) && !OwnsIntent(s'.threads[t].pc) ==> !s'.wantsWrite
    ensures IntentInv(s')
  {
    if s'.wantsWrite && !OwnsIntent(s'.threads[t].pc) {
      var o :| 0 <= o < |s.threads| && OwnsIntent(s.threads[o].pc);
      assert OwnsIntent(s'.threads[o].pc);
    }
  }

  lemma StepKeepsReader(s: State, t: nat, act: Act)
    requires Inv(s) && t < |s.threads| && Enabled(s, t, act)
    ensures ReaderInv(Step(s, t, act))
  {
    var s' := Step(s, t, act);
    forall u | 0 <= u < |s'.threads| && s'.threads[u].pc.ReadTake? ensures !s'.wantsWrite {
      if u != t {
        assert s.threads[u].pc.ReadTake?;
        assert HoldsMutex(s.threads[u].pc);
      }
    }
  }

  lemma StepKeepsParked(s: State, t: nat, act: Act)
    requires Inv(s) && t < |s.threads| && Enabled(s, t, act)
    ensures ParkedInv(Step(s, t, act))
  {
    var s' := Step(s, t, act);
    forall u | 0 <= u < |s'.threads| && Parked(s'.threads[u].pc) ensures s'.wantsWrite || Notifying(s') {
      if u != t {
        assert Parked(s.threads[u].pc);
        if Notifying(s) {
          var n :| 0 <= n < |s.threads| && s.threads[n].pc.UpNotify?;
          assert n != t ==> s'.threads[n].pc.UpNotify?;
        }
        assert s'.threads[t].pc.UpNotify? ==> Notifying(s');
      }
    }
  }

  /** No thread can start reading while somebody owns the intent, other than the owner itself. */
  lemma StepKeepsWriter(s: State, t: nat, act: Act)
    requires Inv(s) && t < |s.threads| && Enabled(s, t, act)
    ensures WriterInv(Step(s, t, act))
  {
    var s' := Step(s, t, act);
    forall u | 0 <= u < |s'.threads| && HoldsWrite(s'.threads[u].pc) ensures NoReaderButMe(s', u) {
      if u != t {
        assert HoldsWrite(s.threads[u].pc) && OwnsIntent(s.threads[u].pc);
        assert !HoldsRead(s.threads[t].pc);
        assert !HoldsRead(s'.threads[t].pc);
      }
    }
  }

  lemma StepKeepsMemory(s: State, t: nat, act: Act)
    requires Inv(s) && t < |s.threads| && Enabled(s, t, act)
    ensures MemoryInv(Step(s, t, act))
  {
    var s' := Step(s, t, act);
    forall u | 0 <= u < |s'.threads| && Remembers(s'.threads[u].pc) ensures s'.threads[u].pc.saw == s'.value {
      if u != t {
        assert Remembers(s.threads[u].pc) && OwnsIntent(s.threads[u].pc);
      }
    }
  }

  lemma StepKeepsBalance(s: State, t: nat, act: Act)
    requires BalanceInv(s) && t < |s.threads| && Enabled(s, t, act)
    ensures BalanceInv(Step(s, t, act))
  {
  }

  /** A step leaves other threads' upgrades alone. */
  lemma OthersCalls(s: State, t: nat, act: Act, u: nat)
    requires t < |s.threads| && Enabled(s, t, act) && u < |s.threads| && u != t
    ensures var s' := Step(s, t, act);
            && |s'.threads| == |s.threads|
            && s'.threads[u] == s.threads[u].(pc := s'.threads[u].pc)
            && (s'.threads[u].pc == s.threads[u].pc || (!OwnsIntent(s.threads[u].pc) && !OwnsIntent(s'.threads[u].pc)))
  {
  }

  lemma AdvanceKeepsCalls(s: State, t: nat)
    requires t < |s.threads| && Enabled(s, t, Advance) && ThreadCalls(s.threads[t])
    ensures ThreadCalls(AdvanceFrom(s, t).threads[t])
  {
  }

  lemma StepKeepsCalls(s: State, t: nat, act: Act)
    requires CallsInv(s) && t < |s.threads| && Enabled(s, t, act)
    ensures CallsInv(Step(s, t, act))
  {
    var s' := Step(s, t, act);
    assert ThreadCalls(s.threads[t]);
    if act.Advance? {
      AdvanceKeepsCalls(s, t);
    }
    forall u | 0 <= u < |s'.threads| ensures ThreadCalls(s'.threads[u]) {
      if u != t {
        OthersCalls(s, t, act, u);
        assert ThreadCalls(s.threads[u]);
      }
    }
  }

  /** The value changes only by a step that records it as written. */
  lemma WritesAreRecorded(s: State, t: nat, act: Act)
    requires t < |s.threads| && Enabled(s, t, act) && ThreadCalls(s.threads[t])
    ensures var s' := Step(s, t, act);
            && |s'.threads| == |s.threads|
            && (s'.value == s.value ==> Written(s'.threads[t]).None? || Written(s'.threads[t]) == Written(s.threads[t]) || act.Mutate?)
            && (act.Mutate? ==> Written(s'.threads[t]) == Some(s'.value))
            && (s'.value != s.value ==> act.Mutate? && OwnsIntent(s.threads[t].pc))
  {
  }

  lemma StepKeepsWrote(s: State, t: nat, act: Act)
    requires Inv(s) && t < |s.threads| && Enabled(s, t, act)
    ensures WroteInv(Step(s, t, act))
  {
    var s' := Step(s, t, act);
    assert ThreadCalls(s.threads[t]);
    WritesAreRecorded(s, t, act);
    forall u | 0 <= u < |s'.threads| ensures Written(s'.threads[u]).None? || Written(s'.threads[u]) == Some(s'.value) {
      if u != t {
        OthersCalls(s, t, act, u);
        assert Written(s'.threads[u]).None? || Written(s'.threads[u]) == Written(s.threads[u]);
      }
    }
  }

  lemma StepKeepsInv(s: State, t: nat, act: Act)
    requires Inv(s)
    ensures Inv(Step(s, t, act))
  {
    if t < |s.threads| && Enabled(s, t, act) {
      StepKeepsMutex(s, t, act);
      StepKeepsIntent(s, t, act);
      StepKeepsReader(s, t, act);
      StepKeepsParked(s, t, act);
      StepKeepsWriter(s, t, act);
      StepKeepsMemory(s, t, act);
      StepKeepsBalance(s, t, act);
      StepKeepsCalls(s, t, act);
      StepKeepsWrote(s, t, act);
    }
  }

  lemma {:induction false} RunKeepsInv(s: State, moves: seq<Move>)
    requires Inv(s)
    ensures Inv(Exec(s, moves))
    decreases |moves|
  {
    if moves != [] {
      RunKeepsInv(s, moves[..|moves| - 1]);
      var last := moves[|moves| - 1];
      StepKeepsInv(Exec(s, moves[..|moves| - 1]), last.thread, last.act);
    }
  }

  // ----- what every schedule guarantees ------------------------------------

  /**
   * Exclusion and atomicity, in every state any schedule reaches: at most one thread owns the
   * write intent; while one runs `mut_func` no other thread reads or writes; and the value is
   * still the one its `prep_func` was shown when `mut_func` is entered.
   */
  lemma Exclusion(n: nat, value: int, moves: seq<Move>, t: nat, u: nat)
    requires t < n && u < n && t != u
    ensures var s := Exec(Fresh(n, value), moves);
            && |s.threads| == n
            && !(OwnsIntent(s.threads[t].pc) && OwnsIntent(s.threads[u].pc))
            && (HoldsWrite(s.threads[t].pc) ==>
                  !HoldsRead(s.threads[u].pc) && !HoldsWrite(s.threads[u].pc))
            && (s.threads[t].pc.UpEnter? ==> s.threads[t].pc.saw == s.value)
  {
    FreshInv(n, value);
    RunKeepsInv(Fresh(n, value), moves);
    RunKeepsCount(Fresh(n, value), moves);
  }

  lemma StepKeepsCount(s: State, t: nat, act: Act)
    ensures |Step(s, t, act).threads| == |s.threads|
  {
  }

  lemma {:induction false} RunKeepsCount(s: State, moves: seq<Move>)
    ensures |Exec(s, moves).threads| == |s.threads|
    decreases |moves|
  {
    if moves != [] {
      var last := moves[|moves| - 1];
      RunKeepsCount(s, moves[..|moves| - 1]);
      StepKeepsCount(Exec(s, moves[..|moves| - 1]), last.thread, last.act);
    }
  }

  /** Only the thread inside `mut_func` changes the value, and only while it excludes all others. */
  lemma ValueChangesOnlyInMut(s: State, t: nat, act: Act)
    requires Inv(s)
    requires Step(s, t, act).value != s.value
    ensures t < |s.threads| && HoldsWrite(s.threads[t].pc)
    ensures NoReaderButMe(s, t)
  {
  }

  /**
   * Nobody is left asleep: when the flag is down and no wake-up is in progress, the condvar has
   * no sleeper; and the read lock taken under the mutex, or by the owner of the intent, is
   * always free to take.
   */
  lemma NoLostWakeup(n: nat, value: int, moves: seq<Move>, t: nat)
    requires t < n
    ensures var s := Exec(Fresh(n, value), moves);
            && |s.threads| == n
            && (!s.wantsWrite && !Notifying(s) ==> !Parked(s.threads[t].pc))
            && (s.threads[t].pc.ReadTake? || s.threads[t].pc.UpReread? || s.threads[t].pc.UpRegain? ==>
                  Enabled(s, t, Advance))
  {
    var s0 := Fresh(n, value);
    FreshInv(n, value);
    RunKeepsInv(s0, moves);
    RunKeepsCount(s0, moves);
    var s := Exec(s0, moves);
    if s.threads[t].pc.ReadTake? || s.threads[t].pc.UpReread? || s.threads[t].pc.UpRegain? {
      ReadNeverBlocks(s, t);
    }
  }

  lemma ReadNeverBlocks(s: State, t: nat)
    requires Inv(s) && t < |s.threads|
    requires s.threads[t].pc.ReadTake? || s.threads[t].pc.UpReread? || s.threads[t].pc.UpRegain?
    ensures ReadFree(s)
  {
    forall u | 0 <= u < |s.threads| ensures !BarsReaders(s.threads[u].pc) {
      assert OwnsIntent(s.threads[u].pc) ==> s.wantsWrite;
    }
  }

  /**
   * However the closures end, a call that is over has lowered its intent exactly as often as it
   * raised it, and its thread holds its read lock again.
   */
  lemma IntentLoweredOncePerRaise(n: nat, value: int, moves: seq<Move>, t: nat)
    requires t < n
    ensures var s := Exec(Fresh(n, value), moves);
            && |s.threads| == n
            && (s.threads[t].pc.Guard? || s.threads[t].pc.Out? ==> s.threads[t].raised == s.threads[t].lowered)
            && s.threads[t].lowered <= s.threads[t].raised <= s.threads[t].lowered + 1
  {
    FreshInv(n, value);
    RunKeepsInv(Fresh(n, value), moves);
    RunKeepsCount(Fresh(n, value), moves);
  }

  /**
   * An upgrade does what it is for. In every state any schedule reaches, there is one finished
   * upgrade per lowering, and each entered `mut_func` exactly once if its `prep_func` returned
   * and never if that panicked; and what `mut_func` wrote last is the value until the thread
   * lowers its intent.
   */
  lemma EveryUpgradeMutatesOnce(n: nat, value: int, moves: seq<Move>, t: nat, k: nat)
    requires t < n
    ensures var s := Exec(Fresh(n, value), moves);
            && |s.threads| == n
            && var me := s.threads[t];
               && |me.past| == me.lowered
               && (k < |me.past| ==>
                     || (me.past[k].prep == Returned && me.past[k].entered == 1)
                     || (me.past[k].prep == Panicked && me.past[k].entered == 0))
               && (OwnsIntent(me.pc) && me.upgrade.wrote.Some? ==> me.upgrade.wrote == Some(s.value))
  {
    FreshInv(n, value);
    RunKeepsInv(Fresh(n, value), moves);
    RunKeepsCount(Fresh(n, value), moves);
    UpgradesOf(Exec(Fresh(n, value), moves), t, k);
  }

  lemma UpgradesOf(s: State, t: nat, k: nat)
    requires CallsInv(s) && WroteInv(s) && t < |s.threads|
    ensures var me := s.threads[t];
            && |me.past| == me.lowered
            && (k < |me.past| ==> Over(me.past[k]))
            && (OwnsIntent(me.pc) && me.upgrade.wrote.Some? ==> me.upgrade.wrote == Some(s.value))
  {
    assert ThreadCalls(s.threads[t]);
    assert Written(s.threads[t]).None? || Written(s.threads[t]) == Some(s.value);
  }

  // ----- calls -------------------------------------------------------------

  predicate InRead(pc: Pc) {
    pc.ReadLock? || pc.ReadCheck? || pc.ReadParked? || pc.ReadWoken? || pc.ReadTake? || pc.ReadDone?
  }

  predicate InUpgrade(pc: Pc) { !pc.Out? && !pc.Guard? && !InRead(pc) }

  /** Another thread's step moves this one at most from sleeping to woken, within the same call. */
  lemma OthersStayInCall(s: State, t: nat, u: nat, act: Act)
    requires u < |s.threads| && t != u
    ensures |Step(s, t, act).threads| == |s.threads|
    ensures var before, after := s.threads[u].pc, Step(s, t, act).threads[u].pc;
            || after == before || (before.ReadParked? && after.ReadWoken?) || (before.UpParked? && after.UpWoken?)
  {
  }

  /**
   * No call gives up: `read` returns only a guard and only once it has the read lock, an upgrade
   * returns only to its guard and only after it lowered its intent, and a guard is left only by
   * dropping it or by an upgrade.
   */
  lemma CallsReturnGuards(s: State, u: nat, act: Act)
    requires u < |s.threads|
    ensures |Step(s, u, act).threads| == |s.threads|
    ensures var before, after := s.threads[u].pc, Step(s, u, act).threads[u].pc;
            && (before.Out? ==> after == if act == CallRead then ReadLock else Out)
            && (before.Guard? ==> after == if act == DropGuard then Out else if act == CallUpgrade then UpLock else Guard)
            && (InRead(before) ==> InRead(after) || (before.ReadDone? && after.Guard?))
            && (InUpgrade(before) ==> InUpgrade(after) || (before.UpNotify? && after.Guard?))
  {
  }

  /** Thread `u` holds a guard in the state `i` moves into the schedule. */
  predicate GuardAt(s: State, moves: seq<Move>, u: nat, i: nat) {
    i <= |moves| && u < |Exec(s, moves[..i]).threads| && Exec(s, moves[..i]).threads[u].pc.Guard?
  }

  /** Over any schedule, a thread inside a call stays inside it until it holds a guard. */
  lemma {:induction false} CallsEndInGuards(s: State, moves: seq<Move>, u: nat)
    requires u < |s.threads| && (InRead(s.threads[u].pc) || InUpgrade(s.threads[u].pc))
    ensures var end := Exec(s, moves);
            && |end.threads| == |s.threads|
            && (|| (InRead(s.threads[u].pc) && InRead(end.threads[u].pc))
                || (InUpgrade(s.threads[u].pc) && InUpgrade(end.threads[u].pc))
                || exists i: nat :: GuardAt(s, moves, u, i))
    decreases |moves|
  {
    if moves != [] {
      var most, last := moves[..|moves| - 1], moves[|moves| - 1];
      CallsEndInGuards(s, most, u);
      if last.thread == u {
        CallsReturnGuards(Exec(s, most), u, last.act);
      } else {
        OthersStayInCall(Exec(s, most), last.thread, u, last.act);
      }
      if i: nat :| GuardAt(s, most, u, i) {
        assert moves[..i] == most[..i];
        assert GuardAt(s, moves, u, i);
      } else if Exec(s, moves).threads[u].pc.Guard? {
        assert moves[..|moves|] == moves;
        assert GuardAt(s, moves, u, |moves|);
      }
    }
  }
}
