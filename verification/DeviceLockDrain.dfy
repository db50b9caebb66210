/**
 * Liveness of the device lock: once no new calls are made, the lock code runs itself empty.
 * Every schedule of enabled steps is finite, with a bound known in advance, and it can only end
 * with every thread out of the lock. A deadlock, a lost wake-up or a pair of threads waking each
 * other for ever would each contradict this.
 */
module DeviceLockDrain {
  import opened Prelude
  import opened DeviceLock

  /** Steps that finish calls already begun: the lock code, closures ending, guards dropped. */
  predicate Finishing(act: Act) {
    act.DropGuard? || act.Advance? || act.FinishPrep? || act.FinishMut?
  }

  /** An upgrade whose wake-up is still to come. */
  predicate Upgrading(pc: Pc) {
    pc.UpLock? || pc.UpYield? || pc.UpCheck? || pc.UpParked? || pc.UpWoken? || OwnsIntent(pc) || pc.UpNotify?
  }

  function Rank(pc: Pc): nat {
    match pc
    case Out => 0
    case Guard => 1
    case ReadDone => 2
    case ReadTake => 3
    case ReadParked => 4
    case ReadCheck => 5
    case ReadWoken => 6
    case ReadLock => 6
    case UpNotify => 2
    case UpStore => 3
    case UpLower => 4
    case UpRegain => 5
    case UpMut => 6
    case UpEnter(_) => 6
    case UpWrite(_) => 7
    case UpRelease(_) => 8
    case UpPrep(_) => 9
    case UpReread => 10
    case UpRaised => 11
    case UpParked => 12
    case UpCheck => 13
    case UpWoken => 14
    case UpYield => 15
    case UpLock => 16
  }

  /** Each upgrade still to finish pays in advance for re-parking every thread once. */
  function Weight(n: nat, pc: Pc): nat {
    Rank(pc) + (if Upgrading(pc) then 2 * n + 1 else 0)
  }

  function Total(n: nat, threads: seq<Thread>): nat {
    if threads == [] then 0 else Weight(n, threads[0].pc) + Total(n, threads[1..])
  }

  function Fuel(s: State): nat { Total(|s.threads|, s.threads) }

  lemma {:induction false} TotalUpdate(n: nat, threads: seq<Thread>, t: nat, me: Thread)
    requires t < |threads|
    ensures Total(n, threads[t := me]) + Weight(n, threads[t].pc) == Total(n, threads) + Weight(n, me.pc)
    decreases |threads|
  {
    if t == 0 {
      assert threads[0 := me][1..] == threads[1..];
    } else {
      TotalUpdate(n, threads[1..], t - 1, me);
      assert threads[t := me][1..] == threads[1..][t - 1 := me];
    }
  }

  lemma {:induction false} WakeCosts(n: nat, threads: seq<Thread>)
    ensures Total(n, Wake(threads)) <= Total(n, threads) + 2 * |threads|
    decreases |threads|
  {
    if threads != [] {
      WakeCosts(n, threads[1..]);
      assert Wake(threads)[1..] == Wake(threads[1..]);
    }
  }

  /** Apart from the wake-up, a finishing step moves one thread, and nearer to its end. */
  lemma OneThreadDescends(s: State, t: nat, act: Act)
    requires t < |s.threads| && Finishing(act) && Enabled(s, t, act)
    requires !(act.Advance? && s.threads[t].pc.UpNotify?)
    ensures var s' := Step(s, t, act);
            && |s'.threads| == |s.threads|
            && s'.threads == s.threads[t := s'.threads[t]]
            && Weight(|s.threads|, s'.threads[t].pc) < Weight(|s.threads|, s.threads[t].pc)
  {
  }

  lemma WakeUpDescends(s: State, t: nat)
    requires t < |s.threads| && s.threads[t].pc.UpNotify?
    ensures Fuel(Step(s, t, Advance)) < Fuel(s)
    ensures |Step(s, t, Advance).threads| == |s.threads|
  {
    var woken := Wake(s.threads);
    WakeCosts(|s.threads|, s.threads);
    TotalUpdate(|s.threads|, woken, t, woken[t].(pc := Guard));
  }

  /** Every enabled finishing step uses up fuel, the wake-up included. */
  lemma FinishingUsesFuel(s: State, t: nat, act: Act)
    requires t < |s.threads| && Finishing(act) && Enabled(s, t, act)
    ensures Fuel(Step(s, t, act)) < Fuel(s)
    ensures |Step(s, t, act).threads| == |s.threads|
  {
    if act.Advance? && s.threads[t].pc.UpNotify? {
      WakeUpDescends(s, t);
    } else {
      OneThreadDescends(s, t, act);
      TotalUpdate(|s.threads|, s.threads, t, Step(s, t, act).threads[t]);
    }
  }

  /** While anybody is in the lock, somebody can go on. */
  lemma NotStuck(s: State, t: nat) returns (u: nat, act: Act)
    requires Inv(s) && t < |s.threads| && !s.threads[t].pc.Out?
    ensures u < |s.threads| && Finishing(act) && Enabled(s, u, act)
  {
    if s.mutex.Some? {
      u, act := s.mutex.value, Advance;
      assert HoldsMutex(s.threads[u].pc);
      if s.threads[u].pc.ReadTake? {
        ReadNeverBlocks(s, u);
      }
    } else if i :| 0 <= i < |s.threads| && Willing(s.threads[i].pc) {
      u, act := WillingStep(s, i);
    } else {
      u, act := t, Advance;
      if Parked(s.threads[t].pc) {
        u := SleeperHasWaker(s, t);
      }
      assert !HoldsMutex(s.threads[u].pc);
      WriterGetsIn(s, u);
    }
  }

  /** Standing somewhere that only a held mutex could delay. */
  predicate Willing(pc: Pc) {
    !pc.Out? && !Parked(pc) && !pc.UpWrite? && !HoldsMutex(pc)
  }

  lemma WillingStep(s: State, i: nat) returns (u: nat, act: Act)
    requires Inv(s) && i < |s.threads| && s.mutex.None? && Willing(s.threads[i].pc)
    ensures u < |s.threads| && Finishing(act) && Enabled(s, u, act)
  {
    u := i;
    var pc := s.threads[i].pc;
    act := if pc.Guard? then DropGuard
           else if pc.UpPrep? then FinishPrep(false)
           else if HoldsWrite(pc) then FinishMut(false)
           else Advance;
    if pc.UpReread? || pc.UpRegain? {
      ReadNeverBlocks(s, i);
    }
  }

  lemma WriterGetsIn(s: State, i: nat)
    requires Inv(s) && i < |s.threads| && s.mutex.None? && s.threads[i].pc.UpWrite?
    requires forall j :: 0 <= j < |s.threads| ==> !Willing(s.threads[j].pc)
    ensures WriteFree(s, i)
  {
    forall j | 0 <= j < |s.threads| && j != i
      ensures !HoldsRead(s.threads[j].pc) && !HoldsWrite(s.threads[j].pc)
    {
      assert !Willing(s.threads[j].pc);
      assert !HoldsMutex(s.threads[j].pc);
    }
  }

  /** A sleeper implies somebody else who owns the intent or is waking it, neither asleep nor out. */
  lemma SleeperHasWaker(s: State, t: nat) returns (o: nat)
    requires Inv(s) && t < |s.threads| && Parked(s.threads[t].pc)
    ensures o < |s.threads| && (OwnsIntent(s.threads[o].pc) || s.threads[o].pc.UpNotify?)
  {
    if s.wantsWrite {
      o :| 0 <= o < |s.threads| && OwnsIntent(s.threads[o].pc);
    } else {
      o :| 0 <= o < |s.threads| && s.threads[o].pc.UpNotify?;
    }
  }

  /** A schedule in which every step is a finishing one and is enabled when taken. */
  predicate Draining(s: State, moves: seq<Move>)
    decreases |moves|
  {
    moves == [] ||
    (&& moves[0].thread < |s.threads|
     && Finishing(moves[0].act)
     && Enabled(s, moves[0].thread, moves[0].act)
     && Draining(Step(s, moves[0].thread, moves[0].act), moves[1..]))
  }

  /** Where a schedule ends, reading it from the front. */
  function After(s: State, moves: seq<Move>): State
    decreases |moves|
  {
    if moves == [] then s else After(Step(s, moves[0].thread, moves[0].act), moves[1..])
  }

  lemma {:induction false} DrainIsBounded(s: State, moves: seq<Move>)
    requires Inv(s) && Draining(s, moves)
    ensures |moves| + Fuel(After(s, moves)) <= Fuel(s)
    ensures Inv(After(s, moves)) && |After(s, moves).threads| == |s.threads|
    decreases |moves|
  {
    if moves != [] {
      var m := moves[0];
      FinishingUsesFuel(s, m.thread, m.act);
      StepKeepsInv(s, m.thread, m.act);
      DrainIsBounded(Step(s, m.thread, m.act), moves[1..]);
    }
  }

  ghost predicate Quiescent(s: State) {
    forall t :: 0 <= t < |s.threads| ==> s.threads[t].pc.Out?
  }

  /**
   * From any state any schedule reaches -- including schedules in which closures panicked -- a
   * drain takes at most `Fuel` steps, and one that cannot be continued has emptied the lock: all
   * threads are out, the flag is down, the mutex free, and every raise has its lowering.
   */
  lemma DrainEmptiesTheLock(n: nat, value: int, history: seq<Move>, moves: seq<Move>)
    requires Draining(Exec(Fresh(n, value), history), moves)
    ensures var s := Exec(Fresh(n, value), history);
            var end := After(s, moves);
            && |moves| <= Fuel(s)
            && ((forall u, act :: 0 <= u < |end.threads| && Finishing(act) ==> !Enabled(end, u, act)) ==>
                  && Quiescent(end)
                  && !end.wantsWrite
                  && end.mutex.None?
                  && forall t :: 0 <= t < |end.threads| ==> end.threads[t].raised == end.threads[t].lowered)
  {
    FreshInv(n, value);
    RunKeepsInv(Fresh(n, value), history);
    var s := Exec(Fresh(n, value), history);
    DrainIsBounded(s, moves);
    var end := After(s, moves);
    if forall u, act :: 0 <= u < |end.threads| && Finishing(act) ==> !Enabled(end, u, act) {
      forall t | 0 <= t < |end.threads| ensures end.threads[t].pc.Out? {
        if !end.threads[t].pc.Out? {
          var u, act := NotStuck(end, t);
          assert false;
        }
      }
      QuiescentIsIdle(end);
    }
  }

  lemma QuiescentIsIdle(s: State)
    requires Inv(s) && Quiescent(s)
    ensures !s.wantsWrite && s.mutex.None?
    ensures forall t :: 0 <= t < |s.threads| ==> s.threads[t].raised == s.threads[t].lowered
  {
    forall t | 0 <= t < |s.threads| ensures !HoldsMutex(s.threads[t].pc) && s.mutex != Some(t) {
      assert s.threads[t].pc.Out?;
    }
  }
}
