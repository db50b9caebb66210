/**
 * Every worker of the device answers probes through one shared budget
 * (boringtun/src/device/probe_reply.rs over probe_budget.rs). The system below
 * interleaves their loads, clock reads and compare-exchanges at will; a list of
 * steps is one schedule, and every list is allowed.
 */
module ProbeWorkers {
  import opened Prelude
  import opened ProbeBudget

  const MAX_REPLY_LEN: nat := 1024

  datatype Imitation = Off | Dns | Quic | Sip | Stun | Auto

  /**
   * A datagram as the responder sees it: whether any AmneziaWG packet kind fits it, whether
   * its source may be answered, what probe it looks like, and the reply length the matching
   * generator produces, if it produces one.
   */
  datatype Datagram = Datagram(wireguard: bool, answerable: bool, probe: Option<Imitation>, generated: Option<nat>)

  /** The length of the reply built for a datagram before the budget is asked; `None` is silence. */
  function Draft(d: Datagram, configured: Imitation): Option<nat> {
    if d.wireguard || configured == Off || !d.answerable then None
    else
      match d.probe
      case None => None
      case Some(probe) =>
        if configured != Auto && probe != configured then None
        else if probe != Dns && probe != Stun && probe != Quic then None
        else if d.generated.Some? && d.generated.value <= MAX_REPLY_LEN then d.generated
        else None
  }

  // ----- the system --------------------------------------------------------

  /** Where one worker stands inside `consume`, on the way to answering a datagram. */
  datatype Worker =
    | Idle
    | Loading(d: Datagram, bytes: nat)
    | Reading(d: Datagram, bytes: nat, word: nat)
    | Swapping(d: Datagram, bytes: nat, word: nat, now: nat)
    | Admitted(entry: nat)

  datatype Entry = Entry(d: Datagram, bytes: nat, stamp: nat)

  /**
   * `log` lists the admissions in the order their exchanges succeeded; `replied` holds the
   * positions of those already returned to the caller as a reply to send.
   */
  datatype Sys = Sys(
    rate: nat,
    configured: Imitation,
    clock: nat,
    state: nat,
    workers: map<nat, Worker>,
    log: seq<Entry>,
    replied: set<nat>)

  datatype Step =
    | Wait(millis: nat)
    | Receive(w: nat, d: Datagram)
    | Load(w: nat)
    | ReadClock(w: nat)
    | Swap(w: nat)
    | Return(w: nat)

  function Start(bytesPerSec: Word, configured: Imitation): Sys {
    var rate := Clamp(bytesPerSec);
    Sys(rate, configured, 0, Pack(Low32(rate * MILLI), 0), map[], [], {})
  }

  function At(s: Sys, w: nat): Worker {
    if w in s.workers then s.workers[w] else Idle
  }

  function Move(s: Sys, w: nat, to: Worker): Sys {
    s.(workers := s.workers[w := to])
  }

  /** The exchange: on an unchanged word it installs the attempt's result, else the race is lost. */
  function Exchange(s: Sys, w: nat, at: Worker): Sys
    requires at.Swapping? && at.now < U32
  {
    var t := Try(s.rate, at.word, at.bytes * MILLI, at.now);
    if s.state != at.word then
      Move(s, w, if t.admit then Loading(at.d, at.bytes) else Idle)
    else if t.admit then
      Move(s, w, Admitted(|s.log|)).(state := t.next, log := s.log + [Entry(at.d, at.bytes, at.now)])
    else
      Move(s, w, Idle).(state := t.next)
  }

  /** One step; a step that is not possible where its worker stands changes nothing. */
  function Apply(s: Sys, step: Step): Sys {
    match step
    case Wait(millis) =>
      if s.clock + millis < U32 then s.(clock := s.clock + millis) else s
    case Receive(w, d) =>
      var draft := Draft(d, s.configured);
      if At(s, w).Idle? && draft.Some? && Want(s.rate, draft.value).Some? then Move(s, w, Loading(d, draft.value)) else s
    case Load(w) =>
      if At(s, w).Loading? then Move(s, w, Reading(At(s, w).d, At(s, w).bytes, s.state)) else s
    case ReadClock(w) =>
      if At(s, w).Reading? then Move(s, w, Swapping(At(s, w).d, At(s, w).bytes, At(s, w).word, s.clock)) else s
    case Swap(w) =>
      if At(s, w).Swapping? && At(s, w).now < U32 then Exchange(s, w, At(s, w)) else s
    case Return(w) =>
      if At(s, w).Admitted? then Move(s, w, Idle).(replied := s.replied + {At(s, w).entry}) else s
  }

  function Exec(s: Sys, steps: seq<Step>): Sys
    decreases |steps|
  {
    if steps == [] then s else Apply(Exec(s, steps[..|steps| - 1]), steps[|steps| - 1])
  }

  // ----- the potential -----------------------------------------------------

  function Sum(log: seq<Entry>, i: nat, j: nat): nat
    requires j <= |log|
  {
    if j <= i then 0 else Sum(log, i, j - 1) + log[j - 1].bytes
  }

  /** Entries `i` to `j` respect the ceiling over the time between the first and the last. */
  predicate SliceBounded(rate: nat, log: seq<Entry>, i: nat, j: nat)
    requires i < j <= |log|
  {
    MILLI * Sum(log, i, j) <= rate * MILLI + rate * (log[j - 1].stamp - log[i].stamp)
  }

  /** What is left in the bucket, plus everything admitted since entry `i`, was earned or was there. */
  predicate Earned(rate: nat, tokens: nat, stamp: nat, log: seq<Entry>, i: nat)
    requires i < |log|
  {
    tokens + MILLI * Sum(log, i, |log|) <= rate * MILLI + rate * (stamp - log[i].stamp)
  }

  ghost predicate Ordered(log: seq<Entry>, stamp: nat) {
    && (forall i, j :: 0 <= i <= j < |log| ==> log[i].stamp <= log[j].stamp)
    && (forall i :: 0 <= i < |log| ==> log[i].stamp <= stamp)
  }

  ghost predicate AllSlicesBounded(rate: nat, log: seq<Entry>) {
    forall i, j :: 0 <= i < j <= |log| ==> SliceBounded(rate, log, i, j)
  }

  ghost predicate AllEarned(rate: nat, tokens: nat, stamp: nat, log: seq<Entry>) {
    forall i :: 0 <= i < |log| ==> Earned(rate, tokens, stamp, log, i)
  }

  ghost predicate LogInv(s: Sys) {
    && Ordered(s.log, Stamp(s.state))
    && AllSlicesBounded(s.rate, s.log)
    && AllEarned(s.rate, Tokens(s.state), Stamp(s.state), s.log)
  }

  ghost predicate WorkerInv(s: Sys, worker: Worker) {
    match worker
    case Idle => true
    case Loading(_, _) => true
    case Reading(_, _, word) =>
      WellFormed(s.rate, word) && Stamp(word) <= s.clock
    case Swapping(_, _, word, now) =>
      WellFormed(s.rate, word) && Stamp(word) <= now <= s.clock
    case Admitted(entry) =>
      entry < |s.log| && entry !in s.replied
  }

  /** Every admission is claimed at most once: by one worker on its way out, or by a sent reply. */
  ghost predicate ClaimInv(s: Sys) {
    && (forall k :: k in s.replied ==> k < |s.log|)
    && (forall v, w :: v in s.workers && w in s.workers && v != w &&
                       s.workers[v].Admitted? && s.workers[w].Admitted? ==>
                       s.workers[v].entry != s.workers[w].entry)
  }

  ghost predicate Inv(s: Sys) {
    && s.rate <= MAX_BYTES_PER_SEC
    && s.clock < U32
    && WellFormed(s.rate, s.state)
    && Stamp(s.state) <= s.clock
    && (forall w :: w in s.workers ==> WorkerInv(s, s.workers[w]))
    && ClaimInv(s)
    && LogInv(s)
  }

  lemma StartInv(bytesPerSec: Word, configured: Imitation)
    ensures Inv(Start(bytesPerSec, configured))
  {
    var rate := Clamp(bytesPerSec);
    ClampIsExactlyTheLosslessRange(rate);
    PackRoundTrip(rate * MILLI, 0);
  }

  // ----- preservation ------------------------------------------------------

  lemma {:induction false} SumAppend(log: seq<Entry>, e: Entry, i: nat, j: nat)
    requires j <= |log|
    ensures Sum(log + [e], i, j) == Sum(log, i, j)
    decreases j
  {
    if i < j {
      SumAppend(log, e, i, j - 1);
    }
  }

  /** Rewriting the word without admitting keeps the log's account, because refill is what time earns. */
  lemma RefillKeepsEarned(rate: nat, tokens: nat, stamp: nat, tokens': nat, now: nat, log: seq<Entry>, i: nat)
    requires i < |log|
    requires log[i].stamp <= stamp <= now
    requires Earned(rate, tokens, stamp, log, i)
    requires tokens' <= tokens + (now - stamp) * rate
    ensures Earned(rate, tokens', now, log, i)
  {
    assert rate * (now - log[i].stamp) == rate * (stamp - log[i].stamp) + (now - stamp) * rate;
  }

  /** Admitting moves allowance from the bucket to the log and creates none. */
  lemma AdmitKeepsEarned(rate: nat, tokens: nat, stamp: nat, left: nat, e: Entry, log: seq<Entry>, i: nat)
    requires i < |log|
    requires log[i].stamp <= stamp <= e.stamp
    requires Earned(rate, tokens, stamp, log, i)
    requires left + e.bytes * MILLI <= tokens + (e.stamp - stamp) * rate
    ensures Earned(rate, left, e.stamp, log + [e], i)
    ensures SliceBounded(rate, log + [e], i, |log| + 1)
  {
    SumAppend(log, e, i, |log|);
    assert rate * (e.stamp - log[i].stamp) == rate * (stamp - log[i].stamp) + (e.stamp - stamp) * rate;
  }

  lemma AdmitStartsSlice(rate: nat, left: nat, e: Entry, log: seq<Entry>)
    requires left + e.bytes * MILLI <= rate * MILLI
    ensures Earned(rate, left, e.stamp, log + [e], |log|)
    ensures SliceBounded(rate, log + [e], |log|, |log| + 1)
  {
    assert Sum(log + [e], |log|, |log| + 1) == e.bytes;
  }

  lemma OldSlicesStand(rate: nat, log: seq<Entry>, e: Entry, i: nat, j: nat)
    requires i < j <= |log|
    requires SliceBounded(rate, log, i, j)
    ensures SliceBounded(rate, log + [e], i, j)
  {
    SumAppend(log, e, i, j);
  }

  /** The figures of an attempt whose word is still in place. */
  lemma AttemptFigures(s: Sys, at: Worker)
    requires Inv(s) && at.Swapping? && WorkerInv(s, at)
    ensures var t := Try(s.rate, at.word, at.bytes * MILLI, at.now);
            && WellFormed(s.rate, t.next)
            && Stamp(t.next) == at.now
            && Tokens(t.next) + (if t.admit then at.bytes * MILLI else 0)
                 <= Tokens(at.word) + (at.now - Stamp(at.word)) * s.rate
            && Tokens(t.next) + (if t.admit then at.bytes * MILLI else 0) <= s.rate * MILLI
  {
    NoSaturation(s.rate, at.word, at.now);
    TryIsLossless(s.rate, at.word, at.bytes * MILLI, at.now);
  }

  lemma RefusalKeepsLog(s: Sys, s': Sys, at: Worker)
    requires Inv(s) && at.Swapping? && WorkerInv(s, at) && s.state == at.word
    requires !Try(s.rate, at.word, at.bytes * MILLI, at.now).admit
    requires s'.rate == s.rate && s'.log == s.log
    requires s'.state == Try(s.rate, at.word, at.bytes * MILLI, at.now).next
    ensures LogInv(s')
  {
    AttemptFigures(s, at);
    forall i | 0 <= i < |s.log|
      ensures Earned(s.rate, Tokens(s'.state), Stamp(s'.state), s.log, i)
    {
      RefillKeepsEarned(s.rate, Tokens(s.state), Stamp(s.state), Tokens(s'.state), at.now, s.log, i);
    }
  }

  lemma AdmissionKeepsLog(s: Sys, s': Sys, at: Worker)
    requires Inv(s) && at.Swapping? && WorkerInv(s, at) && s.state == at.word
    requires Try(s.rate, at.word, at.bytes * MILLI, at.now).admit
    requires s'.rate == s.rate && s'.log == s.log + [Entry(at.d, at.bytes, at.now)]
    requires s'.state == Try(s.rate, at.word, at.bytes * MILLI, at.now).next
    ensures LogInv(s')
  {
    AttemptFigures(s, at);
    var e := Entry(at.d, at.bytes, at.now);
    AppendKeepsEarned(s.rate, Tokens(s.state), Stamp(s.state), Tokens(s'.state), e, s.log);
  }

  lemma AppendKeepsEarned(rate: nat, tokens: nat, stamp: nat, left: nat, e: Entry, log: seq<Entry>)
    requires Ordered(log, stamp) && stamp <= e.stamp
    requires AllSlicesBounded(rate, log) && AllEarned(rate, tokens, stamp, log)
    requires left + e.bytes * MILLI <= tokens + (e.stamp - stamp) * rate
    requires left + e.bytes * MILLI <= rate * MILLI
    ensures Ordered(log + [e], e.stamp)
    ensures AllSlicesBounded(rate, log + [e])
    ensures AllEarned(rate, left, e.stamp, log + [e])
  {
    var n := |log|;
    AdmitStartsSlice(rate, left, e, log);
    forall i | 0 <= i < n + 1 ensures Earned(rate, left, e.stamp, log + [e], i) {
      if i < n {
        AdmitKeepsEarned(rate, tokens, stamp, left, e, log, i);
      }
    }
    forall i, j | 0 <= i < j <= n + 1 ensures SliceBounded(rate, log + [e], i, j) {
      if j <= n {
        OldSlicesStand(rate, log, e, i, j);
      } else if i < n {
        AdmitKeepsEarned(rate, tokens, stamp, left, e, log, i);
      }
    }
  }

  lemma ExchangeKeepsInv(s: Sys, w: nat)
    requires Inv(s) && w in s.workers && s.workers[w].Swapping? && s.workers[w].now < U32
    ensures Inv(Exchange(s, w, s.workers[w]))
    ensures Stamp(s.state) <= Stamp(Exchange(s, w, s.workers[w]).state)
  {
    var at := s.workers[w];
    var s' := Exchange(s, w, at);
    assert WorkerInv(s, at);
    if s.state != at.word {
      assert LogInv(s');
    } else {
      AttemptFigures(s, at);
      if Try(s.rate, at.word, at.bytes * MILLI, at.now).admit {
        AdmissionKeepsLog(s, s', at);
      } else {
        RefusalKeepsLog(s, s', at);
      }
    }
    forall v | v in s'.workers ensures WorkerInv(s', s'.workers[v]) {
      if v != w {
        assert WorkerInv(s, s.workers[v]);
      }
    }
  }

  /** A step other than the exchange leaves the word and the log, and every worker within bounds. */
  lemma StillWorkers(s: Sys, step: Step)
    requires Inv(s) && !step.Swap?
    ensures var s' := Apply(s, step);
            && s'.state == s.state && s'.log == s.log && s'.rate == s.rate
            && forall v :: v in s'.workers ==> WorkerInv(s', s'.workers[v])
  {
    var s' := Apply(s, step);
    forall v | v in s'.workers ensures WorkerInv(s', s'.workers[v]) {
      if v in s.workers {
        assert WorkerInv(s, s.workers[v]);
      }
    }
  }

  /** The stored stamp never passes the clock and never moves back, whoever moves. */
  lemma StepKeepsInv(s: Sys, step: Step)
    requires Inv(s)
    ensures Inv(Apply(s, step))
    ensures Stamp(s.state) <= Stamp(Apply(s, step).state) <= Apply(s, step).clock
  {
    var s' := Apply(s, step);
    if step.Swap? {
      if At(s, step.w).Swapping? && At(s, step.w).now < U32 {
        ExchangeKeepsInv(s, step.w);
      }
    } else {
      StillWorkers(s, step);
      assert LogInv(s');
    }
  }

  lemma {:induction false} RunKeepsInv(s: Sys, steps: seq<Step>)
    requires Inv(s)
    ensures Inv(Exec(s, steps))
    ensures Stamp(s.state) <= Stamp(Exec(s, steps).state) <= Exec(s, steps).clock
    decreases |steps|
  {
    if steps != [] {
      RunKeepsInv(s, steps[..|steps| - 1]);
      StepKeepsInv(Exec(s, steps[..|steps| - 1]), steps[|steps| - 1]);
    }
  }

  /** Milliseconds that pass over a schedule. */
  function Elapsed(steps: seq<Step>): nat
    decreases |steps|
  {
    if steps == [] then 0
    else Elapsed(steps[..|steps| - 1]) + if steps[|steps| - 1].Wait? then steps[|steps| - 1].millis else 0
  }

  /** The clock workers read is the time that has passed since the budget was made. */
  lemma {:induction false} ClockIsTime(bytesPerSec: Word, configured: Imitation, steps: seq<Step>)
    requires Elapsed(steps) < U32
    ensures Exec(Start(bytesPerSec, configured), steps).clock == Elapsed(steps)
    decreases |steps|
  {
    if steps != [] {
      ClockIsTime(bytesPerSec, configured, steps[..|steps| - 1]);
    }
  }

  // ----- the ceiling -------------------------------------------------------

  /** Bytes admitted with a stamp in `[lo, hi]`, among the first `n` admissions. */
  function WindowBytes(log: seq<Entry>, n: nat, lo: nat, hi: nat): nat
    requires n <= |log|
  {
    if n == 0 then 0
    else WindowBytes(log, n - 1, lo, hi) + (if lo <= log[n - 1].stamp <= hi then log[n - 1].bytes else 0)
  }

  /** The same, counting only admissions that were returned as a reply. */
  function ReplyBytes(log: seq<Entry>, replied: set<nat>, n: nat, lo: nat, hi: nat): nat
    requires n <= |log|
  {
    if n == 0 then 0
    else
      var last := if n - 1 in replied && lo <= log[n - 1].stamp <= hi then log[n - 1].bytes else 0;
      ReplyBytes(log, replied, n - 1, lo, hi) + last
  }

  /** Stamps are in order, so what falls in a window is one contiguous slice of the log. */
  lemma {:induction false} WindowIsSlice(log: seq<Entry>, n: nat, lo: nat, hi: nat) returns (i: nat, j: nat)
    requires n <= |log|
    requires forall i, j :: 0 <= i <= j < |log| ==> log[i].stamp <= log[j].stamp
    ensures i <= j <= n
    ensures WindowBytes(log, n, lo, hi) == Sum(log, i, j)
    ensures i < j ==> lo <= log[i].stamp && log[j - 1].stamp <= hi
    ensures i < j ==> forall k :: j <= k < n ==> hi < log[k].stamp
  {
    if n == 0 {
      i, j := 0, 0;
    } else {
      i, j := WindowIsSlice(log, n - 1, lo, hi);
      if lo <= log[n - 1].stamp <= hi {
        if i < j {
          assert j == n - 1;
          j := n;
        } else {
          i, j := n - 1, n;
          assert Sum(log, n - 1, n - 1) == 0;
        }
      }
    }
  }

  lemma {:induction false} RepliesWereAdmitted(log: seq<Entry>, replied: set<nat>, n: nat, lo: nat, hi: nat)
    requires n <= |log|
    ensures ReplyBytes(log, replied, n, lo, hi) <= WindowBytes(log, n, lo, hi)
  {
    if n > 0 {
      RepliesWereAdmitted(log, replied, n - 1, lo, hi);
    }
  }

  lemma InvBoundsWindow(s: Sys, lo: nat, millis: nat)
    requires Inv(s)
    ensures MILLI * WindowBytes(s.log, |s.log|, lo, lo + millis) <= s.rate * MILLI + s.rate * millis
  {
    LogBoundsWindow(s.rate, s.log, Stamp(s.state), lo, millis);
  }

  lemma LogBoundsWindow(rate: nat, log: seq<Entry>, stamp: nat, lo: nat, millis: nat)
    requires AllSlicesBounded(rate, log) && Ordered(log, stamp)
    ensures MILLI * WindowBytes(log, |log|, lo, lo + millis) <= rate * MILLI + rate * millis
  {
    var i, j := WindowIsSlice(log, |log|, lo, lo + millis);
    if i < j {
      BoundedSlice(rate, log, i, j);
      SliceInWindow(rate, log, i, j, lo, millis);
    } else {
      assert Sum(log, i, j) == 0;
    }
  }

  lemma BoundedSlice(rate: nat, log: seq<Entry>, i: nat, j: nat)
    requires AllSlicesBounded(rate, log) && i < j <= |log|
    ensures SliceBounded(rate, log, i, j)
  {
  }

  lemma SliceInWindow(rate: nat, log: seq<Entry>, i: nat, j: nat, lo: nat, millis: nat)
    requires i < j <= |log| && SliceBounded(rate, log, i, j)
    requires lo <= log[i].stamp && log[j - 1].stamp <= lo + millis
    ensures MILLI * Sum(log, i, j) <= rate * MILLI + rate * millis
  {
    WiderWindow(rate, Sum(log, i, j), log[j - 1].stamp - log[i].stamp, millis);
  }

  lemma WiderWindow(rate: nat, bytes: nat, span: int, millis: nat)
    requires span <= millis
    requires MILLI * bytes <= rate * MILLI + rate * span
    ensures MILLI * bytes <= rate * MILLI + rate * millis
  {
    assert rate * (millis - span) >= 0;
  }

  /**
   * The aggregate ceiling. After any schedule of any number of workers, whatever datagrams
   * arrive, the bytes admitted with stamps inside any window of `millis` milliseconds are at
   * most one second's allowance plus what the window itself earns -- and so are the bytes
   * handed back as replies, each admission being handed back at most once.
   */
  lemma AggregateCeiling(bytesPerSec: Word, configured: Imitation, steps: seq<Step>, lo: nat, millis: nat)
    ensures var s := Exec(Start(bytesPerSec, configured), steps);
            var rate := Clamp(bytesPerSec);
            && MILLI * WindowBytes(s.log, |s.log|, lo, lo + millis) <= rate * MILLI + rate * millis
            && MILLI * ReplyBytes(s.log, s.replied, |s.log|, lo, lo + millis) <= rate * MILLI + rate * millis
            && ClaimInv(s)
  {
    var s0 := Start(bytesPerSec, configured);
    StartInv(bytesPerSec, configured);
    RunKeepsInv(s0, steps);
    RateIsFixed(s0, steps);
    var s := Exec(s0, steps);
    InvBoundsWindow(s, lo, millis);
    RepliesWereAdmitted(s.log, s.replied, |s.log|, lo, lo + millis);
  }

  lemma {:induction false} RateIsFixed(s: Sys, steps: seq<Step>)
    ensures Exec(s, steps).rate == s.rate
    decreases |steps|
  {
    if steps != [] {
      RateIsFixed(s, steps[..|steps| - 1]);
    }
  }

  // ----- who is answered ---------------------------------------------------

  /**
   * A datagram is due an answer of this many bytes: it fits no AmneziaWG shape, its source may be
   * answered, it is a DNS, STUN or QUIC probe for the protocol imitated, or for any under auto,
   * and its generator produced that many bytes, within the backstop.
   */
  predicate Due(configured: Imitation, d: Datagram, bytes: nat) {
    && !d.wireguard && d.answerable
    && d.probe in {Some(Dns), Some(Stun), Some(Quic)}
    && (configured == Auto || d.probe == Some(configured))
    && d.generated == Some(bytes) && bytes <= 1024
  }

  lemma DraftsAreDue(d: Datagram, configured: Imitation, bytes: nat)
    ensures Draft(d, configured) == Some(bytes) <==> Due(configured, d, bytes)
  {
  }

  /** Every worker in `consume` is there for a datagram due what it asks. */
  predicate Purposeful(configured: Imitation, worker: Worker) {
    worker.Loading? || worker.Reading? || worker.Swapping? ==> Due(configured, worker.d, worker.bytes)
  }

  ghost predicate DueInv(s: Sys) {
    && (forall w :: w in s.workers ==> Purposeful(s.configured, s.workers[w]))
    && (forall k :: 0 <= k < |s.log| ==> Due(s.configured, s.log[k].d, s.log[k].bytes))
  }

  lemma StepKeepsDue(s: Sys, step: Step)
    requires DueInv(s)
    ensures DueInv(Apply(s, step)) && Apply(s, step).configured == s.configured
  {
    if step.Receive? {
      var draft := Draft(step.d, s.configured);
      if draft.Some? {
        DraftsAreDue(step.d, s.configured, draft.value);
      }
    }
  }

  /** After any schedule, every admission, and so every reply, is for a datagram due exactly that many bytes. */
  lemma {:induction false} AdmissionsAreDue(bytesPerSec: Word, configured: Imitation, steps: seq<Step>)
    ensures var s := Exec(Start(bytesPerSec, configured), steps);
            && DueInv(s) && s.configured == configured
            && forall k :: 0 <= k < |s.log| ==> Due(configured, s.log[k].d, s.log[k].bytes)
    decreases |steps|
  {
    if steps != [] {
      AdmissionsAreDue(bytesPerSec, configured, steps[..|steps| - 1]);
      StepKeepsDue(Exec(Start(bytesPerSec, configured), steps[..|steps| - 1]), steps[|steps| - 1]);
    }
  }

  /** One worker taking a datagram through to the end, with nobody in between. */
  function Handled(s: Sys, w: nat, d: Datagram): Sys {
    Apply(Apply(Apply(Apply(Apply(s, Receive(w, d)), Load(w)), ReadClock(w)), Swap(w)), Return(w))
  }

  lemma HandledReads(s: Sys, w: nat, d: Datagram, bytes: nat)
    requires At(s, w).Idle? && Draft(d, s.configured) == Some(bytes) && Want(s.rate, bytes).Some?
    ensures Apply(Apply(Apply(s, Receive(w, d)), Load(w)), ReadClock(w)) == Move(s, w, Swapping(d, bytes, s.state, s.clock))
  {
    assert s.workers[w := Loading(d, bytes)][w := Reading(d, bytes, s.state)] == s.workers[w := Reading(d, bytes, s.state)];
    assert s.workers[w := Reading(d, bytes, s.state)][w := Swapping(d, bytes, s.state, s.clock)]
        == s.workers[w := Swapping(d, bytes, s.state, s.clock)];
  }

  /**
   * Conversely, an idle worker that is left alone answers a datagram that is due an answer, in
   * full and once, exactly when the bucket ticking since the last store covers it; and a datagram
   * that is due none leaves everything as it was.
   */
  lemma DueIsAnswered(s: Sys, w: nat, d: Datagram, bytes: nat)
    requires Inv(s) && At(s, w).Idle? && Due(s.configured, d, bytes)
    ensures var q := Handled(s, w, d);
            if bytes * MILLI <= TickFor(s.rate, Tokens(s.state), s.clock - Stamp(s.state))
            then q.log == s.log + [Entry(d, bytes, s.clock)] && q.replied == s.replied + {|s.log|}
            else q.log == s.log && q.replied == s.replied
  {
    DraftsAreDue(d, s.configured, bytes);
    LazyRefillIsTicking(s.rate, s.state, s.clock);
    WantNoneMeansTooBig(s.rate, bytes);
    NoSaturation(s.rate, s.state, s.clock);
    if Want(s.rate, bytes).Some? {
      HandledReads(s, w, d, bytes);
      TryIsLossless(s.rate, s.state, bytes * MILLI, s.clock);
    } else {
      Untouched(s, w);
    }
  }

  lemma Untouched(s: Sys, w: nat)
    requires At(s, w).Idle?
    ensures Apply(Apply(Apply(Apply(s, Load(w)), ReadClock(w)), Swap(w)), Return(w)) == s
  {
  }

  lemma NotDueIsSilent(s: Sys, w: nat, d: Datagram)
    requires At(s, w).Idle? && forall bytes: nat :: !Due(s.configured, d, bytes)
    ensures Handled(s, w, d) == s
  {
    var draft := Draft(d, s.configured);
    if draft.Some? {
      DraftsAreDue(d, s.configured, draft.value);
      assert false;
    }
    Untouched(s, w);
  }

  /**
   * Contention drops nothing: whoever else writes the word, a worker gives a datagram up only when
   * the balance it loaded, refilled to its clock reading, did not cover it; otherwise it is
   * admitted for it or goes round again for the same bytes.
   */
  lemma OnlyTheBudgetRefuses(s: Sys, w: nat)
    requires Inv(s) && w in s.workers && s.workers[w].Swapping?
    ensures var at, end := s.workers[w], At(Apply(s, Swap(w)), w);
            if at.bytes * MILLI <= TickFor(s.rate, Tokens(at.word), at.now - Stamp(at.word))
            then end == Admitted(|s.log|) || end == Loading(at.d, at.bytes)
            else end == Idle
    ensures s.state == s.workers[w].word ==> !At(Apply(s, Swap(w)), w).Loading?
  {
    var at := s.workers[w];
    assert WorkerInv(s, at);
    LazyRefillIsTicking(s.rate, at.word, at.now);
    TryIsLossless(s.rate, at.word, at.bytes * MILLI, at.now);
  }
}
