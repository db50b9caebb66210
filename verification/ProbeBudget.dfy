/**
 * The token bucket that bounds the bytes sent in answer to unauthenticated
 * datagrams (boringtun/src/device/probe_budget.rs).
 *
 * Token balance and millisecond stamp live in the two halves of one 64-bit word,
 * and every narrowing and saturating operation of the source is written out here,
 * so that losing bits is a possibility the proofs have to exclude.
 */
module ProbeBudget {
  import opened Prelude

  const MILLI: nat := 1000
  const U32: nat := 0x1_0000_0000
  const U64: nat := 0x1_0000_0000_0000_0000

  /** The largest rate whose one-second allowance, in millibytes, fits 32 bits. */
  const MAX_BYTES_PER_SEC: nat := (U32 - 1) / MILLI

  type Word = x: int | 0 <= x < 0x1_0000_0000

  // ----- machine arithmetic ------------------------------------------------

  function Low32(x: nat): (w: Word) { x % U32 }

  function SatMul(a: nat, b: nat): nat { Min(a * b, U64 - 1) }

  function SatAdd(a: nat, b: nat): nat { Min(a + b, U64 - 1) }

  function SatSub(a: nat, b: nat): nat { if a < b then 0 else a - b }

  function Pack(millibytes: Word, millis: Word): nat { millibytes * U32 + millis }

  function Tokens(word: nat): Word { word / U32 % U32 }

  function Stamp(word: nat): Word { word % U32 }

  /** Both halves come back out of a packed word: no field bleeds into the other. */
  lemma PackRoundTrip(millibytes: Word, millis: Word)
    ensures Tokens(Pack(millibytes, millis)) == millibytes
    ensures Stamp(Pack(millibytes, millis)) == millis
    ensures Pack(millibytes, millis) < U64
  {
    var word := Pack(millibytes, millis);
    assert word / U32 == millibytes;
  }

  // ----- one attempt -------------------------------------------------------

  function Clamp(bytesPerSec: nat): (rate: nat) { Min(bytesPerSec, MAX_BYTES_PER_SEC) }

  function Cap(rate: nat): nat { SatMul(rate, MILLI) }

  /** The allowance a reply of `bytes` needs; `None` when it can never be granted. */
  function Want(rate: nat, bytes: nat): Option<nat> {
    if bytes < U32 && SatMul(bytes, MILLI) <= Cap(rate) then Some(bytes * MILLI) else None
  }

  /** The balance an attempt at millisecond `now` finds in `word`, as the source computes it. */
  function Available(rate: nat, word: nat, now: Word): nat {
    var elapsed := SatSub(now, Stamp(word));
    Min(SatAdd(Tokens(word), SatMul(elapsed, rate)), Cap(rate))
  }

  datatype Attempt = Attempt(admit: bool, next: nat)

  /** Verdict and the word the attempt wants to install, from the loaded word and the clock read. */
  function Try(rate: nat, word: nat, want: nat, now: Word): Attempt {
    var available := Available(rate, word, now);
    if available < want then
      Attempt(false, Pack(Low32(available), now))
    else
      Attempt(true, Pack(Low32(available - want), now))
  }

  // ----- no bits are lost --------------------------------------------------

  /** Words the budget can hold: a balance within the cap. */
  predicate WellFormed(rate: nat, word: nat) {
    word < U64 && Tokens(word) <= rate * MILLI
  }

  lemma MulMono(a: nat, b: nat, c: nat)
    requires a <= b
    ensures a * c <= b * c
  {
  }

  /** Within the clamp the saturating operations never saturate. */
  lemma NoSaturation(rate: nat, word: nat, now: Word)
    requires rate <= MAX_BYTES_PER_SEC
    requires WellFormed(rate, word)
    ensures Cap(rate) == rate * MILLI < U32
    ensures Available(rate, word, now)
         == Min(Tokens(word) + SatSub(now, Stamp(word)) * rate, rate * MILLI)
  {
    var elapsed := SatSub(now, Stamp(word));
    MulMono(elapsed, U32, rate);
    assert U32 * rate <= U32 * MAX_BYTES_PER_SEC;
  }

  /**
   * Narrowing a full bucket to the 32-bit field keeps its value exactly for the rates the
   * clamp lets through. Above the clamp a full second of refill does not survive the store,
   * which is what the clamp is for.
   */
  lemma ClampIsExactlyTheLosslessRange(rate: nat)
    ensures Low32(rate * MILLI) == rate * MILLI <==> rate <= MAX_BYTES_PER_SEC
  {
    if rate * MILLI < U32 {
      assert rate <= MAX_BYTES_PER_SEC;
    } else {
      assert Low32(rate * MILLI) < U32;
    }
  }

  /** An attempt reads back the balance it stored, stays within the cap and stamps the word `now`. */
  lemma TryIsLossless(rate: nat, word: nat, want: nat, now: Word)
    requires rate <= MAX_BYTES_PER_SEC
    requires WellFormed(rate, word)
    ensures var t := Try(rate, word, want, now);
            var available := Available(rate, word, now);
            && WellFormed(rate, t.next)
            && Stamp(t.next) == now
            && t.admit == (want <= available)
            && Tokens(t.next) == available - (if t.admit then want else 0)
  {
    NoSaturation(rate, word, now);
    var available := Available(rate, word, now);
    var kept := if available < want then available else available - want;
    assert Low32(kept) == kept;
    PackRoundTrip(kept, now);
  }

  /** A clock read behind the stored stamp finds the balance unchanged: it earns nothing. */
  lemma LaggingReadEarnsNothing(rate: nat, word: nat, want: nat, now: Word)
    requires rate <= MAX_BYTES_PER_SEC
    requires WellFormed(rate, word)
    requires now <= Stamp(word)
    ensures var t := Try(rate, word, want, now);
            && t.admit == (want <= Tokens(word))
            && Tokens(t.next) <= Tokens(word)
            && Stamp(t.next) == now
  {
    NoSaturation(rate, word, now);
    TryIsLossless(rate, word, want, now);
  }

  // ----- the ideal bucket --------------------------------------------------

  /** The reference: a bucket that really gains `rate` millibytes every millisecond, up to the cap. */
  function Tick(rate: nat, tokens: nat): nat { Min(tokens + rate, rate * MILLI) }

  function TickFor(rate: nat, tokens: nat, millis: nat): nat
  {
    if millis == 0 then tokens else Tick(rate, TickFor(rate, tokens, millis - 1))
  }

  lemma {:induction false} TickForClosedForm(rate: nat, tokens: nat, millis: nat)
    requires tokens <= rate * MILLI
    ensures TickFor(rate, tokens, millis) == Min(tokens + millis * rate, rate * MILLI)
  {
    if millis > 0 {
      TickForClosedForm(rate, tokens, millis - 1);
      assert millis * rate == (millis - 1) * rate + rate;
    }
  }

  lemma {:induction false} TickForAdds(rate: nat, tokens: nat, first: nat, second: nat)
    ensures TickFor(rate, TickFor(rate, tokens, first), second) == TickFor(rate, tokens, first + second)
  {
    if second > 0 {
      TickForAdds(rate, tokens, first, second - 1);
    }
  }

  /** What a lazy attempt computes from the stored stamp is the ticking bucket's balance now. */
  lemma LazyRefillIsTicking(rate: nat, word: nat, now: Word)
    requires rate <= MAX_BYTES_PER_SEC
    requires WellFormed(rate, word)
    requires Stamp(word) <= now
    ensures Available(rate, word, now) == TickFor(rate, Tokens(word), now - Stamp(word))
  {
    NoSaturation(rate, word, now);
    TickForClosedForm(rate, Tokens(word), now - Stamp(word));
  }

  /** One request against the budget, and whether the store of a refusal took effect. */
  datatype Request = Request(bytes: nat, now: Word, refusalStored: bool)

  predicate InOrder(from: nat, requests: seq<Request>) {
    forall i :: 0 <= i < |requests| ==>
      && from <= requests[i].now
      && forall j :: i <= j < |requests| ==> requests[i].now <= requests[j].now
  }

  /** The verdict on one request, and the word it leaves behind. */
  function LazyAdmits(rate: nat, word: nat, r: Request): bool {
    var want := Want(rate, r.bytes);
    want.Some? && Try(rate, word, want.value, r.now).admit
  }

  function LazyNext(rate: nat, word: nat, r: Request): nat {
    var want := Want(rate, r.bytes);
    if want.None? then word
    else
      var t := Try(rate, word, want.value, r.now);
      if t.admit || r.refusalStored then t.next else word
  }

  /** The verdicts of the real, lazily refilled budget. */
  function LazyVerdicts(rate: nat, word: nat, requests: seq<Request>): seq<bool>
    decreases |requests|
  {
    if requests == [] then []
    else [LazyAdmits(rate, word, requests[0])] + LazyVerdicts(rate, LazyNext(rate, word, requests[0]), requests[1..])
  }

  /** The verdict of the ticking bucket holding `tokens` at millisecond `clock`, and its balance after it. */
  function IdealAdmits(rate: nat, tokens: nat, clock: nat, r: Request): bool
    requires clock <= r.now
  {
    r.bytes * MILLI <= TickFor(rate, tokens, r.now - clock)
  }

  function IdealNext(rate: nat, tokens: nat, clock: nat, r: Request): nat
    requires clock <= r.now
  {
    var spent := if IdealAdmits(rate, tokens, clock, r) then r.bytes * MILLI else 0;
    TickFor(rate, tokens, r.now - clock) - spent
  }

  function IdealVerdicts(rate: nat, tokens: nat, clock: nat, requests: seq<Request>): seq<bool>
    requires InOrder(clock, requests)
    decreases |requests|
  {
    if requests == [] then []
    else
      var r := requests[0];
      [IdealAdmits(rate, tokens, clock, r)] + IdealVerdicts(rate, IdealNext(rate, tokens, clock, r), r.now, requests[1..])
  }

  /** A bucket may be brought up to date in two stages or in one. */
  lemma {:induction false} IdealFromEarlier(rate: nat, tokens: nat, clock: nat, later: nat, requests: seq<Request>)
    requires clock <= later
    requires InOrder(later, requests)
    ensures InOrder(clock, requests)
    ensures IdealVerdicts(rate, TickFor(rate, tokens, later - clock), later, requests)
         == IdealVerdicts(rate, tokens, clock, requests)
  {
    assert InOrder(clock, requests);
    if requests != [] {
      TickForAdds(rate, tokens, later - clock, requests[0].now - later);
    }
  }

  /** One request: the lazy attempt and the ticking bucket agree on the verdict and the balance left. */
  lemma VerdictAgrees(rate: nat, word: nat, r: Request)
    requires rate <= MAX_BYTES_PER_SEC
    requires WellFormed(rate, word)
    requires Stamp(word) <= r.now
    ensures LazyAdmits(rate, word, r) == IdealAdmits(rate, Tokens(word), Stamp(word), r)
    ensures var next := LazyNext(rate, word, r);
            && WellFormed(rate, next)
            && Stamp(next) <= r.now
            && IdealNext(rate, Tokens(word), Stamp(word), r) == TickFor(rate, Tokens(next), r.now - Stamp(next))
  {
    LazyRefillIsTicking(rate, word, r.now);
    WantNoneMeansTooBig(rate, r.bytes);
    if Want(rate, r.bytes).Some? {
      TryIsLossless(rate, word, Want(rate, r.bytes).value, r.now);
    } else {
      TickForClosedForm(rate, Tokens(word), r.now - Stamp(word));
    }
  }

  /**
   * For every sequence of requests with a clock that does not run back, and for every choice
   * of which refusals get their refilled word stored, the budget answers as the bucket that
   * ticks every millisecond. So storing on refusal, skipping that store and losing its
   * compare-exchange are indistinguishable to every later caller.
   */
  lemma {:induction false} LazyEqualsIdeal(rate: nat, word: nat, requests: seq<Request>)
    requires rate <= MAX_BYTES_PER_SEC
    requires WellFormed(rate, word)
    requires InOrder(Stamp(word), requests)
    ensures LazyVerdicts(rate, word, requests)
         == IdealVerdicts(rate, Tokens(word), Stamp(word), requests)
    decreases |requests|
  {
    if requests != [] {
      var r, rest := requests[0], requests[1..];
      var next := LazyNext(rate, word, r);
      InOrderTail(Stamp(word), requests);
      VerdictAgrees(rate, word, r);
      IdealFromEarlier(rate, Tokens(next), Stamp(next), r.now, rest);
      LazyEqualsIdeal(rate, next, rest);
    }
  }

  lemma InOrderTail(from: nat, requests: seq<Request>)
    requires requests != []
    requires InOrder(from, requests)
    ensures InOrder(requests[0].now, requests[1..])
    ensures InOrder(from, requests[1..])
  {
    var rest := requests[1..];
    forall i | 0 <= i < |rest|
      ensures requests[0].now <= rest[i].now && from <= rest[i].now
      ensures forall j :: i <= j < |rest| ==> rest[i].now <= rest[j].now
    {
      assert rest[i] == requests[i + 1];
      forall j | i <= j < |rest| ensures rest[i].now <= rest[j].now {
        assert rest[j] == requests[j + 1];
      }
    }
  }

  /** Requests refused before the loop are exactly those no full bucket could serve. */
  lemma WantNoneMeansTooBig(rate: nat, bytes: nat)
    requires rate <= MAX_BYTES_PER_SEC
    ensures Want(rate, bytes) == None <==> rate * MILLI < bytes * MILLI
  {
    assert rate * MILLI < U32;
  }

  // ----- the retry loop ----------------------------------------------------

  /** One turn of the loop: what the clock reads, and what a rival stores before the exchange. */
  datatype Turn = Turn(now: Word, rival: Option<nat>)

  datatype Outcome = Outcome(admitted: bool, word: nat)

  /** The loop as a recursion over its turns; the last turn meets no rival. */
  function Race(rate: nat, word: nat, want: nat, turns: seq<Turn>): Outcome
    requires turns != [] && turns[|turns| - 1].rival.None?
    decreases |turns|
  {
    var turn := turns[0];
    var t := Try(rate, word, want, turn.now);
    var seen := if turn.rival.Some? then turn.rival.value else word;
    if seen == word then Outcome(t.admit, t.next)
    else if !t.admit then Outcome(false, seen)
    else Race(rate, seen, want, turns[1..])
  }

  /** The word in place when a turn begins, had no earlier turn of this call stored one. */
  function Loaded(word: nat, turns: seq<Turn>, k: nat): nat
    requires k <= |turns|
  {
    if k == 0 then word
    else if turns[k - 1].rival.Some? then turns[k - 1].rival.value
    else Loaded(word, turns, k - 1)
  }

  lemma {:induction false} LoadedLater(word: nat, turns: seq<Turn>, k: nat)
    requires k < |turns|
    ensures Loaded(Loaded(word, turns, 1), turns[1..], k) == Loaded(word, turns, k + 1)
  {
    if k > 0 {
      LoadedLater(word, turns, k - 1);
      assert turns[1..][k - 1] == turns[k];
    }
  }

  /** An outcome is that of one attempt on `loaded`, with `inPlace` the word its exchange met. */
  predicate OneAttempt(t: Attempt, loaded: nat, inPlace: nat, o: Outcome) {
    if inPlace == loaded then o == Outcome(t.admit, t.next) else !t.admit && o == Outcome(false, inPlace)
  }

  lemma RaceTurn(rate: nat, word: nat, want: nat, turns: seq<Turn>, t: Attempt)
    requires turns != [] && turns[|turns| - 1].rival.None?
    requires t == Try(rate, word, want, turns[0].now)
    ensures var seen := Loaded(word, turns, 1);
            var o := Race(rate, word, want, turns);
            if seen == word || !t.admit then OneAttempt(t, word, seen, o)
            else |turns| > 1 && o == Race(rate, seen, want, turns[1..])
  {
  }

  /**
   * However many rivals interfere, a call acts once. Its verdict is that of one attempt on the
   * word that attempt loaded: admitted, or storing a refill, that word was still in place; met
   * by a rival's word, it was refused and left that word alone. `TryIsLossless` says what one
   * attempt takes.
   */
  lemma {:induction false} RaceActsOnce(rate: nat, word: nat, want: nat, turns: seq<Turn>) returns (k: nat)
    requires turns != [] && turns[|turns| - 1].rival.None?
    ensures k < |turns|
    ensures var t := Try(rate, Loaded(word, turns, k), want, turns[k].now);
            OneAttempt(t, Loaded(word, turns, k), Loaded(word, turns, k + 1), Race(rate, word, want, turns))
    decreases |turns|
  {
    var t := Try(rate, word, want, turns[0].now);
    var seen := Loaded(word, turns, 1);
    RaceTurn(rate, word, want, turns, t);
    if seen == word || !t.admit {
      k := 0;
    } else {
      var j := RaceActsOnce(rate, seen, want, turns[1..]);
      k := j + 1;
      assert turns[1..][j] == turns[k];
      LoadedLater(word, turns, j);
      LoadedLater(word, turns, j + 1);
    }
  }

  class Budget {
    var state: nat
    const rate: nat

    constructor (bytesPerSec: Word)
      ensures rate == Clamp(bytesPerSec)
      ensures WellFormed(rate, state) && Tokens(state) == rate * MILLI && Stamp(state) == 0
    {
      var clamped := Clamp(bytesPerSec);
      ClampIsExactlyTheLosslessRange(clamped);
      PackRoundTrip(clamped * MILLI, 0);
      rate := clamped;
      state := Pack(Low32(clamped * MILLI), 0);
    }

    /** `consume`: load, read the clock, compute, compare-exchange, and again on a lost race. */
    method Consume(bytes: nat, turns: seq<Turn>) returns (admitted: bool)
      requires turns != [] && turns[|turns| - 1].rival.None?
      modifies this`state
      ensures var want := Want(rate, bytes);
              if want.None? then !admitted && state == old(state)
              else Outcome(admitted, state) == Race(rate, old(state), want.value, turns)
    {
      var need := Want(rate, bytes);
      if need.None? {
        return false;
      }
      var want := need.value;
      var i := 0;
      while true
        invariant 0 <= i < |turns|
        invariant Race(rate, old(state), want, turns) == Race(rate, state, want, turns[i..])
        decreases |turns| - i
      {
        var word := state;
        var now := turns[i].now;
        var available := Available(rate, word, now);
        if turns[i].rival.Some? {
          state := turns[i].rival.value;
        }
        if available < want {
          var next := Pack(Low32(available), now);
          if next != word && state == word {
            state := next;
          }
          return false;
        }
        var next := Pack(Low32(available - want), now);
        if state == word {
          state := next;
          return true;
        }
        assert turns[i..][1..] == turns[i + 1..];
        i := i + 1;
      }
    }
  }
}
