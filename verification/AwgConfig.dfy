/**
 * The AmneziaWG interface settings of a device (boringtun/src/device/api.rs with the validation
 * of boringtun/src/noise/amnezia.rs and handshake.rs): what one `set=1` stages, how it merges
 * over the current settings, and what `get=1` emits.
 *
 * The seventeen numeric settings are slots of one vector of ranges, a size being a range of one
 * value: jc, jmin, jmax, s1 to s4, h1 to h4, content_padding_addition and the five timers.
 */
module AwgConfig {
  import opened Prelude

  datatype Range = Range(lo: nat, hi: nat)

  const U16: nat := 0x1_0000
  const U32: nat := 0x1_0000_0000

  const SLOTS: nat := 17
  const S1: nat := 3
  const H1: nat := 7
  const PADDING: nat := 11

  datatype Imitation = Off | Auto | Quic | Dns | Stun | Sip

  /** Settings only the start of the daemon can give: the junk delay and protocol imitation. */
  datatype Startup = Startup(delay: nat, imitation: Imitation)

  datatype Config = Config(slots: seq<Range>, key: seq<Byte>, trailers: bool, cookies: bool, mtu: nat, startup: Startup)

  function One(n: nat): Range { Range(n, n) }

  function ZeroKey(): seq<Byte> { seq(32, _ => 0) }

  /** A plain WireGuard value for each slot: zero, or the message type for a header. */
  function Plain(i: nat): Range { if H1 <= i < PADDING then One(i - H1 + 1) else One(0) }

  function PlainSlots(): seq<Range> { seq(SLOTS, i requires 0 <= i < SLOTS => Plain(i)) }

  function Vanilla(startup: Startup, mtu: nat): Config {
    Config(PlainSlots(), ZeroKey(), false, false, mtu, startup)
  }

  // ----- what one transaction stages ---------------------------------------

  datatype Setting = Slot(i: nat, r: Range) | HeaderKey(key: seq<Byte>) | Trailers(on: bool) | DisableCookies(on: bool)

  datatype Params = Params(slots: seq<Option<Range>>, key: Option<seq<Byte>>, trailers: Option<bool>,
                           cookies: Option<bool>, seen: bool)

  function Nothing(): Params { Params(seq(SLOTS, _ => None), None, None, None, false) }

  function Stage(p: Params, s: Setting): Params {
    match s
    case Slot(i, r) => if i < |p.slots| then p.(slots := p.slots[i := Some(r)], seen := true) else p
    case HeaderKey(key) => p.(key := Some(key), seen := true)
    case Trailers(on) => p.(trailers := Some(on), seen := true)
    case DisableCookies(on) => p.(cookies := Some(on), seen := true)
  }

  function StageAll(p: Params, l: seq<Setting>): Params
    decreases |l|
  {
    if l == [] then p else StageAll(Stage(p, l[0]), l[1..])
  }

  // ----- merging -----------------------------------------------------------

  function Or<T>(staged: Option<T>, current: T): T { if staged.Some? then staged.value else current }

  function Over(p: seq<Option<Range>>, current: seq<Range>): seq<Range>
    requires |p| == |current|
  {
    seq(|current|, i requires 0 <= i < |current| => Or(p[i], current[i]))
  }

  const MAX_JUNK_COUNT: nat := 128
  const MAX_JUNK_SIZE: nat := 1280
  const MAX_JUNK_DELAY: nat := 200

  function JunkCount(count: nat): nat { if count <= MAX_JUNK_COUNT then count else 0 }

  /** `AmneziaPreHandshakeJunk::new`: sizes that make no sense for a positive count are replaced. */
  function JunkSizes(count: nat, low: nat, high: nat): (nat, nat) {
    if JunkCount(count) == 0 then (low, high)
    else if 0 < low <= high <= MAX_JUNK_SIZE then (low, high)
    else (50, 1000)
  }

  /** The range a header's bounds stand for; both zero is the plain message type. */
  function Resolved(r: Range, plain: Range): Option<Range> {
    if r == One(0) then Some(plain)
    else if r.hi == 0 then Some(One(r.lo))
    else if r.lo <= r.hi then Some(r)
    else None
  }

  predicate Overlap(a: Range, b: Range) { a.lo <= b.hi && b.lo <= a.hi }

  predicate TagsResolve(v: seq<Range>)
    requires |v| == SLOTS
  {
    forall i :: H1 <= i < PADDING ==> Resolved(v[i], Plain(i)).Some?
  }

  function Tag(v: seq<Range>, i: nat): Range
    requires |v| == SLOTS && TagsResolve(v) && H1 <= i < PADDING
  {
    Resolved(v[i], Plain(i)).value
  }

  /** `ObfuscationRanges::new` accepts the four headers: each a range, no two sharing a value. */
  predicate TagsOk(v: seq<Range>)
    requires |v| == SLOTS
  {
    TagsResolve(v) && forall i, j :: H1 <= i < j < PADDING ==> !Overlap(Tag(v, i), Tag(v, j))
  }

  function Ordered(r: Range): Range { if r.lo <= r.hi then r else Range(r.hi, r.lo) }

  /** Every slot as the constructors and builders store it. */
  function NormalAt(v: seq<Range>, i: nat): Range
    requires |v| == SLOTS && TagsResolve(v) && i < SLOTS
  {
    if i == 0 then One(JunkCount(v[0].lo))
    else if i == 1 then One(JunkSizes(v[0].lo, v[1].lo, v[2].lo).0)
    else if i == 2 then One(JunkSizes(v[0].lo, v[1].lo, v[2].lo).1)
    else if i < H1 then v[i]
    else if i < PADDING then Tag(v, i)
    else Ordered(v[i])
  }

  function Normal(v: seq<Range>): seq<Range>
    requires |v| == SLOTS && TagsResolve(v)
  {
    seq(SLOTS, i requires 0 <= i < SLOTS => NormalAt(v, i))
  }

  const MAX_DATAGRAM: nat := 65507
  const NONCE_SIZE: nat := 12
  const SIP_REQUEST_LINE_MIN: nat := 31

  /** The bytes of the packet each of s1 to s4 precedes. */
  function PacketSize(i: nat): nat {
    if i == S1 then 148 else if i == S1 + 1 then 92 else if i == S1 + 2 then 64 else 32
  }

  /** `validate`: prefixes long enough to nonce header protection, short enough to send, and no
      zero inside a set duration. The last timer is a count, where zero is ordinary. */
  predicate Valid(c: Config)
    requires |c.slots| == SLOTS
  {
    && (c.key != ZeroKey() ==> forall i :: S1 <= i < H1 ==>
          c.slots[i].lo >= NONCE_SIZE && (c.startup.imitation.Sip? ==> c.slots[i].lo < SIP_REQUEST_LINE_MIN))
    && (forall i :: S1 <= i < H1 ==> c.slots[i].lo + PacketSize(i) <= MAX_DATAGRAM)
    && (forall i :: PADDING < i < SLOTS - 1 ==> c.slots[i] == One(0) || c.slots[i].lo != 0)
  }

  /** `merged`: all of a transaction over all of the current settings, or nothing (EINVAL). */
  function Merged(p: Params, c: Config, mtu: nat): Option<Config>
    requires |c.slots| == SLOTS && |p.slots| == SLOTS
  {
    var v := Over(p.slots, c.slots);
    if !TagsOk(v) then None
    else
      var delay := if c.startup.delay <= MAX_JUNK_DELAY then c.startup.delay else 0;
      var r := Config(Normal(v), Or(p.key, c.key), Or(p.trailers, c.trailers), Or(p.cookies, c.cookies),
                      mtu, c.startup.(delay := delay));
      if Valid(r) then Some(r) else None
  }

  // ----- what get=1 emits --------------------------------------------------

  /** The slots from one index to another that differ from plain WireGuard. */
  function EmitSlots(v: seq<Range>, i: nat, j: nat): seq<Setting>
    requires i <= j <= |v|
    decreases j - i
  {
    if i == j then []
    else (if v[i] == Plain(i) then [] else [Slot(i, v[i])]) + EmitSlots(v, i + 1, j)
  }

  function KeySettings(c: Config): seq<Setting> { if c.key == ZeroKey() then [] else [HeaderKey(c.key)] }

  function SwitchSettings(c: Config): seq<Setting> {
    (if c.trailers then [Trailers(true)] else []) + if c.cookies then [DisableCookies(true)] else []
  }

  /** `write_awg_interface_params`: sizes, key, headers, padding and timers, then the two switches. */
  function Emit(c: Config): seq<Setting>
    requires |c.slots| == SLOTS
  {
    EmitSlots(c.slots, 0, H1) + KeySettings(c) + EmitSlots(c.slots, H1, SLOTS) + SwitchSettings(c)
  }

  // ----- the invariant of stored settings ----------------------------------

  predicate Fits(i: nat, r: Range) {
    if i < H1 then r.lo == r.hi < U16 else r.lo <= r.hi < U32 && (i < PADDING ==> r.lo != 0)
  }

  predicate GoodSetting(s: Setting) {
    match s
    case Slot(i, r) => i < SLOTS && Fits(i, r)
    case HeaderKey(key) => |key| == 32
    case _ => true
  }

  predicate AllGood(l: seq<Setting>) { forall i :: 0 <= i < |l| ==> GoodSetting(l[i]) }

  predicate GoodParams(p: Params) {
    && |p.slots| == SLOTS
    && (forall i :: 0 <= i < SLOTS && p.slots[i].Some? ==> Fits(i, p.slots[i].value))
    && (p.key.Some? ==> |p.key.value| == 32)
  }

  predicate SlotsFit(v: seq<Range>) { |v| == SLOTS && forall i :: 0 <= i < SLOTS ==> Fits(i, v[i]) }

  /** Stored settings are in range, already normalized, and valid as a whole. */
  predicate Good(c: Config) {
    && SlotsFit(c.slots)
    && |c.key| == 32
    && c.startup.delay <= MAX_JUNK_DELAY
    && TagsOk(c.slots)
    && Normal(c.slots) == c.slots
    && Valid(c)
  }

  lemma FitTagsResolve(v: seq<Range>)
    requires SlotsFit(v)
    ensures TagsResolve(v)
    ensures forall i :: H1 <= i < PADDING ==> Tag(v, i) == v[i]
  {
    forall i | H1 <= i < PADDING ensures Resolved(v[i], Plain(i)) == Some(v[i]) {
      assert Fits(i, v[i]);
    }
  }

  lemma VanillaIsGood(startup: Startup, mtu: nat)
    requires startup.delay <= MAX_JUNK_DELAY
    ensures Good(Vanilla(startup, mtu))
  {
    var c := Vanilla(startup, mtu);
    assert SlotsFit(c.slots);
    FitTagsResolve(c.slots);
    assert Normal(c.slots) == c.slots;
  }

  lemma JunkIdempotent(count: nat, low: nat, high: nat)
    ensures var s := JunkSizes(count, low, high);
            && JunkCount(JunkCount(count)) == JunkCount(count)
            && JunkSizes(JunkCount(count), s.0, s.1) == s
            && (JunkCount(count) > 0 ==> 0 < s.0 <= s.1 <= MAX_JUNK_SIZE)
    ensures low < U16 && high < U16 ==> JunkSizes(count, low, high).0 < U16 && JunkSizes(count, low, high).1 < U16
  {
  }

  lemma NormalFits(v: seq<Range>)
    requires SlotsFit(v) && TagsResolve(v)
    ensures SlotsFit(Normal(v))
    ensures forall i :: S1 <= i < SLOTS ==> Normal(v)[i] == v[i]
  {
    FitTagsResolve(v);
    var n := Normal(v);
    JunkIdempotent(v[0].lo, v[1].lo, v[2].lo);
    forall i | 0 <= i < SLOTS ensures Fits(i, n[i]) && (S1 <= i ==> n[i] == v[i]) {
      assert Fits(i, v[i]);
      assert n[i] == NormalAt(v, i);
      assert Fits(0, v[0]) && Fits(1, v[1]) && Fits(2, v[2]);
    }
  }

  lemma NormalIdempotent(v: seq<Range>)
    requires SlotsFit(v) && TagsOk(v)
    ensures TagsOk(Normal(v)) && Normal(Normal(v)) == Normal(v)
  {
    var n := Normal(v);
    NormalFits(v);
    FitTagsResolve(v);
    FitTagsResolve(n);
    JunkIdempotent(v[0].lo, v[1].lo, v[2].lo);
    assert n[0] == NormalAt(v, 0) && n[1] == NormalAt(v, 1) && n[2] == NormalAt(v, 2);
    forall i | 0 <= i < SLOTS ensures NormalAt(n, i) == n[i] {
      assert Fits(i, n[i]);
    }
  }

  /** Whatever a transaction merges is stored normalized and valid. */
  lemma MergeKeepsGood(p: Params, c: Config, mtu: nat)
    requires Good(c) && GoodParams(p)
    ensures Merged(p, c, mtu).Some? ==> Good(Merged(p, c, mtu).value)
  {
    var v := Over(p.slots, c.slots);
    forall i | 0 <= i < SLOTS ensures Fits(i, v[i]) {
      assert Fits(i, c.slots[i]);
    }
    if TagsOk(v) {
      NormalFits(v);
      NormalIdempotent(v);
    }
  }

  predicate Disjoint(v: seq<Range>)
    requires |v| == SLOTS
  {
    forall i, j :: H1 <= i < j < PADDING ==> !Overlap(v[i], v[j])
  }

  /** The junk triple made usable, everything else as it is. */
  function Usable(v: seq<Range>): seq<Range>
    requires |v| == SLOTS
  {
    var sizes := JunkSizes(v[0].lo, v[1].lo, v[2].lo);
    [One(JunkCount(v[0].lo)), One(sizes.0), One(sizes.1)] + v[S1..]
  }

  /**
   * The repair touches nothing that makes sense: a count within the limit is kept, sizes are kept
   * when there is no junk to size or when they are in order and within the limit, and only then;
   * otherwise they become the defaults.
   */
  lemma RepairIsExact(v: seq<Range>)
    requires SlotsFit(v)
    ensures var count, low, high := v[0].lo, v[1].lo, v[2].lo;
            var u := Usable(v);
            && (u == v <==> count <= 128 && (count == 0 || 0 < low <= high <= 1280))
            && u[0] == One(if count <= 128 then count else 0)
            && (0 < count <= 128 && !(0 < low <= high <= 1280) ==> u[1] == One(50) && u[2] == One(1000))
            && (count == 0 || count > 128 ==> u[1] == v[1] && u[2] == v[2])
  {
    var u := Usable(v);
    assert Fits(0, v[0]) && Fits(1, v[1]) && Fits(2, v[2]);
    assert v == [v[0], v[1], v[2]] + v[S1..];
    if 0 < v[0].lo <= 128 && !(0 < v[1].lo <= v[2].lo <= 1280) {
      assert u[1] == One(50) && u[2] == One(1000);
      assert v[1] != u[1] || v[2] != u[2];
    }
  }

  lemma NormalIsUsable(v: seq<Range>)
    requires SlotsFit(v)
    ensures TagsResolve(v) && Normal(v) == Usable(v) && (TagsOk(v) <==> Disjoint(v))
  {
    FitTagsResolve(v);
    NormalFits(v);
    var n, u := Normal(v), Usable(v);
    forall i | 0 <= i < SLOTS ensures n[i] == u[i] {
      assert n[i] == NormalAt(v, i);
    }
    assert n == u;
    assert TagsOk(v) <==> Disjoint(v) by {
      forall i, j | H1 <= i < j < PADDING ensures Overlap(Tag(v, i), Tag(v, j)) <==> Overlap(v[i], v[j]) {
      }
    }
  }

  /**
   * A merge takes each setting the transaction mentions and keeps each it does not, repairing
   * only the junk triple; it is refused exactly when the headers that leaves share a value or
   * the settings it leaves are not valid.
   */
  lemma MergeIsExact(p: Params, c: Config, mtu: nat)
    requires Good(c) && GoodParams(p)
    ensures var v := Over(p.slots, c.slots);
            var r := Config(Usable(v), Or(p.key, c.key), Or(p.trailers, c.trailers), Or(p.cookies, c.cookies), mtu, c.startup);
            Merged(p, c, mtu) == if Disjoint(v) && Valid(r) then Some(r) else None
  {
    var v := Over(p.slots, c.slots);
    forall i | 0 <= i < SLOTS ensures Fits(i, v[i]) {
      assert Fits(i, c.slots[i]);
    }
    NormalIsUsable(v);
  }

  // ----- emitting, then staging --------------------------------------------

  lemma {:induction false} StageConcat(p: Params, a: seq<Setting>, b: seq<Setting>)
    ensures StageAll(p, a + b) == StageAll(StageAll(p, a), b)
    decreases |a|
  {
    if a == [] {
      assert a + b == b;
    } else {
      StageConcat(Stage(p, a[0]), a[1..], b);
      assert (a + b)[1..] == a[1..] + b;
    }
  }

  /** Staging the emitted slots sets exactly those that differ from plain, and nothing else. */
  lemma {:induction false} StageEmitted(p: Params, v: seq<Range>, i: nat, j: nat)
    requires |p.slots| == SLOTS == |v| && i <= j <= SLOTS
    ensures var q := StageAll(p, EmitSlots(v, i, j));
            && |q.slots| == SLOTS && q.key == p.key && q.trailers == p.trailers && q.cookies == p.cookies
            && forall k :: 0 <= k < SLOTS ==> q.slots[k] == if i <= k < j && v[k] != Plain(k) then Some(v[k]) else p.slots[k]
    decreases j - i
  {
    if i < j {
      var rest := EmitSlots(v, i + 1, j);
      if v[i] == Plain(i) {
        assert EmitSlots(v, i, j) == rest;
        StageEmitted(p, v, i + 1, j);
      } else {
        var l := EmitSlots(v, i, j);
        assert l[0] == Slot(i, v[i]) && l[1..] == rest;
        StageEmitted(Stage(p, l[0]), v, i + 1, j);
      }
    }
  }

  lemma StageKey(p: Params, c: Config)
    ensures StageAll(p, KeySettings(c)) == if c.key == ZeroKey() then p else p.(key := Some(c.key), seen := true)
  {
  }

  lemma StageSwitches(p: Params, c: Config)
    ensures var q := StageAll(p, SwitchSettings(c));
            && q.slots == p.slots && q.key == p.key
            && q.trailers == (if c.trailers then Some(true) else p.trailers)
            && q.cookies == if c.cookies then Some(true) else p.cookies
  {
    StageConcat(p, if c.trailers then [Trailers(true)] else [], if c.cookies then [DisableCookies(true)] else []);
  }

  /** Exactly what differs from plain WireGuard is staged. */
  predicate Carries(q: Params, c: Config)
    requires |c.slots| == SLOTS
  {
    && |q.slots| == SLOTS
    && (forall k :: 0 <= k < SLOTS ==> q.slots[k] == if c.slots[k] != Plain(k) then Some(c.slots[k]) else None)
    && q.key == (if c.key == ZeroKey() then None else Some(c.key))
    && q.trailers == (if c.trailers then Some(true) else None)
    && q.cookies == if c.cookies then Some(true) else None
  }

  lemma StageParts(p: Params, a: seq<Setting>, b: seq<Setting>, c: seq<Setting>, d: seq<Setting>)
    ensures StageAll(p, a + b + c + d) == StageAll(StageAll(StageAll(StageAll(p, a), b), c), d)
  {
    StageConcat(p, a + b + c, d);
    StageConcat(p, a + b, c);
    StageConcat(p, a, b);
  }

  lemma StageEmission(c: Config)
    requires |c.slots| == SLOTS
    ensures Carries(StageAll(Nothing(), Emit(c)), c)
  {
    var sizes, ranges := EmitSlots(c.slots, 0, H1), EmitSlots(c.slots, H1, SLOTS);
    StageParts(Nothing(), sizes, KeySettings(c), ranges, SwitchSettings(c));
    StageEmitted(Nothing(), c.slots, 0, H1);
    var p1 := StageAll(Nothing(), sizes);
    StageKey(p1, c);
    var p2 := StageAll(p1, KeySettings(c));
    StageEmitted(p2, c.slots, H1, SLOTS);
    StageSwitches(StageAll(p2, ranges), c);
  }

  lemma CarriedOverPlain(p: Params, c: Config)
    requires |c.slots| == SLOTS && Carries(p, c)
    ensures Over(p.slots, PlainSlots()) == c.slots
    ensures Or(p.key, ZeroKey()) == c.key && Or(p.trailers, false) == c.trailers && Or(p.cookies, false) == c.cookies
  {
  }

  /** Merging what a device emits over a plain device gives the emitting device's settings. */
  lemma EmissionRestores(p: Params, c: Config, mtu: nat, base: nat)
    requires Good(c) && Carries(p, c)
    ensures Merged(p, Vanilla(c.startup, base), mtu) == Some(c.(mtu := mtu))
  {
    CarriedOverPlain(p, c);
  }

  // ----- transactions ------------------------------------------------------

  /** `apply`: nothing when no AmneziaWG key was staged, else the merge or a refusal. */
  function Applied(p: Params, c: Config, mtu: nat): Option<Config>
    requires |c.slots| == SLOTS && |p.slots| == SLOTS
  {
    if p.seen then Merged(p, c, Min(mtu, U16 - 1)) else Some(c)
  }

  lemma {:induction false} SeenAny(p: Params, l: seq<Setting>)
    requires |p.slots| == SLOTS && AllGood(l)
    ensures StageAll(p, l).seen <==> p.seen || l != []
    decreases |l|
  {
    if l != [] {
      assert GoodSetting(l[0]);
      SeenAny(Stage(p, l[0]), l[1..]);
    }
  }

  lemma AllGoodConcat(a: seq<Setting>, b: seq<Setting>)
    requires AllGood(a) && AllGood(b)
    ensures AllGood(a + b)
  {
  }

  lemma {:induction false} EmittedSlotsAreGood(v: seq<Range>, i: nat, j: nat)
    requires SlotsFit(v) && i <= j <= SLOTS
    ensures AllGood(EmitSlots(v, i, j))
    decreases j - i
  {
    if i < j {
      EmittedSlotsAreGood(v, i + 1, j);
      assert Fits(i, v[i]);
      AllGoodConcat(if v[i] == Plain(i) then [] else [Slot(i, v[i])], EmitSlots(v, i + 1, j));
    }
  }

  lemma AllGoodParts(a: seq<Setting>, b: seq<Setting>, c: seq<Setting>, d: seq<Setting>)
    requires AllGood(a) && AllGood(b) && AllGood(c) && AllGood(d)
    ensures AllGood(a + b + c + d)
  {
    AllGoodConcat(a, b);
    AllGoodConcat(a + b, c);
    AllGoodConcat(a + b + c, d);
  }

  lemma EmissionIsGood(c: Config)
    requires SlotsFit(c.slots) && |c.key| == 32
    ensures AllGood(Emit(c))
  {
    var sizes, ranges := EmitSlots(c.slots, 0, H1), EmitSlots(c.slots, H1, SLOTS);
    EmittedSlotsAreGood(c.slots, 0, H1);
    EmittedSlotsAreGood(c.slots, H1, SLOTS);
    assert AllGood(KeySettings(c));
    assert AllGood(SwitchSettings(c));
    AllGoodParts(sizes, KeySettings(c), ranges, SwitchSettings(c));
  }

  /** The settings two devices share when only the interface MTU may differ. */
  predicate SameSettings(a: Config, b: Config) { a == b.(mtu := a.mtu) }

  /** A device that emits nothing is a plain one. */
  lemma NoEmissionIsVanilla(c: Config, base: nat)
    requires Good(c) && Emit(c) == []
    ensures SameSettings(Vanilla(c.startup, base), c)
  {
    StageEmission(c);
    CarriedOverPlain(Nothing(), c);
    assert Over(Nothing().slots, PlainSlots()) == PlainSlots();
  }

  /** Applying what a device emits to a plain device restores it, up to the MTU. */
  lemma ReapplyingRestores(c: Config, mtu: nat, base: nat)
    requires Good(c)
    ensures var p := StageAll(Nothing(), Emit(c));
            && |p.slots| == SLOTS
            && Applied(p, Vanilla(c.startup, base), mtu).Some?
            && SameSettings(Applied(p, Vanilla(c.startup, base), mtu).value, c)
  {
    StageEmission(c);
    EmissionRestores(StageAll(Nothing(), Emit(c)), c, Min(mtu, U16 - 1), base);
    EmissionIsGood(c);
    SeenAny(Nothing(), Emit(c));
    if Emit(c) == [] {
      NoEmissionIsVanilla(c, base);
    }
  }
}
