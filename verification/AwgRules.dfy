/**
 * What the rules for AmneziaWG settings mean: which configurations are valid, number by number,
 * when the headers still tell the four kinds of message apart, and what a transaction leaves staged.
 */
module AwgRules {
  import opened Prelude
  import opened AwgConfig

  predicate Within(x: nat, r: Range) { r.lo <= x <= r.hi }

  /** Two ranges overlap exactly when they share a value. */
  lemma OverlapIsShared(a: Range, b: Range)
    requires a.lo <= a.hi && b.lo <= b.hi
    ensures Overlap(a, b) <==> exists x: nat :: Within(x, a) && Within(x, b)
  {
    if Overlap(a, b) {
      assert Within(if a.lo <= b.lo then b.lo else a.lo, a) && Within(if a.lo <= b.lo then b.lo else a.lo, b);
    }
  }

  /** No header value belongs to two kinds of message. */
  ghost predicate TellsApart(v: seq<Range>)
    requires |v| == SLOTS
  {
    forall x: nat, i, j :: 7 <= i < j < 11 ==> !(Within(x, v[i]) && Within(x, v[j]))
  }

  /** The four headers of settings in range are accepted exactly when every value names one kind of message at most. */
  lemma HeadersTellApart(v: seq<Range>)
    requires SlotsFit(v)
    ensures TagsOk(v) <==> TellsApart(v)
  {
    NormalIsUsable(v);
    forall i, j | 7 <= i < j < 11 ensures Overlap(v[i], v[j]) <==> exists x: nat :: Within(x, v[i]) && Within(x, v[j]) {
      assert Fits(i, v[i]) && Fits(j, v[j]);
      OverlapIsShared(v[i], v[j]);
    }
  }

  /** The header bounds as given: both zero for the plain type, one number, a range in order, or refused. */
  lemma HeaderBounds(lo: nat, hi: nat, plain: Range)
    ensures Resolved(Range(lo, hi), plain) ==
              if hi > 0 then (if lo <= hi then Some(Range(lo, hi)) else None)
              else if lo > 0 then Some(One(lo))
              else Some(plain)
  {
  }

  /** Bounds given the wrong way round are put in order. */
  lemma OrderedBounds(r: Range)
    ensures Ordered(r).lo <= Ordered(r).hi && multiset{Ordered(r).lo, Ordered(r).hi} == multiset{r.lo, r.hi}
  {
  }

  /** Plain WireGuard: message types one to four, everything else off, no header key. */
  lemma PlainIsWireGuard(startup: Startup, mtu: nat)
    ensures var c := Vanilla(startup, mtu);
            && |c.slots| == SLOTS && |c.key| == 32 && !c.trailers && !c.cookies
            && c.slots[7] == Range(1, 1) && c.slots[8] == Range(2, 2) && c.slots[9] == Range(3, 3) && c.slots[10] == Range(4, 4)
            && (forall i :: 0 <= i < SLOTS && !(7 <= i <= 10) ==> c.slots[i] == Range(0, 0))
            && (forall i :: 0 <= i < 32 ==> c.key[i] == 0)
  {
  }

  predicate DurationOk(r: Range) { r.lo > 0 || r.hi == 0 }

  /**
   * `validate`, number by number: each of the four packets fits one datagram behind its junk; a
   * header key needs twelve bytes of junk before each, and under SIP no more than thirty; and none
   * of the four durations is a range from zero.
   */
  lemma ValidExactly(c: Config)
    requires SlotsFit(c.slots)
    ensures var s1, s2, s3, s4 := c.slots[3].lo, c.slots[4].lo, c.slots[5].lo, c.slots[6].lo;
            Valid(c) <==>
            && s1 <= 65507 - 148 && s2 <= 65507 - 92 && s3 <= 65507 - 64 && s4 <= 65507 - 32
            && (c.key == ZeroKey() || (s1 >= 12 && s2 >= 12 && s3 >= 12 && s4 >= 12))
            && (c.key == ZeroKey() || c.startup.imitation != Sip || (s1 <= 30 && s2 <= 30 && s3 <= 30 && s4 <= 30))
            && DurationOk(c.slots[12]) && DurationOk(c.slots[13]) && DurationOk(c.slots[14]) && DurationOk(c.slots[15])
  {
    assert Fits(12, c.slots[12]) && Fits(13, c.slots[13]) && Fits(14, c.slots[14]) && Fits(15, c.slots[15]);
  }

  /** A merge keeps the imitation chosen at start, and its junk delay unless that is out of range. */
  lemma MergeKeepsStartup(p: Params, c: Config, mtu: nat)
    requires |c.slots| == SLOTS && |p.slots| == SLOTS && Merged(p, c, mtu).Some?
    ensures var r := Merged(p, c, mtu).value;
            && r.startup == Startup(if c.startup.delay <= 200 then c.startup.delay else 0, c.startup.imitation)
            && r.mtu == mtu
  {
  }

  // ----- staging -----------------------------------------------------------

  /** The last range a transaction gives a slot. */
  function LastSlot(l: seq<Setting>, i: nat): Option<Range>
    decreases |l|
  {
    if l == [] then None
    else if l[|l| - 1].Slot? && l[|l| - 1].i == i then Some(l[|l| - 1].r)
    else LastSlot(l[..|l| - 1], i)
  }

  function LastKey(l: seq<Setting>): Option<seq<Byte>>
    decreases |l|
  {
    if l == [] then None
    else if l[|l| - 1].HeaderKey? then Some(l[|l| - 1].key)
    else LastKey(l[..|l| - 1])
  }

  function LastTrailers(l: seq<Setting>): Option<bool>
    decreases |l|
  {
    if l == [] then None
    else if l[|l| - 1].Trailers? then Some(l[|l| - 1].on)
    else LastTrailers(l[..|l| - 1])
  }

  function LastCookies(l: seq<Setting>): Option<bool>
    decreases |l|
  {
    if l == [] then None
    else if l[|l| - 1].DisableCookies? then Some(l[|l| - 1].on)
    else LastCookies(l[..|l| - 1])
  }

  lemma StageLast(p: Params, l: seq<Setting>)
    requires l != []
    ensures StageAll(p, l) == Stage(StageAll(p, l[..|l| - 1]), l[|l| - 1])
  {
    var most, last := l[..|l| - 1], l[|l| - 1];
    assert l == most + [last];
    StageConcat(p, most, [last]);
    assert [last][1..] == [];
  }

  /** A transaction stages, for each setting, the last value it gives it, and nothing it does not mention. */
  lemma {:induction false} LastMentionWins(l: seq<Setting>, i: nat)
    requires AllGood(l) && i < SLOTS
    ensures var p := StageAll(Nothing(), l);
            && |p.slots| == SLOTS && p.slots[i] == LastSlot(l, i)
            && p.key == LastKey(l) && p.trailers == LastTrailers(l) && p.cookies == LastCookies(l)
            && (p.seen <==> l != [])
    decreases |l|
  {
    if l != [] {
      assert GoodSetting(l[|l| - 1]);
      StageLast(Nothing(), l);
      LastMentionWins(l[..|l| - 1], i);
    }
  }
}
