/**
 * The value grammar of UAPI lines (boringtun/src/device/api.rs, boringtun/src/serialization.rs):
 * unsigned numbers, inclusive ranges, booleans and 32-byte keys, with their rendering. Text is
 * ASCII here; a base64 key is left to the caller.
 */
module UapiText {
  import opened Prelude
  import opened Decimals
  import opened AwgConfig

  /** `split_once`: the parts before and after the first occurrence. */
  function SplitOnce(s: string, c: char): Option<(string, string)> {
    if s == "" then None
    else if s[0] == c then Some(("", s[1..]))
    else
      match SplitOnce(s[1..], c)
      case None => None
      case Some((a, b)) => Some(([s[0]] + a, b))
  }

  lemma {:induction false} SplitFirst(a: string, c: char, b: string)
    requires Lacks(a, c)
    ensures SplitOnce(a + [c] + b, c) == Some((a, b))
  {
    var s := a + [c] + b;
    if a == "" {
      assert s[1..] == b;
    } else {
      SplitFirst(a[1..], c, b);
      assert s[1..] == a[1..] + [c] + b;
      assert [a[0]] + a[1..] == a;
    }
  }

  lemma {:induction false} SplitNone(s: string, c: char)
    requires Lacks(s, c)
    ensures SplitOnce(s, c) == None
  {
    if s != "" {
      SplitNone(s[1..], c);
    }
  }

  // ----- numbers -----------------------------------------------------------

  /** `parse::<u16>` and `parse::<u32>`: an optional plus sign, then digits, below the bound. */
  function ParseUnsigned(s: string, bound: nat): Option<nat> {
    var digits := if s != "" && s[0] == '+' then s[1..] else s;
    if digits != "" && AllDigits(digits) && NumberOf(digits) < bound then Some(NumberOf(digits)) else None
  }

  lemma DecimalHasNo(n: nat, c: char)
    requires !IsDigit(c)
    ensures Lacks(Decimal(n), c)
  {
    DecimalRoundTrip(n);
  }

  lemma NumberRoundTrip(n: nat, bound: nat)
    requires n < bound
    ensures ParseUnsigned(Decimal(n), bound) == Some(n)
  {
    DecimalRoundTrip(n);
  }

  // ----- ranges ------------------------------------------------------------

  /** Unicode white space, as `str::trim` removes it. */
  predicate White(c: char) {
    var u := c as int;
    || 9 <= u <= 13 || u == 32 || u == 0x85 || u == 0xa0 || u == 0x1680 || 0x2000 <= u <= 0x200a
    || u == 0x2028 || u == 0x2029 || u == 0x202f || u == 0x205f || u == 0x3000
  }

  function Trim(s: string): string {
    if s != "" && White(s[0]) then Trim(s[1..])
    else if s != "" && White(s[|s| - 1]) then Trim(s[..|s| - 1])
    else s
  }

  lemma TrimDecimal(n: nat)
    ensures Trim(Decimal(n)) == Decimal(n)
  {
    DecimalRoundTrip(n);
    var s := Decimal(n);
    assert IsDigit(s[0]) && IsDigit(s[|s| - 1]);
  }

  /** `parse_uint_range`: one number, or two around a dash in order. */
  function ParseRange(s: string): (r: Option<Range>)
    ensures r.Some? ==> r.value.lo <= r.value.hi < U32
  {
    var (start, end) :=
      match SplitOnce(s, '-')
      case Some((a, b)) => (ParseUnsigned(Trim(a), U32), ParseUnsigned(Trim(b), U32))
      case None => (ParseUnsigned(Trim(s), U32), ParseUnsigned(Trim(s), U32));
    if start.Some? && end.Some? && start.value <= end.value then Some(Range(start.value, end.value)) else None
  }

  /** `parse_tag_range`: zero would silently mean the plain message type. */
  function ParseTagRange(s: string): Option<Range> {
    var r := ParseRange(s);
    if r.Some? && r.value.lo != 0 then r else None
  }

  function RenderRange(r: Range): string {
    if r.lo == r.hi then Decimal(r.lo) else Decimal(r.lo) + "-" + Decimal(r.hi)
  }

  lemma RangeRoundTrip(r: Range)
    requires r.lo <= r.hi < U32
    ensures ParseRange(RenderRange(r)) == Some(r)
  {
    var lo, hi := Decimal(r.lo), Decimal(r.hi);
    DecimalHasNo(r.lo, '-');
    NumberRoundTrip(r.lo, U32);
    NumberRoundTrip(r.hi, U32);
    TrimDecimal(r.lo);
    TrimDecimal(r.hi);
    if r.lo == r.hi {
      SplitNone(lo, '-');
    } else {
      SplitFirst(lo, '-', hi);
    }
  }

  // ----- the texts a range has ---------------------------------------------

  ghost predicate AllWhite(s: string) { forall i :: 0 <= i < |s| ==> White(s[i]) }

  /** `s[i..j]` lies between white space. */
  ghost predicate Inner(s: string, i: nat, j: nat) { i <= j <= |s| && AllWhite(s[..i]) && AllWhite(s[j..]) }

  /** Digits for `n`, with or without a plus sign. */
  ghost predicate Numeral(t: string, n: nat) {
    exists digits: string ::
      (t == digits || t == "+" + digits) && digits != "" && AllDigits(digits) && NumberOf(digits) == n
  }

  /** A numeral for `n` between white space. */
  ghost predicate Spells(s: string, n: nat) {
    exists i: nat, j: nat :: Inner(s, i, j) && Numeral(s[i..j], n)
  }

  lemma {:induction false} TrimTo(s: string, i: nat, j: nat)
    requires i < j <= |s| && AllWhite(s[..i]) && AllWhite(s[j..]) && !White(s[i]) && !White(s[j - 1])
    ensures Trim(s) == s[i..j]
    decreases |s|
  {
    if i > 0 {
      var t := s[1..];
      assert White(s[..i][0]);
      assert t[..i - 1] == s[..i][1..] && t[j - 1..] == s[j..];
      TrimTo(t, i - 1, j - 1);
      assert t[i - 1..j - 1] == s[i..j];
    } else if j < |s| {
      var t := s[..|s| - 1];
      assert White(s[j..][|s| - 1 - j]);
      assert t[..i] == s[..i] && t[j..] == s[j..][..|s| - 1 - j];
      TrimTo(t, i, j);
      assert t[i..j] == s[i..j];
    }
  }

  lemma WhiteJoin(a: string, b: string)
    requires AllWhite(a) && AllWhite(b)
    ensures AllWhite(a + b)
  {
  }

  lemma InnerAfterFirst(s: string, i: nat, j: nat)
    requires s != "" && White(s[0]) && Inner(s[1..], i, j)
    ensures Inner(s, i + 1, j + 1) && s[i + 1..j + 1] == s[1..][i..j]
  {
    var t := s[1..];
    WhiteJoin([s[0]], t[..i]);
    assert s[..i + 1] == [s[0]] + t[..i];
    assert s[j + 1..] == t[j..];
  }

  lemma InnerBeforeLast(s: string, i: nat, j: nat)
    requires s != "" && White(s[|s| - 1]) && Inner(s[..|s| - 1], i, j)
    ensures Inner(s, i, j) && s[i..j] == s[..|s| - 1][i..j]
  {
    var t := s[..|s| - 1];
    WhiteJoin(t[j..], [s[|s| - 1]]);
    assert s[..i] == t[..i];
    assert s[j..] == t[j..] + [s[|s| - 1]];
  }

  lemma {:induction false} TrimFrom(s: string) returns (i: nat, j: nat)
    ensures Inner(s, i, j) && Trim(s) == s[i..j]
    decreases |s|
  {
    if s != "" && White(s[0]) {
      var a, b := TrimFrom(s[1..]);
      InnerAfterFirst(s, a, b);
      i, j := a + 1, b + 1;
    } else if s != "" && White(s[|s| - 1]) {
      i, j := TrimFrom(s[..|s| - 1]);
      InnerBeforeLast(s, i, j);
    } else {
      i, j := 0, |s|;
    }
  }

  lemma UnsignedIsNumeral(t: string, n: nat, bound: nat)
    ensures ParseUnsigned(t, bound) == Some(n) <==> n < bound && Numeral(t, n)
  {
    if ParseUnsigned(t, bound) == Some(n) {
      var digits := if t[0] == '+' then t[1..] else t;
      assert t == digits || t == "+" + digits;
    }
    if Numeral(t, n) {
      var digits: string :|
        (t == digits || t == "+" + digits) && digits != "" && AllDigits(digits) && NumberOf(digits) == n;
      assert IsDigit(digits[0]);
      assert t[1..] == digits || t[0] != '+';
    }
  }

  lemma NumeralEnds(t: string, n: nat)
    requires Numeral(t, n)
    ensures t != "" && !White(t[0]) && !White(t[|t| - 1])
  {
    var digits: string :|
      (t == digits || t == "+" + digits) && digits != "" && AllDigits(digits) && NumberOf(digits) == n;
    assert IsDigit(digits[0]) && IsDigit(digits[|digits| - 1]);
  }

  lemma SpelledIsTrimmed(s: string, n: nat)
    requires Spells(s, n)
    ensures Numeral(Trim(s), n)
  {
    var i: nat, j: nat :| Inner(s, i, j) && Numeral(s[i..j], n);
    var t := s[i..j];
    NumeralEnds(t, n);
    assert t[0] == s[i] && t[|t| - 1] == s[j - 1];
    TrimTo(s, i, j);
  }

  lemma NumeralIsSpelled(s: string, n: nat)
    requires Numeral(Trim(s), n)
    ensures Spells(s, n)
  {
    var i, j := TrimFrom(s);
    assert Numeral(s[i..j], n);
  }

  lemma TrimmedIsSpelled(s: string, n: nat, bound: nat)
    ensures ParseUnsigned(Trim(s), bound) == Some(n) <==> n < bound && Spells(s, n)
  {
    UnsignedIsNumeral(Trim(s), n, bound);
    if Numeral(Trim(s), n) {
      NumeralIsSpelled(s, n);
    }
    if Spells(s, n) {
      SpelledIsTrimmed(s, n);
    }
  }

  lemma {:induction false} SplitAt(s: string, c: char) returns (k: nat)
    ensures k <= |s| && Lacks(s[..k], c)
    ensures SplitOnce(s, c) == if k < |s| then Some((s[..k], s[k + 1..])) else None
    ensures k < |s| ==> s[k] == c
    decreases |s|
  {
    if s == "" || s[0] == c {
      k := 0;
    } else {
      var m := SplitAt(s[1..], c);
      k := m + 1;
      assert s[..k] == [s[0]] + s[1..][..m];
    }
  }

  /** The texts of a range: one number, or two around the first dash, white space anywhere beside them. */
  ghost predicate RangeText(s: string, r: Range) {
    || (Lacks(s, '-') && r.lo == r.hi && Spells(s, r.lo))
    || (exists k :: 0 <= k < |s| && s[k] == '-' && Lacks(s[..k], '-') && Spells(s[..k], r.lo) && Spells(s[k + 1..], r.hi))
  }

  lemma TextAtDash(s: string, k: nat, r: Range)
    requires k < |s| && s[k] == '-' && Lacks(s[..k], '-')
    ensures RangeText(s, r) <==> Spells(s[..k], r.lo) && Spells(s[k + 1..], r.hi)
  {
    assert forall i :: 0 <= i < k ==> s[..k][i] == s[i];
    forall j | 0 <= j < |s| && s[j] == '-' && Lacks(s[..j], '-') ensures j == k {
      assert forall i :: 0 <= i < j ==> s[..j][i] == s[i];
    }
  }

  lemma ParseAtDash(s: string, k: nat, r: Range)
    requires k < |s| && SplitOnce(s, '-') == Some((s[..k], s[k + 1..]))
    ensures ParseRange(s) == Some(r) <==> r.lo <= r.hi < U32 && Spells(s[..k], r.lo) && Spells(s[k + 1..], r.hi)
  {
    TrimmedIsSpelled(s[..k], r.lo, U32);
    TrimmedIsSpelled(s[k + 1..], r.hi, U32);
  }

  lemma ParseWithoutDash(s: string, r: Range)
    requires SplitOnce(s, '-') == None
    ensures ParseRange(s) == Some(r) <==> r.lo == r.hi < U32 && Spells(s, r.lo)
  {
    TrimmedIsSpelled(s, r.lo, U32);
  }

  /** `parse_uint_range` accepts exactly the texts of ranges in order and within 32 bits. */
  lemma RangeExactly(s: string, r: Range)
    ensures ParseRange(s) == Some(r) <==> r.lo <= r.hi < U32 && RangeText(s, r)
  {
    var k := SplitAt(s, '-');
    if k < |s| {
      TextAtDash(s, k, r);
      ParseAtDash(s, k, r);
    } else {
      assert s[..k] == s;
      ParseWithoutDash(s, r);
    }
  }

  // ----- booleans ----------------------------------------------------------

  /** `parse_go_bool`. */
  function ParseGoBool(s: string): Option<bool> {
    if s in {"0", "f", "F", "false", "FALSE", "False"} then Some(false)
    else if s in {"1", "t", "T", "true", "TRUE", "True"} then Some(true)
    else None
  }

  // ----- keepalive intervals -----------------------------------------------

  /** `normalize_persistent_keepalive_range` for bounds in order. */
  function NormalKeepalive(r: Range): Range
    requires r.lo <= r.hi
  {
    var lo, hi := Min(r.lo, U16 - 1), Min(r.hi, U16 - 1);
    if r.lo == r.hi then Range(lo, lo) else Range(if lo == 0 then 1 else lo, hi)
  }

  function ParseKeepalive(s: string): Option<Range> {
    var r := ParseRange(s);
    if r.None? then None else Some(NormalKeepalive(r.value))
  }

  /** `keepalive_interval_value` of what a peer stores; off is not shown. */
  function KeepaliveValue(r: Range): Option<string> { if r == One(0) then None else Some(RenderRange(r)) }

  /** What `get=1` shows for an accepted interval is accepted as that interval, and zero alone is off. */
  lemma KeepaliveRoundTrip(s: string)
    requires ParseKeepalive(s).Some?
    ensures var r := ParseKeepalive(s).value;
            && r.lo <= r.hi < U16
            && (KeepaliveValue(r).None? <==> ParseRange(s) == Some(One(0)))
            && (KeepaliveValue(r).Some? ==> r.lo >= 1 && ParseKeepalive(KeepaliveValue(r).value) == Some(r))
  {
    RangeRoundTrip(ParseKeepalive(s).value);
  }

  // ----- keys --------------------------------------------------------------

  function HexChar(v: nat): char
    requires v < 16
  {
    if v < 10 then '0' + v as char else 'a' + (v - 10) as char
  }

  function HexValue(c: char): (v: Option<nat>)
    ensures v.Some? ==> v.value < 16
  {
    if '0' <= c <= '9' then Some((c - '0') as int)
    else if 'a' <= c <= 'f' then Some((c - 'a') as int + 10)
    else if 'A' <= c <= 'F' then Some((c - 'A') as int + 10)
    else None
  }

  /** `u8::from_str_radix` on two characters, which takes a leading plus sign. */
  function PairValue(a: char, b: char): Option<Byte> {
    if a == '+' then
      match HexValue(b)
      case None => None
      case Some(v) => Some(v)
    else if HexValue(a).Some? && HexValue(b).Some? then Some(HexValue(a).value * 16 + HexValue(b).value)
    else None
  }

  /** The bytes in the first `n` pairs. */
  function HexBytes(s: string, n: nat): Option<seq<Byte>>
    requires 2 * n <= |s|
  {
    if n == 0 then Some([])
    else if HexBytes(s, n - 1).None? || PairValue(s[2 * n - 2], s[2 * n - 1]).None? then None
    else Some(HexBytes(s, n - 1).value + [PairValue(s[2 * n - 2], s[2 * n - 1]).value])
  }

  /** `KeyBytes::from_str`; `base64` is what the 43- and 44-character forms decode to, if to 32 bytes. */
  function ParseKey(s: string, base64: string -> Option<seq<Byte>>): (r: Option<seq<Byte>>)
    ensures r.Some? ==> |r.value| == 32
  {
    if |s| == 64 then
      HexBytesLength(s, 32);
      HexBytes(s, 32)
    else if |s| == 43 || |s| == 44 then
      if base64(s).Some? && |base64(s).value| == 32 then base64(s) else None
    else None
  }

  lemma {:induction false} HexBytesLength(s: string, n: nat)
    requires 2 * n <= |s|
    ensures HexBytes(s, n).Some? ==> |HexBytes(s, n).value| == n
  {
    if n > 0 {
      HexBytesLength(s, n - 1);
    }
  }

  /** A hexadecimal digit in either case. */
  predicate HexDigit(c: char, v: nat) {
    v < 16 && (c == "0123456789abcdef"[v] || c == "0123456789ABCDEF"[v])
  }

  /** Two digits, or a plus sign and one. */
  ghost predicate HexPair(a: char, b: char, v: nat) {
    || (a == '+' && HexDigit(b, v))
    || (exists hi: nat, lo: nat :: HexDigit(a, hi) && HexDigit(b, lo) && v == 16 * hi + lo)
  }

  lemma HexValueExactly(c: char, v: nat)
    ensures HexValue(c) == Some(v) <==> HexDigit(c, v)
  {
  }

  lemma PairExactly(a: char, b: char, v: Byte)
    ensures PairValue(a, b) == Some(v) <==> HexPair(a, b, v)
  {
    forall x: nat ensures HexValue(a) == Some(x) <==> HexDigit(a, x) {
      HexValueExactly(a, x);
    }
    forall x: nat ensures HexValue(b) == Some(x) <==> HexDigit(b, x) {
      HexValueExactly(b, x);
    }
    if PairValue(a, b) == Some(v) && a != '+' {
      assert HexDigit(a, HexValue(a).value) && HexDigit(b, HexValue(b).value);
    }
  }

  /** The pair at place `i` of a text stands for `v`. */
  ghost predicate PairAt(s: string, i: nat, v: Byte) { 2 * i + 1 < |s| && HexPair(s[2 * i], s[2 * i + 1], v) }

  lemma LastPairAt(s: string, n: nat, last: Byte)
    requires 0 < n && 2 * n <= |s|
    ensures PairAt(s, n - 1, last) <==> PairValue(s[2 * n - 2], s[2 * n - 1]) == Some(last)
  {
    assert 2 * (n - 1) == 2 * n - 2;
    PairExactly(s[2 * n - 2], s[2 * n - 1], last);
  }

  lemma LastPair(s: string, n: nat, most: seq<Byte>, last: Byte)
    requires 0 < n && 2 * n <= |s| && |most| == n - 1
    ensures HexBytes(s, n) == Some(most + [last]) <==>
            HexBytes(s, n - 1) == Some(most) && PairValue(s[2 * n - 2], s[2 * n - 1]) == Some(last)
  {
    var before, pair := HexBytes(s, n - 1), PairValue(s[2 * n - 2], s[2 * n - 1]);
    HexBytesLength(s, n - 1);
    if before.Some? && pair.Some? {
      SameEnds(before.value, pair.value, most, last);
    }
  }

  lemma SameEnds(a: seq<Byte>, x: Byte, b: seq<Byte>, y: Byte)
    requires |a| == |b|
    ensures a + [x] == b + [y] <==> a == b && x == y
  {
    if a + [x] == b + [y] {
      assert a == (a + [x])[..|a|] == b;
      assert x == (a + [x])[|a|] == y;
    }
  }

  lemma {:induction false} HexBytesExactly(s: string, n: nat, bytes: seq<Byte>)
    requires 2 * n <= |s| && |bytes| == n
    ensures HexBytes(s, n) == Some(bytes) <==> forall i :: 0 <= i < n ==> PairAt(s, i, bytes[i])
  {
    if n > 0 {
      var most := bytes[..n - 1];
      assert bytes == most + [bytes[n - 1]];
      LastPair(s, n, most, bytes[n - 1]);
      LastPairAt(s, n, bytes[n - 1]);
      HexBytesExactly(s, n - 1, most);
    }
  }

  /** A key is read from exactly its 64 hexadecimal digits, in either case, or a base64 form of 32 bytes. */
  lemma KeyExactly(s: string, base64: string -> Option<seq<Byte>>, key: seq<Byte>)
    ensures ParseKey(s, base64) == Some(key) <==>
            && |key| == 32
            && if |s| == 64 then forall i :: 0 <= i < 32 ==> PairAt(s, i, key[i])
               else |s| in {43, 44} && base64(s) == Some(key)
  {
    if |s| == 64 && |key| == 32 {
      HexBytesExactly(s, 32, key);
    }
  }

  function HexOf(key: seq<Byte>): string {
    if key == [] then "" else HexOf(key[..|key| - 1]) + [HexChar(key[|key| - 1] / 16), HexChar(key[|key| - 1] % 16)]
  }

  predicate PlainText(s: string) { forall i :: 0 <= i < |s| ==> IsDigit(s[i]) || 'a' <= s[i] <= 'f' }

  lemma HexCharValue(v: nat)
    requires v < 16
    ensures HexValue(HexChar(v)) == Some(v) && HexChar(v) != '+' && (IsDigit(HexChar(v)) || 'a' <= HexChar(v) <= 'f')
  {
  }

  lemma {:induction false} HexShape(key: seq<Byte>)
    ensures |HexOf(key)| == 2 * |key| && PlainText(HexOf(key))
  {
    if key != [] {
      HexShape(key[..|key| - 1]);
      HexCharValue(key[|key| - 1] / 16);
      HexCharValue(key[|key| - 1] % 16);
    }
  }

  lemma {:induction false} HexBytesPrefix(s: string, more: string, n: nat)
    requires 2 * n <= |s|
    ensures HexBytes(s + more, n) == HexBytes(s, n)
  {
    if n > 0 {
      HexBytesPrefix(s, more, n - 1);
    }
  }

  lemma PairOfByte(v: Byte)
    ensures PairValue(HexChar(v / 16), HexChar(v % 16)) == Some(v)
  {
    HexCharValue(v / 16);
    HexCharValue(v % 16);
  }

  lemma HexStep(front: string, a: char, b: char, n: nat)
    requires |front| == 2 * n && HexBytes(front, n).Some? && PairValue(a, b).Some?
    ensures HexBytes(front + [a, b], n + 1) == Some(HexBytes(front, n).value + [PairValue(a, b).value])
  {
    HexBytesPrefix(front, [a, b], n);
  }

  lemma {:induction false} HexRoundTrip(key: seq<Byte>)
    ensures |HexOf(key)| == 2 * |key| && HexBytes(HexOf(key), |key|) == Some(key)
  {
    HexShape(key);
    if key != [] {
      var front, last := key[..|key| - 1], key[|key| - 1];
      HexRoundTrip(front);
      PairOfByte(last);
      HexStep(HexOf(front), HexChar(last / 16), HexChar(last % 16), |front|);
      assert front + [last] == key;
    }
  }

  /** A key survives being printed in hex. */
  lemma KeyRoundTrip(key: seq<Byte>, base64: string -> Option<seq<Byte>>)
    requires |key| == 32
    ensures ParseKey(HexOf(key), base64) == Some(key)
  {
    HexRoundTrip(key);
  }

  lemma HexBytesNext(s: string, n: nat, done: seq<Byte>)
    requires 2 * n + 2 <= |s| && HexBytes(s, n) == Some(done)
    ensures HexBytes(s, n + 1) == match PairValue(s[2 * n], s[2 * n + 1])
                                  case None => None
                                  case Some(v) => Some(done + [v])
  {
  }

  /** The hex branch of `KeyBytes::from_str`, filling its array pair by pair. */
  method KeyFromHex(s: string) returns (key: Option<seq<Byte>>)
    requires |s| == 64
    ensures key == HexBytes(s, 32)
  {
    var bytes := new Byte[32](_ => 0);
    var i := 0;
    while i < 32
      invariant 0 <= i <= 32
      invariant HexBytes(s, i) == Some(bytes[..i])
    {
      var v := PairValue(s[2 * i], s[2 * i + 1]);
      if v.None? {
        HexBytesNext(s, i, bytes[..i]);
        HexBytesStops(s, i + 1, 32);
        return None;
      }
      ghost var done := bytes[..i];
      bytes[i] := v.value;
      assert bytes[..i + 1] == done + [v.value];
      HexBytesNext(s, i, done);
      i := i + 1;
    }
    assert bytes[..i] == bytes[..];
    return Some(bytes[..]);
  }

  lemma {:induction false} HexBytesStops(s: string, n: nat, m: nat)
    requires n <= m && 2 * m <= |s| && HexBytes(s, n).None?
    ensures HexBytes(s, m).None?
  {
    if n < m {
      HexBytesStops(s, n, m - 1);
    }
  }
}
