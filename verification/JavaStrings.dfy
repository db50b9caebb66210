/**
 * Java strings crossing into native code (`strict_java_string`, boringtun/src/jni.rs): modified
 * UTF-8 bytes (section 4.4.7 of the Java Virtual Machine Specification) decoded to UTF-16 units
 * and those to Unicode scalar values (section 2.2 of RFC 2781), refusing U+0000 and unpaired
 * surrogates. Masks and shifts are written as remainders, quotients and products by powers of
 * two, and an `or` of disjoint bits as a sum.
 */
module JavaStrings {
  import opened Prelude

  type Unit = u: int | 0 <= u < 0x1_0000

  type Code = c: int | 0 <= c < 0x1_0000_0000

  datatype Result = Ok(scalars: seq<Code>) | Nul | NotUnicode

  // ----- decoding ----------------------------------------------------------

  predicate Continuation(m: seq<Byte>, i: nat) { i < |m| && m[i] / 0x40 == 2 }

  /** The unit in a two-byte spelling. */
  function Two(a: int, b: int): (u: Unit)
    ensures u < 0x800
  {
    a % 0x20 * 0x40 + b % 0x40
  }

  /** The unit in a three-byte spelling. */
  function Three(a: int, b: int, c: int): Unit { a % 0x10 * 0x1000 + b % 0x40 * 0x40 + c % 0x40 }

  datatype Group = Bad | Group(unit: Unit, len: nat)

  /** The unit spelled at an index, and how many bytes spell it. */
  function GroupAt(m: seq<Byte>, i: nat): (g: Group)
    requires i < |m|
    ensures g.Group? ==> 1 <= g.len <= 3 && i + g.len <= |m|
  {
    if 0x01 <= m[i] <= 0x7f then Group(m[i], 1)
    else if 0xc0 <= m[i] <= 0xdf && Continuation(m, i + 1) then
      Group(Two(m[i], m[i + 1]), 2)
    else if 0xe0 <= m[i] <= 0xef && Continuation(m, i + 1) && Continuation(m, i + 2) then
      Group(Three(m[i], m[i + 1], m[i + 2]), 3)
    else Bad
  }

  /** The units spelled from an index on, or nothing when some bytes spell none. */
  function UnitsFrom(m: seq<Byte>, i: nat): Option<seq<Unit>>
    requires i <= |m|
    decreases |m| - i
  {
    if i == |m| then Some([])
    else
      match GroupAt(m, i)
      case Bad => None
      case Group(unit, len) =>
        var rest := UnitsFrom(m, i + len);
        if rest.None? then None else Some([unit] + rest.value)
  }

  predicate High(u: Unit) { 0xd800 <= u <= 0xdbff }

  predicate Low(u: Unit) { 0xdc00 <= u <= 0xdfff }

  function Joined(high: Unit, low: Unit): Code {
    0x1_0000 + high % 0x400 * 0x400 + low % 0x400
  }

  /** `String::from_utf16`. */
  function FromUtf16(units: seq<Unit>): Option<seq<Code>> {
    if units == [] then Some([])
    else if High(units[0]) && |units| > 1 && Low(units[1]) then
      var rest := FromUtf16(units[2..]);
      if rest.None? then None else Some([Joined(units[0], units[1])] + rest.value)
    else if High(units[0]) || Low(units[0]) then None
    else
      var rest := FromUtf16(units[1..]);
      if rest.None? then None else Some([units[0]] + rest.value)
  }

  predicate HasZero(units: seq<Unit>) { exists i :: 0 <= i < |units| && units[i] == 0 }

  function Judge(units: seq<Unit>): Result {
    if HasZero(units) then Nul
    else
      match FromUtf16(units)
      case None => NotUnicode
      case Some(scalars) => Ok(scalars)
  }

  function Strict(m: seq<Byte>): Result {
    match UnitsFrom(m, 0)
    case None => NotUnicode
    case Some(units) => Judge(units)
  }

  // ----- what a JVM produces -----------------------------------------------

  /** One UTF-16 unit in modified UTF-8; zero takes the two-byte form. */
  function EncodeUnit(u: Unit): (e: seq<Byte>)
    ensures 1 <= |e| <= 3
  {
    if 0x01 <= u <= 0x7f then [u]
    else if u <= 0x7ff then [0xc0 + u / 0x40, 0x80 + u % 0x40]
    else [0xe0 + u / 0x1000, 0x80 + u / 0x40 % 0x40, 0x80 + u % 0x40]
  }

  function Encode(units: seq<Unit>): seq<Byte> {
    if units == [] then [] else EncodeUnit(units[0]) + Encode(units[1..])
  }

  lemma TwoSpelled(u: int)
    requires 0 <= u <= 0x7ff
    ensures 0xc0 <= 0xc0 + u / 0x40 <= 0xdf && (0x80 + u % 0x40) / 0x40 == 2
    ensures Two(0xc0 + u / 0x40, 0x80 + u % 0x40) == u
  {
  }

  lemma ThreeSpelled(u: int)
    requires 0 <= u <= 0xffff
    ensures 0xe0 <= 0xe0 + u / 0x1000 <= 0xef
    ensures (0x80 + u / 0x40 % 0x40) / 0x40 == 2 && (0x80 + u % 0x40) / 0x40 == 2
    ensures Three(0xe0 + u / 0x1000, 0x80 + u / 0x40 % 0x40, 0x80 + u % 0x40) == u
  {
  }

  lemma EncodedGroup(u: Unit, rest: seq<Byte>)
    ensures GroupAt(EncodeUnit(u) + rest, 0) == Group(u, |EncodeUnit(u)|)
  {
    if 0x01 <= u <= 0x7f {
    } else if u <= 0x7ff {
      TwoSpelled(u);
    } else {
      ThreeSpelled(u);
    }
  }

  lemma GroupAtDrop(m: seq<Byte>, n: nat, i: nat)
    requires n + i < |m|
    ensures GroupAt(m[n..], i) == GroupAt(m, n + i)
  {
  }

  lemma {:induction false} UnitsFromDrop(m: seq<Byte>, n: nat, i: nat)
    requires n + i <= |m|
    ensures UnitsFrom(m[n..], i) == UnitsFrom(m, n + i)
    decreases |m| - i
  {
    if n + i < |m| {
      GroupAtDrop(m, n, i);
      var g := GroupAt(m, n + i);
      if g.Group? {
        UnitsFromDrop(m, n, i + g.len);
      }
    }
  }

  /** Every sequence of UTF-16 units survives the encoding. */
  lemma {:induction false} UnitsOfEncode(units: seq<Unit>)
    ensures UnitsFrom(Encode(units), 0) == Some(units)
  {
    if units != [] {
      var first, rest := EncodeUnit(units[0]), Encode(units[1..]);
      EncodedGroup(units[0], rest);
      UnitsOfEncode(units[1..]);
      UnitsFromDrop(first + rest, |first|, 0);
      assert (first + rest)[|first|..] == rest;
      assert [units[0]] + units[1..] == units;
    }
  }

  lemma TwoIsSpelled(a: int, b: int)
    requires 0xc0 <= a <= 0xdf && b / 0x40 == 2
    ensures a == 0xc0 + Two(a, b) / 0x40 && b == 0x80 + Two(a, b) % 0x40
  {
    assert a % 0x20 == a - 0xc0 && b % 0x40 == b - 0x80;
  }

  lemma ThreeIsSpelled(a: int, b: int, c: int)
    requires 0xe0 <= a <= 0xef && b / 0x40 == 2 && c / 0x40 == 2
    ensures var u := Three(a, b, c);
            a == 0xe0 + u / 0x1000 && b == 0x80 + u / 0x40 % 0x40 && c == 0x80 + u % 0x40
  {
    assert a % 0x10 == a - 0xe0 && b % 0x40 == b - 0x80 && c % 0x40 == c - 0x80;
    var u := Three(a, b, c);
    assert u / 0x40 == (a - 0xe0) * 0x40 + (b - 0x80);
  }

  lemma GroupIsNoShorter(m: seq<Byte>, i: nat)
    requires i < |m| && GroupAt(m, i).Group?
    ensures var g := GroupAt(m, i);
            && |EncodeUnit(g.unit)| <= g.len
            && (|EncodeUnit(g.unit)| == g.len ==> m[i..i + g.len] == EncodeUnit(g.unit))
  {
    var g := GroupAt(m, i);
    if g.len == 2 {
      TwoIsSpelled(m[i], m[i + 1]);
    } else if g.len == 3 {
      ThreeIsSpelled(m[i], m[i + 1], m[i + 2]);
    }
  }

  /**
   * The decoder also reads longer spellings of a unit, but the JVM's is the one shortest: bytes
   * that decode to some units are no shorter than their encoding, and as short only when they
   * are that encoding.
   */
  lemma {:induction false} ShortestSpelling(m: seq<Byte>, i: nat)
    requires i <= |m| && UnitsFrom(m, i).Some?
    ensures |Encode(UnitsFrom(m, i).value)| <= |m| - i
    ensures |Encode(UnitsFrom(m, i).value)| == |m| - i <==> m[i..] == Encode(UnitsFrom(m, i).value)
    decreases |m| - i
  {
    if i < |m| {
      var g := GroupAt(m, i);
      var rest := UnitsFrom(m, i + g.len).value;
      var units := [g.unit] + rest;
      GroupIsNoShorter(m, i);
      ShortestSpelling(m, i + g.len);
      assert units[1..] == rest;
      assert m[i..] == m[i..i + g.len] + m[i + g.len..];
    }
  }

  // ----- surrogates --------------------------------------------------------

  /** A surrogate without its other half: section 2.2 of RFC 2781. */
  predicate Unpaired(units: seq<Unit>, i: nat)
    requires i < |units|
  {
    || (High(units[i]) && !(i + 1 < |units| && Low(units[i + 1])))
    || (Low(units[i]) && !(i > 0 && High(units[i - 1])))
  }

  predicate AllPaired(units: seq<Unit>) { forall i :: 0 <= i < |units| ==> !Unpaired(units, i) }

  lemma AllPairedDrop(units: seq<Unit>, n: nat)
    requires 0 < n <= |units| && !High(units[n - 1])
    requires forall i :: 0 <= i < n ==> !Unpaired(units, i)
    ensures AllPaired(units) <==> AllPaired(units[n..])
  {
    var rest := units[n..];
    forall i | 0 <= i < |rest| ensures Unpaired(rest, i) <==> Unpaired(units, n + i) {
      if i > 0 {
        assert rest[i - 1] == units[n + i - 1];
      }
    }
    if AllPaired(rest) {
      forall i | n <= i < |units| ensures !Unpaired(units, i) {
        assert !Unpaired(rest, i - n);
      }
    }
  }

  /** UTF-16 has a meaning exactly when no surrogate is unpaired. */
  lemma {:induction false} MeaningNeedsPairs(units: seq<Unit>)
    ensures FromUtf16(units).Some? <==> AllPaired(units)
  {
    if units == [] {
    } else if High(units[0]) && |units| > 1 && Low(units[1]) {
      AllPairedDrop(units, 2);
      MeaningNeedsPairs(units[2..]);
    } else if High(units[0]) || Low(units[0]) {
      assert Unpaired(units, 0);
    } else {
      AllPairedDrop(units, 1);
      MeaningNeedsPairs(units[1..]);
    }
  }

  predicate Scalar(c: Code) { c <= 0xd7ff || 0xe000 <= c <= 0x10ffff }

  predicate AllScalars(s: seq<Code>) { forall i :: 0 <= i < |s| ==> Scalar(s[i]) }

  /** The UTF-16 form of one scalar value. */
  function Utf16Unit(c: Code): seq<Unit>
    requires Scalar(c)
  {
    if c <= 0xffff then [c]
    else [0xd800 + (c - 0x1_0000) / 0x400, 0xdc00 + (c - 0x1_0000) % 0x400]
  }

  function Utf16(s: seq<Code>): seq<Unit>
    requires AllScalars(s)
  {
    if s == [] then [] else Utf16Unit(s[0]) + Utf16(s[1..])
  }

  lemma JoinedSplits(high: Unit, low: Unit)
    requires High(high) && Low(low)
    ensures Scalar(Joined(high, low)) && Joined(high, low) > 0xffff && Utf16Unit(Joined(high, low)) == [high, low]
  {
  }

  lemma SplitJoins(c: Code)
    requires Scalar(c) && c > 0xffff
    ensures High(Utf16Unit(c)[0]) && Low(Utf16Unit(c)[1]) && Joined(Utf16Unit(c)[0], Utf16Unit(c)[1]) == c
  {
  }

  lemma {:induction false} Utf16OfMeaning(units: seq<Unit>)
    requires FromUtf16(units).Some?
    ensures AllScalars(FromUtf16(units).value) && Utf16(FromUtf16(units).value) == units
  {
    if units != [] {
      var s := FromUtf16(units).value;
      if High(units[0]) && |units| > 1 && Low(units[1]) {
        Utf16OfMeaning(units[2..]);
        JoinedSplits(units[0], units[1]);
        assert s[1..] == FromUtf16(units[2..]).value;
        assert [units[0], units[1]] + units[2..] == units;
      } else {
        Utf16OfMeaning(units[1..]);
        assert s[1..] == FromUtf16(units[1..]).value;
        assert [units[0]] + units[1..] == units;
      }
    }
  }

  lemma {:induction false} MeaningOfUtf16(s: seq<Code>)
    requires AllScalars(s)
    ensures FromUtf16(Utf16(s)) == Some(s)
  {
    if s != [] {
      MeaningOfUtf16(s[1..]);
      var rest := Utf16(s[1..]);
      var units := Utf16(s);
      if s[0] <= 0xffff {
        assert units[1..] == rest;
      } else {
        SplitJoins(s[0]);
        assert units[2..] == rest;
      }
      assert [s[0]] + s[1..] == s;
    }
  }

  // ----- the promise -------------------------------------------------------

  /**
   * For every Java string: a U+0000 anywhere is reported, beside an unpaired surrogate too;
   * otherwise an unpaired surrogate is; otherwise the result is the text the units mean.
   */
  lemma EveryJavaString(units: seq<Unit>)
    ensures var r := Strict(Encode(units));
            && (r.Nul? <==> HasZero(units))
            && (r.NotUnicode? <==> !HasZero(units) && !AllPaired(units))
            && (r.Ok? ==> AllScalars(r.scalars) && Utf16(r.scalars) == units)
  {
    UnitsOfEncode(units);
    MeaningNeedsPairs(units);
    if AllPaired(units) {
      Utf16OfMeaning(units);
    }
  }

  lemma {:induction false} ZeroIsAScalar(s: seq<Code>)
    requires AllScalars(s)
    ensures HasZero(Utf16(s)) <==> exists i :: 0 <= i < |s| && s[i] == 0
  {
    if s != [] {
      ZeroIsAScalar(s[1..]);
      var head, rest := Utf16Unit(s[0]), Utf16(s[1..]);
      assert s == [s[0]] + s[1..];
      if s[0] == 0 {
        assert Utf16(s)[0] == 0;
      } else {
        HeadIsNotZero(s[0]);
        ZeroDrop(head, rest);
        if exists i :: 0 <= i < |s| && s[i] == 0 {
          var i :| 0 <= i < |s| && s[i] == 0;
          assert s[1..][i - 1] == 0;
        }
      }
    }
  }

  lemma HeadIsNotZero(c: Code)
    requires Scalar(c) && c != 0
    ensures !HasZero(Utf16Unit(c))
  {
  }

  lemma ZeroDrop(head: seq<Unit>, rest: seq<Unit>)
    requires !HasZero(head)
    ensures HasZero(head + rest) <==> HasZero(rest)
  {
    if HasZero(rest) {
      var i :| 0 <= i < |rest| && rest[i] == 0;
      assert (head + rest)[|head| + i] == 0;
    }
  }

  /** Every text without U+0000 comes back from its Java string unchanged. */
  lemma TextRoundTrip(s: seq<Code>)
    requires AllScalars(s)
    ensures Strict(Encode(Utf16(s))) == if exists i :: 0 <= i < |s| && s[i] == 0 then Nul else Ok(s)
  {
    UnitsOfEncode(Utf16(s));
    MeaningOfUtf16(s);
    ZeroIsAScalar(s);
  }

  // ----- the loop ----------------------------------------------------------

  lemma UnitsFromStep(m: seq<Byte>, i: nat)
    requires i < |m|
    ensures GroupAt(m, i).Bad? ==> UnitsFrom(m, i).None?
    ensures GroupAt(m, i).Group? ==>
              UnitsFrom(m, i) == Prepend([GroupAt(m, i).unit], UnitsFrom(m, i + GroupAt(m, i).len))
  {
  }

  function Prepend(units: seq<Unit>, rest: Option<seq<Unit>>): Option<seq<Unit>> {
    if rest.None? then None else Some(units + rest.value)
  }

  lemma PrependNothing(rest: Option<seq<Unit>>)
    ensures Prepend([], rest) == rest
  {
    assert rest.Some? ==> [] + rest.value == rest.value;
  }

  lemma PrependOne(units: seq<Unit>, unit: Unit, rest: Option<seq<Unit>>)
    ensures Prepend(units, Prepend([unit], rest)) == Prepend(units + [unit], rest)
  {
    assert rest.Some? ==> units + ([unit] + rest.value) == units + [unit] + rest.value;
  }

  method StrictJavaString(mutf8: seq<Byte>) returns (r: Result)
    ensures r == Strict(mutf8)
  {
    var units: seq<Unit> := [];
    var i := 0;
    PrependNothing(UnitsFrom(mutf8, 0));
    while i < |mutf8|
      invariant i <= |mutf8|
      invariant UnitsFrom(mutf8, 0) == Prepend(units, UnitsFrom(mutf8, i))
    {
      var unit: Unit, len := 0, 0;
      UnitsFromStep(mutf8, i);
      if 0x01 <= mutf8[i] <= 0x7f {
        unit, len := mutf8[i], 1;
      } else if 0xc0 <= mutf8[i] <= 0xdf && Continuation(mutf8, i + 1) {
        unit, len := Two(mutf8[i], mutf8[i + 1]), 2;
      } else if 0xe0 <= mutf8[i] <= 0xef && Continuation(mutf8, i + 1) && Continuation(mutf8, i + 2) {
        unit, len := Three(mutf8[i], mutf8[i + 1], mutf8[i + 2]), 3;
      } else {
        return NotUnicode;
      }
      assert GroupAt(mutf8, i) == Group(unit, len);
      PrependOne(units, unit, UnitsFrom(mutf8, i + len));
      units := units + [unit];
      i := i + len;
    }
    assert units + [] == units;
    assert UnitsFrom(mutf8, 0) == Some(units);
    if HasZero(units) {
      return Nul;
    }
    var text := FromUtf16(units);
    return if text.None? then NotUnicode else Ok(text.value);
  }
}
