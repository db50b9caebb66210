/** Standard base64 with padding (section 4 of RFC 4648), as release bodies carry a descriptor. */
module Base64 {
  import opened Prelude

  type Sextet = x: int | 0 <= x < 64

  function Letter(v: Sextet): char {
    if v < 26 then 'A' + v as char
    else if v < 52 then 'a' + (v - 26) as char
    else if v < 62 then '0' + (v - 52) as char
    else if v == 62 then '+' else '/'
  }

  function Value(c: char): Option<Sextet> {
    if 'A' <= c <= 'Z' then Some((c - 'A') as int)
    else if 'a' <= c <= 'z' then Some((c - 'a') as int + 26)
    else if '0' <= c <= '9' then Some((c - '0') as int + 52)
    else if c == '+' then Some(62)
    else if c == '/' then Some(63)
    else None
  }

  lemma LetterValue(v: Sextet)
    ensures Value(Letter(v)) == Some(v)
  {
  }

  function EncodeGroup(a: Byte, b: Byte, c: Byte): string {
    [Letter(a / 4), Letter(a % 4 * 16 + b / 16), Letter(b % 16 * 4 + c / 64), Letter(c % 64)]
  }

  function Encode(bytes: seq<Byte>): string
    decreases |bytes|
  {
    if |bytes| == 0 then ""
    else if |bytes| == 1 then [Letter(bytes[0] / 4), Letter(bytes[0] % 4 * 16), '=', '=']
    else if |bytes| == 2 then
      [Letter(bytes[0] / 4), Letter(bytes[0] % 4 * 16 + bytes[1] / 16), Letter(bytes[1] % 16 * 4), '=']
    else EncodeGroup(bytes[0], bytes[1], bytes[2]) + Encode(bytes[3..])
  }

  /** The bytes of one group of four letters; `two` and `one` say which of the last letters are padding. */
  function DecodeGroup(v0: Option<Sextet>, v1: Option<Sextet>, v2: Option<Sextet>, v3: Option<Sextet>,
                       two: bool, one: bool): Option<seq<Byte>> {
    if v0.None? || v1.None? then None
    else if two then Some([v0.value * 4 + v1.value / 16])
    else if v2.None? then None
    else if one then Some([v0.value * 4 + v1.value / 16, v1.value % 16 * 16 + v2.value / 4])
    else if v3.None? then None
    else Some([v0.value * 4 + v1.value / 16, v1.value % 16 * 16 + v2.value / 4, v2.value % 4 * 64 + v3.value])
  }

  /** Decoding; anything outside the alphabet, misplaced padding or a short group is refused. */
  function Decode(text: string): Option<seq<Byte>>
    decreases |text|
  {
    if |text| == 0 then Some([])
    else if |text| < 4 then None
    else
      var last := |text| == 4;
      var one := last && text[3] == '=';
      var group := DecodeGroup(Value(text[0]), Value(text[1]), Value(text[2]), Value(text[3]), one && text[2] == '=', one);
      var rest := Decode(text[4..]);
      if group.None? || rest.None? then None else Some(group.value + rest.value)
  }

  // ----- section 4 of RFC 4648 ---------------------------------------------

  /** Three bytes are written as the four base-64 digits of their 24 bits. */
  lemma ThreeArePositional(a: Byte, b: Byte, c: Byte) returns (w: Sextet, x: Sextet, y: Sextet, z: Sextet)
    ensures EncodeGroup(a, b, c) == [Letter(w), Letter(x), Letter(y), Letter(z)]
    ensures ((w * 64 + x) * 64 + y) * 64 + z == (a * 256 + b) * 256 + c
  {
    w, x, y, z := a / 4, a % 4 * 16 + b / 16, b % 16 * 4 + c / 64, c % 64;
    assert a == a / 4 * 4 + a % 4 && b == b / 16 * 16 + b % 16 && c == c / 64 * 64 + c % 64;
  }

  /** Two bytes are written as three digits, the last two bits zero, and one `=`. */
  lemma TwoArePositional(a: Byte, b: Byte) returns (w: Sextet, x: Sextet, y: Sextet)
    ensures Encode([a, b]) == [Letter(w), Letter(x), Letter(y), '=']
    ensures (w * 64 + x) * 64 + y == (a * 256 + b) * 4
  {
    w, x, y := a / 4, a % 4 * 16 + b / 16, b % 16 * 4;
    assert a == a / 4 * 4 + a % 4 && b == b / 16 * 16 + b % 16;
  }

  /** One byte is written as two digits, the last four bits zero, and two `=`. */
  lemma OneIsPositional(a: Byte) returns (w: Sextet, x: Sextet)
    ensures Encode([a]) == [Letter(w), Letter(x), '=', '=']
    ensures w * 64 + x == a * 16
  {
    w, x := a / 4, a % 4 * 16;
  }

  /** The three bytes come back from the four sextets they are cut into. */
  lemma SextetsHoldBytes(a: Byte, b: Byte, c: Byte)
    ensures var s1 := a % 4 * 16 + b / 16;
            var s2 := b % 16 * 4 + c / 64;
            && 0 <= s1 < 64 && 0 <= s2 < 64
            && DecodeGroup(Some(a / 4), Some(s1), Some(s2), Some(c % 64), false, false) == Some([a, b, c])
            && (c == 0 ==> DecodeGroup(Some(a / 4), Some(s1), Some(s2), None, false, true) == Some([a, b]))
            && (b == 0 ==> DecodeGroup(Some(a / 4), Some(s1), None, None, true, true) == Some([a]))
  {
    var s1 := a % 4 * 16 + b / 16;
    var s2 := b % 16 * 4 + c / 64;
    assert s1 / 16 == a % 4 && s1 % 16 == b / 16;
    assert s2 / 4 == b % 16 && s2 % 4 == c / 64;
  }

  lemma GroupRoundTrip(a: Byte, b: Byte, c: Byte, rest: string)
    requires Decode(rest).Some?
    ensures Decode(EncodeGroup(a, b, c) + rest) == Some([a, b, c] + Decode(rest).value)
  {
    SextetsHoldBytes(a, b, c);
    LetterValue(a / 4);
    LetterValue(a % 4 * 16 + b / 16);
    LetterValue(b % 16 * 4 + c / 64);
    LetterValue(c % 64);
    var text := EncodeGroup(a, b, c) + rest;
    assert text[4..] == rest;
    assert Value('=') == None;
    assert text[3] != '=';
  }

  lemma PairRoundTrip(a: Byte, b: Byte)
    ensures Decode(Encode([a, b])) == Some([a, b])
  {
    SextetsHoldBytes(a, b, 0);
    LetterValue(a / 4);
    LetterValue(a % 4 * 16 + b / 16);
    LetterValue(b % 16 * 4);
    assert Value('=') == None;
    assert Letter(b % 16 * 4) != '=';
    assert Encode([a, b])[4..] == [];
    assert [a, b] + [] == [a, b];
  }

  lemma SingleRoundTrip(a: Byte)
    ensures Decode(Encode([a])) == Some([a])
  {
    SextetsHoldBytes(a, 0, 0);
    LetterValue(a / 4);
    LetterValue(a % 4 * 16);
    assert Value('=') == None;
    assert Encode([a])[4..] == [];
    assert [a] + [] == [a];
  }

  lemma {:induction false} DecodeEncode(bytes: seq<Byte>)
    ensures Decode(Encode(bytes)) == Some(bytes)
    decreases |bytes|
  {
    if |bytes| == 1 {
      assert bytes == [bytes[0]];
      SingleRoundTrip(bytes[0]);
    } else if |bytes| == 2 {
      assert bytes == [bytes[0], bytes[1]];
      PairRoundTrip(bytes[0], bytes[1]);
    } else if |bytes| > 2 {
      DecodeEncode(bytes[3..]);
      LongRoundTrip(bytes);
    }
  }

  lemma LongRoundTrip(bytes: seq<Byte>)
    requires |bytes| > 2 && Decode(Encode(bytes[3..])) == Some(bytes[3..])
    ensures Decode(Encode(bytes)) == Some(bytes)
  {
    GroupRoundTrip(bytes[0], bytes[1], bytes[2], Encode(bytes[3..]));
    assert bytes == [bytes[0], bytes[1], bytes[2]] + bytes[3..];
  }

  /** Letters of the alphabet and the padding sign. */
  predicate InAlphabet(c: char) { Value(c).Some? || c == '=' }

  lemma {:induction false} EncodeAlphabet(bytes: seq<Byte>)
    ensures forall c :: c in Encode(bytes) ==> InAlphabet(c)
    decreases |bytes|
  {
    forall v: Sextet ensures InAlphabet(Letter(v)) {
      LetterValue(v);
    }
    if |bytes| > 2 {
      EncodeAlphabet(bytes[3..]);
    }
  }
}
