/**
 * Exactly which bodies `recorded_descriptor` accepts (scripts/boringtun_release.py).
 *
 * `ReleaseText` shows that a rendered body is read back. Here the converse: a body is accepted
 * with descriptor `d` if and only if it is the marker of `d` on its own, or prose followed by one
 * metadata block holding that marker. A second block, a second comment, an altered digest line or
 * bytes that are not the canonical ones therefore fail.
 */
module ReleaseAcceptance {
  import opened Prelude
  import opened Base64
  import opened ReleaseText

  // ----- counting is uniqueness --------------------------------------------

  /** `pat` stands at `n` and nowhere else, overlapping or not. */
  ghost predicate OnlyAt(s: string, pat: string, n: nat) {
    OccursAt(s, pat, n) && forall i: nat :: OccursAt(s, pat, i) ==> i == n
  }

  lemma {:induction false} NoneCounted(s: string, pat: string, i: nat, k: nat)
    requires |pat| > 0 && CountFrom(s, pat, i) == 0 && i <= k
    ensures !OccursAt(s, pat, k)
    decreases |s| - i
  {
    if i + |pat| <= |s| && i < k {
      NoneCounted(s, pat, i + 1, k);
    }
  }

  /** With one occurrence counted, searching finds it, and every other one would overlap it. */
  lemma {:induction false} OneCounted(s: string, pat: string, i: nat)
    requires |pat| > 0 && i <= |s| && CountFrom(s, pat, i) == 1
    ensures OccursAt(s, pat, FindFrom(s, pat, i))
    ensures forall k: nat :: i <= k && OccursAt(s, pat, k) ==>
                               FindFrom(s, pat, i) <= k < FindFrom(s, pat, i) + |pat|
    decreases |s| - i
  {
    if OccursAt(s, pat, i) {
      forall k: nat | i <= k && OccursAt(s, pat, k) ensures k < i + |pat| {
        if k >= i + |pat| {
          NoneCounted(s, pat, i + |pat|, k);
        }
      }
    } else {
      OneCounted(s, pat, i + 1);
    }
  }

  /** The first letter, or the last one, stands nowhere else in the pattern. */
  ghost predicate Sharp(pat: string) {
    && pat != ""
    && ((forall i :: 0 < i < |pat| ==> pat[i] != pat[0])
        || (forall i :: 0 <= i < |pat| - 1 ==> pat[i] != pat[|pat| - 1]))
  }

  /** Such a pattern cannot overlap itself. */
  lemma Apart(s: string, pat: string, n: nat, k: nat)
    requires Sharp(pat) && OccursAt(s, pat, n) && OccursAt(s, pat, k) && n <= k < n + |pat|
    ensures k == n
  {
    var last := |pat| - 1;
    assert s[k] == s[k..k + |pat|][0] == s[n..n + |pat|][k - n];
    assert s[n + last] == s[n..n + |pat|][last] == s[k..k + |pat|][last - (k - n)];
  }

  lemma CountedOnce(s: string, pat: string, n: nat)
    requires Sharp(pat) && CountFrom(s, pat, 0) == 1 && OccursAt(s, pat, n)
    ensures OnlyAt(s, pat, n)
  {
    OneCounted(s, pat, 0);
    var m := FindFrom(s, pat, 0);
    Apart(s, pat, m, n);
    forall k: nat | OccursAt(s, pat, k) ensures k == n {
      Apart(s, pat, m, k);
    }
  }

  lemma OnlyIsCounted(s: string, pat: string, n: nat)
    requires pat != "" && OnlyAt(s, pat, n)
    ensures CountFrom(s, pat, 0) == 1 && FindFrom(s, pat, 0) == n
  {
    CountOne(s, pat, 0, n);
    FindOnly(s, pat, 0, n);
  }

  // ----- accepted bodies ---------------------------------------------------

  /** Text that may stand before the metadata block. */
  predicate Leads(prose: string) {
    && EndsWith(prose, "\n\n")
    && Strip(prose) != ""
    && !Contains(prose, "descriptor_sha256=") && !Contains(prose, "RELEASE.json(base64)=")
  }

  /** The body holds one comment, at `n`: a metadata block around `marker`, closing the body. */
  ghost predicate Framed(body: string, n: nat, marker: string) {
    && n <= |body| && Leads(body[..n])
    && body == body[..n] + "<!-- boringtun-release-metadata:v1\n" + marker + "\n-->"
    && OnlyAt(body, "<!--", n) && OnlyAt(body, "-->", |body| - 3)
  }

  lemma Reassemble(body: string, a: string, b: string, n: nat)
    requires OccursAt(body, a, n) && |b| <= |body| && OccursAt(body, b, |body| - |b|)
    requires n + |a| + |b| <= |body|
    ensures body == body[..n] + a + body[n + |a|..|body| - |b|] + b
  {
    assert body == body[..n] + body[n..n + |a|] + body[n + |a|..|body| - |b|] + body[|body| - |b|..];
  }

  lemma PieceOccurs(s: string, pat: string, at: nat, lo: nat, hi: nat)
    requires OccursAt(s, pat, at) && lo <= hi <= |pat|
    ensures OccursAt(s, pat[lo..hi], at + lo)
  {
    var piece, found := pat[lo..hi], s[at + lo..at + hi];
    forall i | 0 <= i < |piece| ensures found[i] == piece[i] {
      assert s[at..at + |pat|][lo + i] == pat[lo + i];
    }
    assert found == piece;
  }

  /** The comment counts of `FindMarker`, as positions. */
  lemma CommentCounted(body: string, pat: string, whole: string, at: nat, lo: nat)
    requires Sharp(pat) && CountFrom(body, pat, 0) == 1 && OccursAt(body, whole, at)
    requires lo + |pat| <= |whole| && whole[lo..lo + |pat|] == pat
    ensures OnlyAt(body, pat, at + lo)
  {
    PieceOccurs(body, whole, at, lo, lo + |pat|);
    CountedOnce(body, pat, at + lo);
  }

  lemma CommentShape()
    ensures Sharp("<!--") && Opening()[0..4] == "<!--"
    ensures Sharp("-->") && Closing()[1..4] == "-->"
  {
    assert forall i :: 0 < i < 4 ==> "<!--"[i] != '<';
    assert forall i :: 0 <= i < 2 ==> "-->"[i] != '>';
  }

  lemma OpenedOnce(body: string, at: nat)
    requires CountFrom(body, "<!--", 0) == 1 && OccursAt(body, Opening(), at)
    ensures OnlyAt(body, "<!--", at)
  {
    CommentShape();
    CommentCounted(body, "<!--", Opening(), at, 0);
  }

  lemma ClosedOnce(body: string)
    requires CountFrom(body, "-->", 0) == 1 && EndsWith(body, Closing())
    ensures OnlyAt(body, "-->", |body| - 3)
  {
    CommentShape();
    CommentCounted(body, "-->", Closing(), |body| - 4, 1);
  }

  /** Where a prefix stands once, so does the longer text that stands there. */
  lemma LongerOnce(body: string, pat: string, whole: string, n: nat)
    requires OnlyAt(body, pat, n) && OccursAt(body, whole, n)
    requires |pat| <= |whole| && whole[0..|pat|] == pat
    ensures OnlyAt(body, whole, n)
  {
    forall i: nat | OccursAt(body, whole, i) ensures i == n {
      PieceOccurs(body, whole, i, 0, |pat|);
    }
  }

  /** What a found marker says about the body, its position first. */
  lemma FoundParts(body: string, marker: string) returns (at: nat)
    requires FindMarker(body) == Some(marker) && !StartsWith(body, DigestKey())
    ensures OccursAt(body, Opening(), at) && EndsWith(body, Closing())
    ensures at + |Opening()| + |Closing()| <= |body| && Leads(body[..at])
    ensures marker == body[at + |Opening()|..|body| - |Closing()|]
    ensures CountFrom(body, "<!--", 0) == 1 && CountFrom(body, "-->", 0) == 1
  {
    at := FindFrom(body, Opening(), 0);
    OneCounted(body, Opening(), 0);
  }

  lemma FoundIsFramed(body: string, marker: string)
    requires FindMarker(body) == Some(marker) && !StartsWith(body, DigestKey())
    ensures exists n :: Framed(body, n, marker)
  {
    var at := FoundParts(body, marker);
    Reassemble(body, Opening(), Closing(), at);
    OpenedOnce(body, at);
    ClosedOnce(body);
    assert Framed(body, at, marker);
  }

  /** Prose ending in a line break cannot be the start of a bare marker. */
  lemma FramedIsNotBare(body: string, n: nat, marker: string)
    requires Framed(body, n, marker)
    ensures !StartsWith(body, DigestKey())
  {
    var key, prose := DigestKey(), body[..n];
    if n >= |key| {
      assert !OccursAt(prose, key, 0);
      assert prose[0..|key|] == body[0..|key|];
    } else if |key| <= |body| {
      assert prose[n - 2..n][1] == '\n';
      assert body[0..|key|][n - 1] == '\n';
      assert forall i :: 0 <= i < |key| ==> key[i] != '\n';
    }
  }

  /** The one metadata opening is where the one comment opening is. */
  lemma OpeningOnly(body: string, n: nat, marker: string)
    requires Framed(body, n, marker)
    ensures OnlyAt(body, Opening(), n) && EndsWith(body, Closing())
  {
    assert body[n..n + |Opening()|] == Opening();
    LongerOnce(body, "<!--", Opening(), n);
    assert body[|body| - 4..|body|] == "\n-->";
  }

  lemma FramedIsFound(body: string, n: nat, marker: string)
    requires Framed(body, n, marker)
    ensures FindMarker(body) == Some(marker)
  {
    FramedIsNotBare(body, n, marker);
    OpeningOnly(body, n, marker);
    OnlyIsCounted(body, "<!--", n);
    OnlyIsCounted(body, "-->", |body| - 3);
    OnlyIsCounted(body, Opening(), n);
    assert body[n + |Opening()|..|body| - |Closing()|] == marker;
  }

  lemma BareIsFound<D>(codec: Codec<D>, d: D)
    ensures FindMarker(Marker(codec, d)) == Some(Marker(codec, d))
  {
    assert Marker(codec, d)[..|DigestKey()|] == DigestKey();
  }

  /**
   * What `recorded_descriptor` accepts, both ways: a body below 64 KiB that is the marker of `d`
   * alone, or holds exactly one comment, which closes the body and is a metadata block around
   * exactly that marker.
   */
  lemma AcceptedExactly<D(!new)>(codec: Codec<D>, body: string, d: D)
    requires Sound(codec)
    ensures RecordedDescriptor(codec, body) == Some(d) <==>
            && Utf8Length(body) < 65536
            && GoodFacts(codec.facts(d))
            && (body == Marker(codec, d) || exists n :: Framed(body, n, Marker(codec, d)))
  {
    if RecordedDescriptor(codec, body) == Some(d) {
      if !StartsWith(body, DigestKey()) {
        FoundIsFramed(body, Marker(codec, d));
      }
    }
    if GoodFacts(codec.facts(d)) {
      ReadMarkerOf(codec, d);
      if body == Marker(codec, d) {
        BareIsFound(codec, d);
      } else if n :| Framed(body, n, Marker(codec, d)) {
        FramedIsFound(body, n, Marker(codec, d));
      }
    }
  }

  lemma MarkerLines<D(!new)>(codec: Codec<D>, d: D)
    requires Sound(codec)
    ensures var raw := codec.canonical(d);
            SplitLines(Marker(codec, d)) ==
              ["descriptor_sha256=" + codec.sha256(raw), "RELEASE.json(base64)=" + Encode(raw)]
  {
    var raw := codec.canonical(d);
    var a, b := DigestKey() + codec.sha256(raw), BytesKey() + Encode(raw);
    assert Marker(codec, d) == a + "\n" + b;
    EncodeAlphabet(raw);
    PlainText(Encode(raw));
    assert forall c :: c in codec.sha256(raw) ==> IsHex(c);
    PlainText(codec.sha256(raw));
    TwoLines(a, b);
  }

  lemma AcceptedMarker<D(!new)>(codec: Codec<D>, body: string, d: D)
    requires RecordedDescriptor(codec, body) == Some(d)
    ensures FindMarker(body) == Some(Marker(codec, d))
  {
  }

  /**
   * The two lines an accepted body carries: the digest of the canonical bytes of the descriptor
   * returned, and those bytes. No other digest line is accepted.
   */
  lemma AcceptedLines<D(!new)>(codec: Codec<D>, body: string, d: D)
    requires Sound(codec) && RecordedDescriptor(codec, body) == Some(d)
    ensures var raw, marker := codec.canonical(d), FindMarker(body);
            && marker.Some? && Decode(Encode(raw)) == Some(raw)
            && SplitLines(marker.value) ==
                 ["descriptor_sha256=" + codec.sha256(raw), "RELEASE.json(base64)=" + Encode(raw)]
  {
    AcceptedMarker(codec, body, d);
    MarkerLines(codec, d);
    DecodeEncode(codec.canonical(d));
  }

  // ----- a codec of this kind ----------------------------------------------

  const DIGITS: string := "0123456789abcdef"

  /** Raw bytes as their own descriptor, with a constant digest of every hexadecimal letter. */
  const SAMPLE: Codec<seq<Byte>> :=
    Codec(d => d, raw => Some(raw), raw => DIGITS, d => Facts(1, DIGITS + DIGITS + DIGITS[2..10], "0.1.9"))

  lemma DigitsAreHex(i: nat)
    requires i < 16
    ensures IsHex(DIGITS[i])
  {
  }

  lemma SourceIsSha()
    ensures IsSha(DIGITS + DIGITS + DIGITS[2..10])
  {
    var s := DIGITS + DIGITS + DIGITS[2..10];
    assert |s| == 40;
    forall i | 0 <= i < 40 ensures IsHex(s[i]) {
      var k := if i < 16 then i else if i < 32 then i - 16 else i - 30;
      assert s[i] == DIGITS[k];
      DigitsAreHex(k);
    }
  }

  /** The assumptions on codecs and descriptors can be met, so the statements above are not empty. */
  lemma SampleIsSound(d: seq<Byte>)
    ensures Sound(SAMPLE) && GoodFacts(SAMPLE.facts(d))
  {
    SourceIsSha();
    assert IsVersion("0.1.9");
    forall raw: seq<Byte>, i: nat | i < |SAMPLE.sha256(raw)| ensures IsHex(SAMPLE.sha256(raw)[i]) {
      DigitsAreHex(i);
    }
  }
}
