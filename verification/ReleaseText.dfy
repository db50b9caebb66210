/**
 * The human-readable release body that carries its own signed descriptor
 * (scripts/boringtun_release.py `descriptor_marker`, `render_body`, `recorded_descriptor`).
 *
 * A body is rendered around a hidden comment holding the descriptor's digest and base64 bytes,
 * and is later searched, counted, cut and decoded to get that descriptor back. The string
 * operations are Python's, written out. Serialisation and hashing are a `Codec`.
 */
module ReleaseText {
  import opened Prelude
  import opened Base64
  import opened Decimals

  // ----- Python string operations ------------------------------------------

  predicate OccursAt(s: string, pat: string, i: nat) {
    i + |pat| <= |s| && s[i..i + |pat|] == pat
  }

  predicate Contains(s: string, pat: string) {
    exists i :: 0 <= i <= |s| && OccursAt(s, pat, i)
  }

  /** `s.count(pat)` from position `i` on: occurrences that do not overlap, left to right. */
  function CountFrom(s: string, pat: string, i: nat): nat
    requires |pat| > 0
    decreases |s| - i
  {
    if i + |pat| > |s| then 0
    else if OccursAt(s, pat, i) then 1 + CountFrom(s, pat, i + |pat|)
    else CountFrom(s, pat, i + 1)
  }

  /** Position of the first occurrence at or after `i`, or the length. */
  function FindFrom(s: string, pat: string, i: nat): (r: nat)
    requires i <= |s|
    ensures i <= r <= |s|
    decreases |s| - i
  {
    if i == |s| || OccursAt(s, pat, i) then i else FindFrom(s, pat, i + 1)
  }

  predicate StartsWith(s: string, pat: string) { OccursAt(s, pat, 0) }

  predicate EndsWith(s: string, pat: string) { |pat| <= |s| && OccursAt(s, pat, |s| - |pat|) }

  predicate IsSpace(c: char) {
    c == ' ' || '\t' <= c <= '\r' || '\U{1c}' <= c <= '\U{1f}' || c == '\U{85}' || c == '\U{a0}' || c == '\U{1680}'
    || '\U{2000}' <= c <= '\U{200a}' || c == '\U{2028}' || c == '\U{2029}' || c == '\U{202f}' || c == '\U{205f}'
    || c == '\U{3000}'
  }

  function StripLeft(s: string): string {
    if s != "" && IsSpace(s[0]) then StripLeft(s[1..]) else s
  }

  function StripRight(s: string): string
    decreases |s|
  {
    if s != "" && IsSpace(s[|s| - 1]) then StripRight(s[..|s| - 1]) else s
  }

  function Strip(s: string): string { StripRight(StripLeft(s)) }

  predicate LineEnd(c: char) {
    '\n' <= c <= '\r' || '\U{1c}' <= c <= '\U{1e}' || c == '\U{85}' || c == '\U{2028}' || c == '\U{2029}'
  }

  function LineLength(s: string): (n: nat)
    ensures n <= |s|
  {
    if s == "" || LineEnd(s[0]) then 0 else 1 + LineLength(s[1..])
  }

  /** `s.splitlines()`. */
  function SplitLines(s: string): seq<string>
    decreases |s|
  {
    var n := LineLength(s);
    if s == "" then []
    else if n == |s| then [s]
    else if s[n] == '\r' && n + 1 < |s| && s[n + 1] == '\n' then [s[..n]] + SplitLines(s[n + 2..])
    else [s[..n]] + SplitLines(s[n + 1..])
  }

  function Utf8Size(c: char): nat {
    if c < '\U{80}' then 1 else if c < '\U{800}' then 2 else if c < '\U{10000}' then 3 else 4
  }

  function Utf8Length(s: string): nat {
    if s == "" then 0 else Utf8Size(s[0]) + Utf8Length(s[1..])
  }

  // ----- descriptors as text -----------------------------------------------

  /** The descriptor fields a body mentions. */
  datatype Facts = Facts(pr: nat, source: string, version: string)

  /**
   * Serialisation (`canonical`, `load`), hashing and the descriptor's own check, over any
   * descriptor type `D`.
   */
  datatype Codec<!D> = Codec(
    canonical: D -> seq<Byte>,
    load: seq<Byte> -> Option<D>,
    sha256: seq<Byte> -> string,
    facts: D -> Facts)

  predicate IsHex(c: char) { '0' <= c <= '9' || 'a' <= c <= 'f' }

  predicate IsSha(s: string) { |s| == 40 && forall i :: 0 <= i < |s| ==> IsHex(s[i]) }

  /** The characters of a dotted decimal version. */
  predicate IsVersion(s: string) { forall i :: 0 <= i < |s| ==> '0' <= s[i] <= '9' || s[i] == '.' }

  predicate GoodFacts(f: Facts) { f.pr > 0 && IsSha(f.source) && IsVersion(f.version) }

  /** Loading canonical bytes gives the descriptor back, and digests are lower-case hexadecimal. */
  ghost predicate Sound<D(!new)>(codec: Codec<D>) {
    && (forall d: D :: codec.load(codec.canonical(d)) == Some(d))
    && (forall raw: seq<Byte>, i: nat :: i < |codec.sha256(raw)| ==> IsHex(codec.sha256(raw)[i]))
  }

  function ReleaseTag(f: Facts): string
    requires |f.source| == 40
  {
    "boringtun-cli-" + f.version + "-g" + f.source[..12] + "-b" + Decimal(f.pr)
  }

  function DigestKey(): string { "descriptor_sha256=" }
  function BytesKey(): string { "RELEASE.json(base64)=" }
  function Opening(): string { "<!-- boringtun-release-metadata:v1\n" }
  function Closing(): string { "\n-->" }
  function Url(): string { "https://github.com/" + "Wiresock-Foundation/" + "wiresock-boringtun" }

  function Marker<D>(codec: Codec<D>, d: D): string {
    var raw := codec.canonical(d);
    DigestKey() + codec.sha256(raw) + "\n" + BytesKey() + Encode(raw)
  }

  /** Prose `render_body` accepts: not empty, bounded, and unable to imitate the metadata block. */
  predicate AcceptsProse(prose: string) {
    && 0 < Utf8Length(prose) <= 20000
    && Lacks(prose, '<') && Lacks(prose, '>')
    && !Contains(prose, DigestKey()) && !Contains(prose, BytesKey())
  }

  function Join(pieces: seq<string>): string {
    if pieces == [] then "" else pieces[0] + Join(pieces[1..])
  }

  /** The references section between the prose and the metadata block, line by line. */
  function PullLine(f: Facts): seq<string> {
    [ "\n\n## References & verification\n\n", "[Release PR #", Decimal(f.pr), "](", Url(), "/pull/", Decimal(f.pr), ") \U{b7} " ]
  }

  function ChangesLine(f: Facts, parent: string): seq<string> {
    [ "[Changes from the previous source](", Url(), "/compare/", parent, "...", f.source, ")\n\n" ]
  }

  function DescriptorLine(f: Facts): seq<string>
    requires GoodFacts(f)
  {
    [ "[Signed descriptor](", Url(), "/releases/download/", ReleaseTag(f), "/RELEASE.json) \U{b7} [Checksums](", Url(),
      "/releases/download/", ReleaseTag(f), "/SHA256SUMS) \U{b7} " ]
  }

  function GuideLine(f: Facts): seq<string> {
    [ "[Verification guide](", Url(), "/blob/", f.source, "/docs/BORINGTUN_ARTIFACTS.md)\n\n" ]
  }

  function References(f: Facts, parent: string): string
    requires GoodFacts(f)
  {
    Join(PullLine(f)) + Join(ChangesLine(f, parent)) + Join(DescriptorLine(f)) + Join(GuideLine(f))
  }

  function RenderBody<D>(codec: Codec<D>, prose: string, d: D, parent: string): string
    requires GoodFacts(codec.facts(d))
  {
    Strip(prose) + References(codec.facts(d), parent) + Opening() + Marker(codec, d) + Closing()
  }

  /** The marker inside a body: the whole of a bare one, or the content of its one metadata block. */
  function FindMarker(body: string): Option<string> {
    if StartsWith(body, DigestKey()) then Some(body)
    else if CountFrom(body, "<!--", 0) != 1 || CountFrom(body, "-->", 0) != 1 || CountFrom(body, Opening(), 0) != 1
            || !EndsWith(body, Closing())
    then None
    else
      var at := FindFrom(body, Opening(), 0);
      if at + |Opening()| + |Closing()| > |body| then None
      else
        var prose := body[..at];
        if !EndsWith(prose, "\n\n") || Strip(prose) == "" || Contains(prose, DigestKey()) || Contains(prose, BytesKey())
        then None
        else Some(body[at + |Opening()|..|body| - |Closing()|])
  }

  function ReadMarker<D(==)>(codec: Codec<D>, marker: string): Option<D> {
    var lines := SplitLines(marker);
    if |lines| != 2 || !StartsWith(lines[1], BytesKey()) then None
    else
      var raw := Decode(lines[1][|BytesKey()|..]);
      if raw.None? then None
      else
        var d := codec.load(raw.value);
        if d.None? || !GoodFacts(codec.facts(d.value)) || raw.value != codec.canonical(d.value)
           || marker != Marker(codec, d.value)
        then None
        else d
  }

  function RecordedDescriptor<D(==)>(codec: Codec<D>, body: string): Option<D> {
    if Utf8Length(body) >= 64 * 1024 then None
    else
      var marker := FindMarker(body);
      if marker.None? then None else ReadMarker(codec, marker.value)
  }

  /** Between one and four bytes a character, and one for each exactly in ASCII text. */
  lemma {:induction false} Utf8LengthExact(s: string)
    ensures |s| <= Utf8Length(s) <= 4 * |s|
    ensures Utf8Length(s) == |s| <==> forall i :: 0 <= i < |s| ==> s[i] < '\U{80}'
  {
    if s != "" {
      Utf8LengthExact(s[1..]);
      assert forall i :: 0 <= i < |s| - 1 ==> s[1..][i] == s[i + 1];
      assert s == [s[0]] + s[1..];
    }
  }

  /** Prose in ASCII is accepted by its length in characters, up to twenty thousand. */
  lemma ProseExactly(prose: string)
    requires forall i :: 0 <= i < |prose| ==> prose[i] < '\U{80}'
    ensures AcceptsProse(prose) <==>
            && 1 <= |prose| <= 20000 && Lacks(prose, '<') && Lacks(prose, '>')
            && !Contains(prose, "descriptor_sha256=") && !Contains(prose, "RELEASE.json(base64)=")
  {
    Utf8LengthExact(prose);
  }

  // ----- reading the marker ------------------------------------------------

  lemma {:induction false} LineLengthTo(s: string, n: nat)
    requires n < |s| && LineEnd(s[n])
    requires forall i :: 0 <= i < n ==> !LineEnd(s[i])
    ensures LineLength(s) == n
  {
    if n > 0 {
      LineLengthTo(s[1..], n - 1);
    }
  }

  lemma {:induction false} LineLengthAll(s: string)
    requires forall i :: 0 <= i < |s| ==> !LineEnd(s[i])
    ensures LineLength(s) == |s|
  {
    if s != "" {
      LineLengthAll(s[1..]);
    }
  }

  lemma TwoLines(a: string, b: string)
    requires b != ""
    requires forall i :: 0 <= i < |a| ==> !LineEnd(a[i])
    requires forall i :: 0 <= i < |b| ==> !LineEnd(b[i])
    ensures SplitLines(a + "\n" + b) == [a, b]
  {
    var s := a + "\n" + b;
    assert s[|a|] == '\n';
    LineLengthTo(s, |a|);
    assert s[..|a|] == a && s[|a| + 1..] == b;
    OneLine(b);
    FirstLine(s, |a|);
  }

  lemma OneLine(b: string)
    requires b != ""
    requires forall i :: 0 <= i < |b| ==> !LineEnd(b[i])
    ensures SplitLines(b) == [b]
  {
    LineLengthAll(b);
  }

  lemma FirstLine(s: string, n: nat)
    requires n < |s| && LineLength(s) == n && s[n] == '\n'
    ensures SplitLines(s) == [s[..n]] + SplitLines(s[n + 1..])
  {
  }

  /** A carriage return and a line feed break a line together, other line ends by themselves. */
  lemma LineBreaks(a: string, c: char, b: string)
    requires (forall i :: 0 <= i < |a| ==> !LineEnd(a[i])) && LineEnd(c) && c != '\r'
    ensures SplitLines(a + "\r\n" + b) == [a] + SplitLines(b)
    ensures SplitLines(a + [c] + b) == [a] + SplitLines(b)
  {
    var s, t := a + "\r\n" + b, a + [c] + b;
    assert s[|a|] == '\r' && s[|a| + 1] == '\n' && t[|a|] == c;
    LineLengthTo(s, |a|);
    LineLengthTo(t, |a|);
    assert s[..|a|] == a == t[..|a|];
    assert s[|a| + 2..] == b == t[|a| + 1..];
  }

  lemma PlainText(s: string)
    requires forall c :: c in s ==> InAlphabet(c) || IsHex(c)
    ensures forall i :: 0 <= i < |s| ==> !LineEnd(s[i])
  {
    forall i | 0 <= i < |s| ensures !LineEnd(s[i]) {
      assert s[i] in s;
    }
  }

  /** A marker, bare or cut out of a body, gives its descriptor back. */
  lemma ReadMarkerOf<D(!new)>(codec: Codec<D>, d: D)
    requires Sound(codec) && GoodFacts(codec.facts(d))
    ensures ReadMarker(codec, Marker(codec, d)) == Some(d)
  {
    var raw := codec.canonical(d);
    var a, b := DigestKey() + codec.sha256(raw), BytesKey() + Encode(raw);
    assert Marker(codec, d) == a + "\n" + b;
    EncodeAlphabet(raw);
    PlainText(Encode(raw));
    assert forall c :: c in codec.sha256(raw) ==> IsHex(c);
    PlainText(codec.sha256(raw));
    TwoLines(a, b);
    assert b[|BytesKey()|..] == Encode(raw);
    DecodeEncode(raw);
  }

  lemma BareMarkerRoundTrip<D(!new)>(codec: Codec<D>, d: D)
    requires Sound(codec) && GoodFacts(codec.facts(d))
    ensures RecordedDescriptor(codec, Marker(codec, d)) ==
              if Utf8Length(Marker(codec, d)) < 64 * 1024 then Some(d) else None
  {
    ReadMarkerOf(codec, d);
    var body := Marker(codec, d);
    assert body[..|DigestKey()|] == DigestKey();
  }

  // ----- counting and finding ----------------------------------------------

  lemma {:induction false} CountNone(s: string, pat: string, i: nat)
    requires |pat| > 0
    requires forall j :: i <= j <= |s| ==> !OccursAt(s, pat, j)
    ensures CountFrom(s, pat, i) == 0
    decreases |s| - i
  {
    if i + |pat| <= |s| {
      CountNone(s, pat, i + 1);
    }
  }

  lemma {:induction false} CountOne(s: string, pat: string, i: nat, q: nat)
    requires |pat| > 0 && i <= q && OccursAt(s, pat, q)
    requires forall j :: i <= j <= |s| && OccursAt(s, pat, j) ==> j == q
    ensures CountFrom(s, pat, i) == 1
    decreases q - i
  {
    if i < q {
      CountOne(s, pat, i + 1, q);
    } else {
      CountNone(s, pat, i + |pat|);
    }
  }

  lemma {:induction false} FindOnly(s: string, pat: string, i: nat, q: nat)
    requires i <= q && |pat| > 0 && OccursAt(s, pat, q)
    requires forall j :: i <= j <= |s| && OccursAt(s, pat, j) ==> j == q
    ensures FindFrom(s, pat, i) == q
    decreases q - i
  {
    if i < q {
      FindOnly(s, pat, i + 1, q);
    }
  }

  /** A pattern with letter `c` at offset `k` occurs once in a text where `c` stands at one place only. */
  lemma OccursOnce(s: string, pat: string, c: char, k: nat, q: nat)
    requires k < |pat| && pat[k] == c && OccursAt(s, pat, q)
    requires forall j :: 0 <= j < |s| && s[j] == c ==> j == q + k
    ensures CountFrom(s, pat, 0) == 1
    ensures FindFrom(s, pat, 0) == q
  {
    forall j | 0 <= j <= |s| && OccursAt(s, pat, j) ensures j == q {
      assert s[j + k] == s[j..j + |pat|][k] == c;
    }
    CountOne(s, pat, 0, q);
    FindOnly(s, pat, 0, q);
  }

  // ----- stripping ---------------------------------------------------------

  lemma {:induction false} StripLeftSlice(s: string) returns (a: nat)
    ensures a <= |s| && StripLeft(s) == s[a..]
  {
    if s != "" && IsSpace(s[0]) {
      var b := StripLeftSlice(s[1..]);
      a := b + 1;
    } else {
      a := 0;
    }
  }

  lemma {:induction false} StripRightSlice(s: string) returns (b: nat)
    ensures b <= |s| && StripRight(s) == s[..b]
    decreases |s|
  {
    if s != "" && IsSpace(s[|s| - 1]) {
      b := StripRightSlice(s[..|s| - 1]);
    } else {
      b := |s|;
    }
  }

  lemma StripSlice(s: string) returns (a: nat, b: nat)
    ensures a <= b <= |s| && Strip(s) == s[a..b]
  {
    a := StripLeftSlice(s);
    var n := StripRightSlice(s[a..]);
    b := a + n;
    assert s[a..][..n] == s[a..b];
  }

  lemma {:induction false} StripLeftKeeps(s: string, i: nat)
    requires i < |s| && !IsSpace(s[i])
    ensures s[i] in StripLeft(s)
  {
    if IsSpace(s[0]) {
      StripLeftKeeps(s[1..], i - 1);
    }
  }

  lemma {:induction false} StripRightKeeps(s: string, i: nat)
    requires i < |s| && !IsSpace(s[i])
    ensures s[i] in StripRight(s)
    decreases |s|
  {
    if IsSpace(s[|s| - 1]) {
      StripRightKeeps(s[..|s| - 1], i);
    }
  }

  lemma StripKeeps(s: string, i: nat)
    requires i < |s| && !IsSpace(s[i])
    ensures Strip(s) != ""
  {
    StripLeftKeeps(s, i);
    var t := StripLeft(s);
    var j :| 0 <= j < |t| && t[j] == s[i];
    StripRightKeeps(t, j);
  }

  // ----- the references cannot interfere -----------------------------------

  /** Free of the three characters the metadata block is recognised by. */
  predicate Clean(s: string) {
    forall i :: 0 <= i < |s| ==> s[i] != '<' && s[i] != '>' && s[i] != '='
  }

  lemma {:induction false} JoinClean(pieces: seq<string>)
    requires forall i :: 0 <= i < |pieces| ==> Clean(pieces[i])
    ensures Clean(Join(pieces))
  {
    if pieces != [] {
      JoinClean(pieces[1..]);
    }
  }

  lemma {:induction false} JoinLast(pieces: seq<string>, last: string)
    requires pieces != [] && pieces[|pieces| - 1] == last
    ensures |last| <= |Join(pieces)| && Join(pieces)[|Join(pieces)| - |last|..] == last
  {
    if |pieces| > 1 {
      JoinLast(pieces[1..], last);
      assert Join(pieces)[|Join(pieces)| - |last|..] == Join(pieces[1..])[|Join(pieces[1..])| - |last|..];
    } else {
      assert Join(pieces[1..]) == "";
    }
  }

  lemma DecimalClean(n: nat)
    ensures Clean(Decimal(n))
  {
    DecimalRoundTrip(n);
  }

  lemma TagClean(f: Facts)
    requires GoodFacts(f)
    ensures Clean(ReleaseTag(f))
  {
    DecimalClean(f.pr);
    assert Clean(f.version) && Clean(f.source[..12]);
  }

  lemma UrlClean()
    ensures Clean(Url())
  {
    assert Clean("https://github.com/") && Clean("Wiresock-Foundation/") && Clean("wiresock-boringtun");
  }

  lemma PullLineClean(f: Facts)
    ensures Clean(Join(PullLine(f)))
  {
    UrlClean();
    DecimalClean(f.pr);
    assert Clean("\n\n## References & verification\n\n") && Clean("[Release PR #");
    assert Clean("](") && Clean("/pull/") && Clean(") \U{b7} ");
    JoinClean(PullLine(f));
  }

  lemma ChangesLineClean(f: Facts, parent: string)
    requires IsSha(f.source) && IsSha(parent)
    ensures Clean(Join(ChangesLine(f, parent)))
  {
    UrlClean();
    assert Clean("[Changes from the previous source](") && Clean("/compare/") && Clean("...") && Clean(")\n\n");
    assert Clean(f.source) && Clean(parent);
    JoinClean(ChangesLine(f, parent));
  }

  lemma DescriptorLineClean(f: Facts)
    requires GoodFacts(f)
    ensures Clean(Join(DescriptorLine(f)))
  {
    UrlClean();
    TagClean(f);
    assert Clean("[Signed descriptor](") && Clean("/releases/download/");
    assert Clean("/RELEASE.json) \U{b7} [Checksums](") && Clean("/SHA256SUMS) \U{b7} ");
    JoinClean(DescriptorLine(f));
  }

  lemma GuideLineClean(f: Facts)
    requires IsSha(f.source)
    ensures Clean(Join(GuideLine(f)))
  {
    UrlClean();
    assert Clean("[Verification guide](") && Clean("/blob/") && Clean("/docs/BORINGTUN_ARTIFACTS.md)\n\n");
    assert Clean(f.source);
    JoinClean(GuideLine(f));
  }

  lemma ReferencesClean(f: Facts, parent: string)
    requires GoodFacts(f) && IsSha(parent)
    ensures Clean(References(f, parent))
  {
    PullLineClean(f);
    ChangesLineClean(f, parent);
    DescriptorLineClean(f);
    GuideLineClean(f);
  }

  lemma PullLineStart(f: Facts)
    ensures var r := Join(PullLine(f)); |r| > 30 && r[2] == '#'
  {
    var r := Join(PullLine(f));
    assert r == PullLine(f)[0] + Join(PullLine(f)[1..]);
  }

  lemma GuideLineEnd(f: Facts)
    ensures EndsWith(Join(GuideLine(f)), "\n\n")
  {
    var r, last := Join(GuideLine(f)), "/docs/BORINGTUN_ARTIFACTS.md)\n\n";
    JoinLast(GuideLine(f), last);
    assert last[|last| - 2..] == "\n\n";
    assert r[|r| - 2..] == r[|r| - |last|..][|last| - 2..];
  }

  lemma EndsWithMore(before: string, s: string, pat: string)
    requires EndsWith(s, pat)
    ensures EndsWith(before + s, pat)
  {
    var t := before + s;
    assert t[|t| - |pat|..] == s[|s| - |pat|..];
  }

  lemma ReferencesShape(f: Facts, parent: string)
    requires GoodFacts(f)
    ensures var r := References(f, parent);
            && |r| > 30
            && r[2] == '#'
            && EndsWith(r, "\n\n")
  {
    PullLineStart(f);
    GuideLineEnd(f);
    EndsWithMore(Join(PullLine(f)) + Join(ChangesLine(f, parent)) + Join(DescriptorLine(f)), Join(GuideLine(f)), "\n\n");
  }

  lemma SliceOfSlice(s: string, a: nat, b: nat, i: nat, n: nat)
    requires a <= b <= |s| && i + n <= b - a
    ensures s[a..b][i..i + n] == s[a + i..a + i + n]
  {
    var l, r := s[a..b][i..i + n], s[a + i..a + i + n];
    forall j | 0 <= j < n ensures l[j] == r[j] {
      assert l[j] == s[a..b][i + j];
    }
  }

  /** A key ending in `=` can only stand where the prose had it. */
  lemma KeyComesFromProse(prose: string, refs: string, key: string)
    requires |key| > 0 && key[|key| - 1] == '='
    requires Clean(refs) && Contains(Strip(prose) + refs, key)
    ensures Contains(prose, key)
  {
    var text := Strip(prose) + refs;
    var a, b := StripSlice(prose);
    var i :| 0 <= i <= |text| && OccursAt(text, key, i);
    var e := i + |key| - 1;
    assert text[e] == text[i..i + |key|][|key| - 1] == '=';
    assert e < |Strip(prose)|;
    SliceOfSlice(prose, a, b, i, |key|);
    assert text[i..i + |key|] == Strip(prose)[i..i + |key|];
    assert OccursAt(prose, key, a + i);
  }

  lemma NoKey(prose: string, refs: string, key: string)
    requires |key| > 0 && key[|key| - 1] == '='
    requires Clean(refs) && !Contains(prose, key)
    ensures !Contains(Strip(prose) + refs, key)
  {
    if Contains(Strip(prose) + refs, key) {
      KeyComesFromProse(prose, refs, key);
    }
  }

  lemma MarkerLetters<D(!new)>(codec: Codec<D>, d: D, c: char)
    requires Sound(codec) && (c == '<' || c == '>')
    ensures Lacks(Marker(codec, d), c)
  {
    var raw := codec.canonical(d);
    EncodeAlphabet(raw);
    assert Lacks(Encode(raw), c) by {
      forall i | 0 <= i < |Encode(raw)| ensures Encode(raw)[i] != c {
        assert InAlphabet(Encode(raw)[i]);
      }
    }
    assert Lacks(codec.sha256(raw), c);
    assert Lacks(DigestKey(), c) && Lacks(BytesKey(), c);
  }

  // ----- the round trip ----------------------------------------------------

  lemma UniqueLetter(before: string, c: char, after: string)
    requires Lacks(before, c) && Lacks(after, c)
    ensures var s := before + [c] + after;
            forall j :: 0 <= j < |s| && s[j] == c ==> j == |before|
  {
  }

  lemma MiddleStart(before: string, middle: string, after: string, n: nat)
    requires n <= |middle|
    ensures (before + middle + after)[|before|..|before| + n] == middle[..n]
  {
  }

  lemma UniqueStart(before: string, word: string, after: string, c: char)
    requires Lacks(before, c) && Lacks(after, c)
    requires |word| > 0 && word[0] == c && forall i :: 1 <= i < |word| ==> word[i] != c
    ensures var s := before + word + after;
            forall j :: 0 <= j < |s| && s[j] == c ==> j == |before|
  {
  }

  /** The start of a word bracketed by texts without its first letter is found, and counted, once. */
  lemma OneOpening(prose: string, word: string, rest: string, n: nat)
    requires Lacks(prose, '<') && Lacks(rest, '<')
    requires |word| > 0 && word[0] == '<' && forall i :: 1 <= i < |word| ==> word[i] != '<'
    requires 0 < n <= |word|
    ensures CountFrom(prose + word + rest, word[..n], 0) == 1
    ensures FindFrom(prose + word + rest, word[..n], 0) == |prose|
  {
    UniqueStart(prose, word, rest, '<');
    MiddleStart(prose, word, rest, n);
    OccursOnce(prose + word + rest, word[..n], '<', 0, |prose|);
  }

  lemma OneClosing(text: string, pat: string)
    requires Lacks(text, '>')
    requires |pat| > 0 && pat[|pat| - 1] == '>' && |pat| <= |text| + 1
    requires (text + ['>'])[|text| + 1 - |pat|..] == pat
    ensures CountFrom(text + ['>'], pat, 0) == 1
  {
    var body := text + ['>'];
    UniqueLetter(text, '>', "");
    assert body == text + ['>'] + "";
    OccursOnce(body, pat, '>', |pat| - 1, |body| - |pat|);
  }

  lemma StartsWithin(prose: string, rest: string, key: string)
    requires |key| <= |prose|
    ensures StartsWith(prose + rest, key) ==> Contains(prose, key)
  {
    assert (prose + rest)[0..|key|] == prose[0..|key|];
    assert StartsWith(prose + rest, key) ==> OccursAt(prose, key, 0);
  }

  lemma OpeningShape()
    ensures Opening()[0] == '<' && forall i :: 1 <= i < |Opening()| ==> Opening()[i] != '<'
    ensures Lacks(Opening(), '>')
    ensures Opening()[..4] == "<!--"
  {
  }

  lemma ClosingShape()
    ensures Closing() == "\n--" + ['>']
    ensures Lacks(Closing(), '<') && Lacks("\n--", '>')
  {
  }

  lemma CountOpenings(prose: string, rest: string)
    requires Lacks(prose, '<') && Lacks(rest, '<')
    ensures var body := prose + Opening() + rest;
            && CountFrom(body, "<!--", 0) == 1
            && CountFrom(body, Opening(), 0) == 1
            && FindFrom(body, Opening(), 0) == |prose|
  {
    OpeningShape();
    var opening := Opening();
    OneOpening(prose, opening, rest, 4);
    assert opening[..|opening|] == opening;
    OneOpening(prose, opening, rest, |opening|);
  }

  lemma CountClosings(text: string)
    requires Lacks(text, '>')
    ensures CountFrom(text + Closing(), "-->", 0) == 1
    ensures EndsWith(text + Closing(), Closing())
  {
    ClosingShape();
    var body := text + Closing();
    assert body == (text + "\n--") + ['>'];
    assert body[|text| + 1..] == "-->";
    assert body[|text|..] == Closing();
    OneClosing(text + "\n--", "-->");
  }

  /** Any text of this shape yields its middle part. */
  lemma FindMarkerIn(prose: string, opening: string, marker: string, closing: string)
    requires opening == Opening() && closing == Closing()
    requires Lacks(prose, '<') && Lacks(prose, '>') && Lacks(marker, '<') && Lacks(marker, '>')
    requires EndsWith(prose, "\n\n") && Strip(prose) != "" && |prose| >= |DigestKey()|
    requires !Contains(prose, DigestKey()) && !Contains(prose, BytesKey())
    ensures FindMarker(prose + opening + marker + closing) == Some(marker)
  {
    OpeningShape();
    ClosingShape();
    CountOpenings(prose, marker + closing);
    CountClosings(prose + opening + marker);
    StartsWithin(prose, opening + marker + closing, DigestKey());
    CutBody(prose, opening, marker, closing);
  }

  lemma CutBody(prose: string, opening: string, marker: string, closing: string)
    ensures var body := prose + opening + marker + closing;
            && body[..|prose|] == prose
            && body[|prose| + |opening|..|body| - |closing|] == marker
            && body == prose + opening + (marker + closing)
            && body == prose + (opening + marker + closing)
  {
  }

  /**
   * For every descriptor and every prose the renderer accepts, reading the rendered body gives
   * that descriptor back exactly when the body is within the reader's size limit, and nothing
   * otherwise.
   */
  lemma BodyRoundTrip<D(!new)>(codec: Codec<D>, prose: string, d: D, parent: string)
    requires Sound(codec) && GoodFacts(codec.facts(d)) && IsSha(parent) && AcceptsProse(prose)
    ensures var body := RenderBody(codec, prose, d, parent);
            RecordedDescriptor(codec, body) == if Utf8Length(body) < 64 * 1024 then Some(d) else None
  {
    var f := codec.facts(d);
    var refs := References(f, parent);
    var text := Strip(prose) + refs;
    ReferencesClean(f, parent);
    ReferencesShape(f, parent);
    var a, b := StripSlice(prose);
    assert Lacks(text, '<') && Lacks(text, '>');
    NoKey(prose, refs, DigestKey());
    NoKey(prose, refs, BytesKey());
    EndsWithMore(Strip(prose), refs, "\n\n");
    assert text[|Strip(prose)| + 2] == '#';
    StripKeeps(text, |Strip(prose)| + 2);
    MarkerLetters(codec, d, '<');
    MarkerLetters(codec, d, '>');
    FindMarkerIn(text, Opening(), Marker(codec, d), Closing());
    ReadMarkerOf(codec, d);
  }
}
