/**
 * What the UAPI stream is meant to be: frames, each ending at the first blank line after it
 * begins. This is the specification the incremental transport is held to; it knows nothing of
 * buffers, chunks or scan positions. A byte is written as the character with its code.
 */
module Framing {
  import opened Prelude

  /** Position of the first "\n\n" starting at or after `from`, if there is one. */
  function FindTerminator(s: string, from: nat): (r: Option<nat>)
    ensures r.Some? ==> from <= r.value && r.value + 1 < |s| && IsTerminator(s, r.value)
    ensures r.Some? ==> forall k :: from <= k < r.value ==> !IsTerminator(s, k)
    ensures r.None? ==> forall k :: from <= k ==> !IsTerminator(s, k)
    decreases |s| - from
  {
    if from + 1 >= |s| then None
    else if IsTerminator(s, from) then Some(from)
    else FindTerminator(s, from + 1)
  }

  predicate IsTerminator(s: string, k: nat) {
    k + 1 < |s| && s[k] == '\n' && s[k + 1] == '\n'
  }

  /** Length of the first frame, its terminator included. */
  function FrameLength(s: string): (n: Option<nat>)
    ensures n.Some? ==> 2 <= n.value <= |s|
  {
    var t := FindTerminator(s, 0);
    if t.None? then None else Some(t.value + 2)
  }

  /** The frames of a stream. */
  function Frames(s: string): seq<string>
    decreases |s|
  {
    var n := FrameLength(s);
    if n.None? then [] else [s[..n.value]] + Frames(s[n.value..])
  }

  function Flat(parts: seq<string>): string {
    if parts == [] then "" else parts[0] + Flat(parts[1..])
  }

  /** A frame on its own: its first terminator is its end. */
  predicate IsFrame(f: string) { FrameLength(f) == Some(|f|) }

  lemma TerminatorIsFirst(s: string, k: nat)
    requires IsTerminator(s, k)
    requires forall j :: 0 <= j < k ==> !IsTerminator(s, j)
    ensures FrameLength(s) == Some(k + 2)
  {
  }

  /** A blank line at `k`, as text. */
  predicate BlankLine(s: string, k: nat) { k + 2 <= |s| && s[k..k + 2] == "\n\n" }

  lemma TerminatorIsBlankLine(s: string, k: nat)
    ensures IsTerminator(s, k) <==> BlankLine(s, k)
  {
    if k + 2 <= |s| {
      assert s[k..k + 2] == [s[k], s[k + 1]];
    }
  }

  /** A frame as text: it ends with its first blank line. */
  lemma FrameText(f: string)
    ensures IsFrame(f) <==> |f| >= 2 && BlankLine(f, |f| - 2) && forall k :: 0 <= k < |f| - 2 ==> !BlankLine(f, k)
  {
    forall k: nat ensures IsTerminator(f, k) <==> BlankLine(f, k) {
      TerminatorIsBlankLine(f, k);
    }
    if |f| >= 2 && BlankLine(f, |f| - 2) && forall k :: 0 <= k < |f| - 2 ==> !BlankLine(f, k) {
      TerminatorIsFirst(f, |f| - 2);
    }
  }

  /** More bytes do not move the end of a frame already complete. */
  lemma FrameLengthStable(s: string, more: string)
    requires FrameLength(s).Some?
    ensures FrameLength(s + more) == FrameLength(s)
  {
    var k := FrameLength(s).value - 2;
    assert IsTerminator(s + more, k);
    forall j | 0 <= j < k ensures !IsTerminator(s + more, j) {
      assert !IsTerminator(s, j);
    }
    TerminatorIsFirst(s + more, k);
  }

  lemma FirstFrameIsFrame(s: string)
    requires FrameLength(s).Some?
    ensures IsFrame(s[..FrameLength(s).value])
  {
    var n := FrameLength(s).value;
    var f := s[..n];
    assert IsTerminator(f, n - 2);
    forall j | 0 <= j < n - 2 ensures !IsTerminator(f, j) {
      assert !IsTerminator(s, j);
    }
    TerminatorIsFirst(f, n - 2);
  }

  lemma FramesOfFrame(f: string, rest: string)
    requires IsFrame(f)
    ensures Frames(f + rest) == [f] + Frames(rest)
  {
    FrameLengthStable(f, rest);
    assert (f + rest)[..|f|] == f && (f + rest)[|f|..] == rest;
  }

  lemma {:induction false} FlatAppend(parts: seq<string>, last: string)
    ensures Flat(parts + [last]) == Flat(parts) + last
  {
    if parts == [] {
      assert Flat([last]) == last + Flat([]);
    } else {
      FlatAppend(parts[1..], last);
      assert (parts + [last])[1..] == parts[1..] + [last];
      Regroup(parts[0], Flat(parts[1..]), last);
    }
  }

  lemma Regroup(a: string, b: string, c: string)
    ensures a + b + c == a + (b + c)
  {
  }

  lemma Rejoin(frames: seq<string>, more: seq<string>)
    requires frames != []
    ensures [frames[0]] + (frames[1..] + more) == frames + more
  {
  }

  /**
   * The split is unique: whenever a stream is some frames followed by anything, those frames come
   * first in its split, and the split of the remainder follows.
   */
  lemma {:induction false} SplitIsUnique(frames: seq<string>, rest: string)
    requires forall i :: 0 <= i < |frames| ==> IsFrame(frames[i])
    ensures Frames(Flat(frames) + rest) == frames + Frames(rest)
    decreases |frames|
  {
    if frames == [] {
      assert Flat(frames) + rest == rest;
    } else {
      SplitIsUnique(frames[1..], rest);
      FramesOfFrame(frames[0], Flat(frames[1..]) + rest);
      SplitStep(frames, rest);
    }
  }

  lemma SplitStep(frames: seq<string>, rest: string)
    requires frames != []
    requires Frames(Flat(frames[1..]) + rest) == frames[1..] + Frames(rest)
    requires Frames(frames[0] + (Flat(frames[1..]) + rest)) == [frames[0]] + Frames(Flat(frames[1..]) + rest)
    ensures Frames(Flat(frames) + rest) == frames + Frames(rest)
  {
    Regroup(frames[0], Flat(frames[1..]), rest);
    Rejoin(frames, Frames(rest));
  }

  /** A stream that grows keeps the frames it had. */
  lemma {:induction false} FramesGrow(s: string, more: string)
    ensures Frames(s) <= Frames(s + more)
    decreases |s|
  {
    var n := FrameLength(s);
    if n.Some? {
      FrameLengthStable(s, more);
      FramesGrow(s[n.value..], more);
      assert (s + more)[..n.value] == s[..n.value];
      assert (s + more)[n.value..] == s[n.value..] + more;
    }
  }
}
