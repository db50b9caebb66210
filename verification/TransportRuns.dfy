/**
 * What a UAPI client can count on over a whole connection, however its bytes are chunked and
 * however slowly its replies are taken: the frames handled, the bytes delivered, the deadlines.
 */
module TransportRuns {
  import opened Prelude
  import opened Decimals
  import opened Framing
  import opened Transport

  // ----- replies -----------------------------------------------------------

  lemma {:induction false} WriteAllSticks(r: Response, pieces: seq<string>)
    requires r.overflow
    ensures WriteAll(r, pieces) == r
    decreases |pieces|
  {
    if pieces != [] {
      WriteAllSticks(r, pieces[1..]);
    }
  }

  /** All pieces are kept or the overflow shows: nothing is cut. */
  lemma {:induction false} WriteAllWhole(r: Response, pieces: seq<string>)
    requires !r.overflow && |r.bytes| <= MAX_RESPONSE
    ensures var w := WriteAll(r, pieces);
            if |r.bytes| + |Flat(pieces)| <= MAX_RESPONSE then w == Response(r.bytes + Flat(pieces), false)
            else w.overflow
    decreases |pieces|
  {
    if pieces == [] {
      assert r.bytes + "" == r.bytes;
    } else if |r.bytes| + |pieces[0]| > MAX_RESPONSE {
      WriteAllSticks(r.(overflow := true), pieces[1..]);
    } else {
      WriteAllWhole(Write(r, pieces[0]), pieces[1..]);
      Regroup(r.bytes, pieces[0], Flat(pieces[1..]));
    }
  }

  lemma OverflowLineFits()
    ensures 0 < |StatusLine(EOVERFLOW)| <= MAX_RESPONSE
  {
    assert Decimal(75) == Decimal(7) + [Digit(5)];
    assert |Decimal(75)| == 2;
    FlatThree("errno=", Decimal(75), "\n\n");
  }

  lemma FlatThree(a: string, b: string, c: string)
    ensures Flat([a, b, c]) == a + (b + (c + ""))
    ensures |Flat([a, b, c])| == |a| + |b| + |c|
  {
    assert [a, b, c][1..] == [b, c] && [b, c][1..] == [c] && [c][1..] == [];
    assert Flat([c]) == c + Flat([]);
    assert Flat([b, c]) == b + Flat([c]);
  }

  /** The reply to a frame: the whole body with its status, or, if that is too long, the overflow status alone. */
  function Reply(answer: Answer): string {
    var whole := Flat(answer.pieces) + StatusLine(answer.status);
    if |whole| <= MAX_RESPONSE then whole else StatusLine(EOVERFLOW)
  }

  lemma ReplyIsWhole(answer: Answer)
    ensures Answered(WriteAll(NO_RESPONSE, answer.pieces), answer.status) == Response(Reply(answer), false)
    ensures 0 < |Reply(answer)| <= MAX_RESPONSE
  {
    var body := WriteAll(NO_RESPONSE, answer.pieces);
    WriteAllWhole(NO_RESPONSE, answer.pieces);
    OverflowLineFits();
    WriteAllWhole(NO_RESPONSE, StatusPieces(EOVERFLOW));
    FlatThree("errno=", Decimal(answer.status), "\n\n");
    if body.overflow {
      WriteAllSticks(body, StatusPieces(answer.status));
    } else {
      assert "" + Flat(answer.pieces) == Flat(answer.pieces);
      WriteAllWhole(body, StatusPieces(answer.status));
    }
  }

  // ----- the resumable search ----------------------------------------------

  predicate ScanOk(c: Conn) {
    c.scanned <= |c.input| && forall k :: 0 <= k < c.scanned ==> !IsTerminator(c.input, k)
  }

  /** Resuming where the last search stopped finds what a search of the whole buffer would find. */
  lemma {:induction false} ResumedSearch(s: string, from: nat)
    requires forall k :: 0 <= k < from ==> !IsTerminator(s, k)
    ensures FindTerminator(s, from) == FindTerminator(s, 0)
  {
    var a, b := FindTerminator(s, from), FindTerminator(s, 0);
    if b.Some? {
      assert from <= b.value;
    }
  }

  /** Bytes appended after an exhausted search leave the scan position valid. */
  lemma ScanSurvivesAppend(input: string, chunk: string)
    requires FrameLength(input).None?
    ensures var n := if |input| == 0 then 0 else |input| - 1;
            n <= |input + chunk| && forall k :: 0 <= k < n ==> !IsTerminator(input + chunk, k)
  {
    forall k | 0 <= k < |input| - 1 ensures !IsTerminator(input + chunk, k) {
      assert !IsTerminator(input, k);
    }
  }

  // ----- one dispatch ------------------------------------------------------

  /** Nothing to send, and input that may just have grown. */
  predicate Ready(c: Conn) {
    && c.output == NO_RESPONSE && c.written == 0 && c.writeDeadline.None?
    && |c.input| <= MAX_REQUEST
    && ScanOk(c)
  }

  /** Between dispatches. */
  predicate Settled(c: Conn) {
    && c.written <= |c.output.bytes| <= MAX_RESPONSE
    && !c.output.overflow
    && (c.output.bytes == "" ==> c.written == 0)
    && (c.output.bytes != "" ==> c.written < |c.output.bytes|)
    && (c.writeDeadline.Some? <==> c.output.bytes != "")
    && |c.input| < MAX_REQUEST
    && ScanOk(c)
  }

  /** A turn that ended with a reply to send: to one frame, or to a full buffer without terminator. */
  predicate Replied(c: Conn, io: Io, t: Turn) {
    && t.action == WaitForWrite
    && t.conn.written == 0
    && t.conn.writeDeadline == Some(io.now + TRANSACTION_TIMEOUT)
    && t.conn.inherited == c.inherited && t.conn.expired == c.expired
    && t.conn.scanned == 0
    && match t.frame
       case Some(frame) =>
         && t.refused.None?
         && t.answer == Some(Handle(frame, io))
         && FrameLength(c.input) == Some(|frame|)
         && c.input == frame + t.conn.input
         && t.conn.output == Response(Reply(Handle(frame, io)), false)
         && t.conn.closeAfterWrite == c.closeAfterWrite
         && t.conn.readDeadline == (if t.conn.input == "" then None else c.readDeadline)
       case None =>
         && t.refused == Some(c.input)
         && t.answer == Some(Answer([], E2BIG))
         && |c.input| == MAX_REQUEST && FrameLength(c.input).None?
         && t.conn.input == "" && t.conn.readDeadline == c.readDeadline
         && t.conn.output == Response(Reply(Answer([], E2BIG)), false)
         && t.conn.closeAfterWrite
  }

  predicate Waited(c: Conn, t: Turn) {
    && t.action == WaitForRead
    && t.frame.None? && t.refused.None? && t.answer.None?
    && FrameLength(c.input).None? && |c.input| < MAX_REQUEST
    && t.conn == c.(scanned := if |c.input| == 0 then 0 else |c.input| - 1)
  }

  lemma ProcessReplies(c: Conn, end: nat, io: Io)
    requires c.output == NO_RESPONSE && c.written == 0
    requires FrameLength(c.input) == Some(end)
    ensures Replied(c, io, ProcessFrame(c, end, io))
  {
    var frame, rest := c.input[..end], c.input[end..];
    CutAndJoin(c.input, end);
    ReplyIsWhole(Handle(frame, io));
    ProcessedConn(c, end, io, Handle(frame, io));
  }

  lemma CutAndJoin(s: string, n: nat)
    requires n <= |s|
    ensures s[..n] + s[n..] == s && |s[..n]| == n
  {
  }

  /** The state a processed frame leaves, given the handlers' answer to it. */
  lemma ProcessedConn(c: Conn, end: nat, io: Io, answer: Answer)
    requires end <= |c.input| && answer == Handle(c.input[..end], io)
    ensures var t := ProcessFrame(c, end, io);
            var rest := c.input[end..];
            && t.frame == Some(c.input[..end]) && t.refused.None? && t.action == WaitForWrite
            && t.answer == Some(answer)
            && t.conn == c.(input := rest, scanned := 0,
                            readDeadline := if rest == "" then None else c.readDeadline,
                            output := Answered(WriteAll(c.output, answer.pieces), answer.status),
                            writeDeadline := Some(io.now + TRANSACTION_TIMEOUT))
  {
  }

  lemma RefusalReplies(c: Conn, io: Io)
    requires c.output == NO_RESPONSE && c.written == 0
    requires |c.input| == MAX_REQUEST && FrameLength(c.input).None?
    ensures Replied(c, io, RefuseOversized(c, io))
  {
    ReplyIsWhole(Answer([], E2BIG));
  }

  lemma ConcludeCases(c: Conn, io: Io)
    requires Ready(c)
    ensures var t := Conclude(c, io);
            t.got == "" && t.sent == "" && (Replied(c, io, t) || Waited(c, t))
    ensures Waited(c, Conclude(c, io)) <==> FrameLength(c.input).None? && |c.input| < MAX_REQUEST
  {
    ResumedSearch(c.input, c.scanned);
    var searched := c.(scanned := if |c.input| == 0 then 0 else |c.input| - 1);
    var n := FrameLength(c.input);
    if n.Some? {
      ProcessReplies(searched, n.value, io);
    } else if |c.input| == MAX_REQUEST {
      RefusalReplies(searched, io);
    }
  }

  /** The connection as the last search of a turn saw it. */
  function Filled(c: Conn, t: Turn, io: Io): Conn {
    if t.got == "" then c else Buffered(c, t.got, io.now)
  }

  /** What a dispatch with nothing left to send does. */
  predicate Served(c: Conn, io: Io, t: Turn) {
    var full := Filled(c, t, io);
    && t.sent == ""
    && |full.input| <= MAX_REQUEST
    && (t.got != "" ==> FrameLength(c.input).None?)
    && (|| Replied(full, io, t)
        || (&& t.action != WaitForWrite
            && t.frame.None? && t.refused.None? && t.answer.None?
            && FrameLength(full.input).None? && |full.input| < MAX_REQUEST
            && t.conn == full.(scanned := if |full.input| == 0 then 0 else |full.input| - 1)))
  }

  lemma ReceiveCases(c: Conn, io: Io)
    requires Ready(c) && Waited(c, Quiet(c, WaitForRead))
    ensures Served(c, io, Receive(c, io))
  {
    if io.read.Got? && Chunk(c, io.read.bytes) != "" {
      var chunk := Chunk(c, io.read.bytes);
      var t := Receive(c, io);
      ScanSurvivesAppend(c.input, chunk);
      var full := Filled(c, t, io);
      assert t.got == chunk;
      ConcludeCases(full, io);
    }
  }

  lemma ServeCases(c: Conn, io: Io)
    requires Ready(c)
    ensures Served(c, io, Serve(c, io))
  {
    ConcludeCases(c, io);
    var t := Conclude(c, io);
    if t.action == WaitForRead {
      var n := |c.input|;
      ScanSurvivesAppend(c.input, "");
      assert c.input + "" == c.input;
      ReceiveCases(t.conn, io);
      ServedFromScan(c, t.conn, io);
    }
  }

  /** The first search only moves the scan position. */
  lemma ServedFromScan(c: Conn, searched: Conn, io: Io)
    requires searched == c.(scanned := if |c.input| == 0 then 0 else |c.input| - 1)
    requires Served(searched, io, Receive(searched, io))
    ensures Served(c, io, Receive(searched, io))
  {
    var t := Receive(searched, io);
    assert Replied(Filled(searched, t, io), io, t) ==> Replied(Filled(c, t, io), io, t);
  }

  // ----- a whole step ------------------------------------------------------

  /** The connection once its reply is out. */
  function Flushed(c: Conn): Conn { c.(output := NO_RESPONSE, written := 0, writeDeadline := None) }

  predicate Silent(t: Turn) { t.got == "" && t.frame.None? && t.refused.None? && t.answer.None? }

  /** Nothing but, at most, part of the pending reply moved. */
  predicate Stalled(c: Conn, t: Turn)
    requires c.written <= |c.output.bytes|
  {
    && Silent(t)
    && t.conn == c.(written := c.written + |t.sent|)
    && t.sent <= Pending(c)
    && (t.sent != "" ==> |t.sent| < |Pending(c)| && t.action == WaitForWrite)
  }

  /** The last reply is out and the connection closes. */
  predicate Finished(c: Conn, t: Turn)
    requires c.written <= |c.output.bytes|
  {
    && Silent(t)
    && c.output.bytes != "" && c.closeAfterWrite
    && t.conn == Flushed(c) && t.sent == Pending(c) && t.action == Close
  }

  /** Any pending reply is out, and input was served. */
  predicate Continued(c: Conn, io: Io, t: Turn)
    requires c.written <= |c.output.bytes|
  {
    && (c.output.bytes != "" ==> !c.closeAfterWrite)
    && t.sent == Pending(c)
    && !c.expired && !TimedOut(c, io.now)
    && Served(Flushed(c), io, t.(sent := ""))
  }

  predicate Stepped(c: Conn, io: Io, t: Turn)
    requires c.written <= |c.output.bytes|
  {
    || (Stalled(c, t) && (c.output.bytes == "" ==> t.action == Close))
    || Finished(c, t)
    || Continued(c, io, t)
  }

  lemma FlushCases(c: Conn, io: Io)
    requires Settled(c) && c.output.bytes != "" && !c.expired && !TimedOut(c, io.now)
    ensures Stepped(c, io, Flush(c, io))
  {
    if io.write.Wrote? && Taken(c, io.write.count) > 0 {
      var n := Taken(c, io.write.count);
      var pending := Pending(c);
      if n == |pending| {
        assert pending[..n] == pending;
        if !c.closeAfterWrite {
          ServeCases(Flushed(c), io);
          assert Serve(Flushed(c), io).(sent := "") == Serve(Flushed(c), io);
        }
      } else {
        assert |pending[..n]| == n;
      }
    } else {
      assert c.(written := c.written + 0) == c;
    }
  }

  lemma StepCases(c: Conn, io: Io)
    requires Settled(c)
    ensures Stepped(c, io, Step(c, io))
  {
    if c.expired || TimedOut(c, io.now) {
      assert c.(written := c.written + 0) == c;
    } else if c.output.bytes != "" {
      FlushCases(c, io);
    } else {
      assert Flushed(c) == c && Pending(c) == "";
      ServeCases(c, io);
      assert Serve(c, io).(sent := "") == Serve(c, io);
    }
  }
}
