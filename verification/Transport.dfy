/**
 * One UAPI connection (boringtun/src/device/api_transport.rs): bytes are buffered, scanned from
 * where the last search stopped, handed on frame by frame, answered one at a time within bounded
 * buffers, and abandoned at absolute deadlines. A byte is written as the character with its code.
 */
module Transport {
  import opened Prelude
  import opened Decimals
  import opened Framing

  const MAX_REQUEST: nat := 1024 * 1024
  const MAX_RESPONSE: nat := 4 * 1024 * 1024
  const IO_BUDGET: nat := 64 * 1024
  /** In milliseconds. */
  const TRANSACTION_TIMEOUT: nat := 5000

  // ----- the bounded response buffer ---------------------------------------

  datatype Response = Response(bytes: string, overflow: bool)

  const NO_RESPONSE: Response := Response("", false)

  /** A write that does not fit is refused whole, and so is every write after it. */
  function Write(r: Response, piece: string): Response {
    if r.overflow || |r.bytes| + |piece| > MAX_RESPONSE then r.(overflow := true)
    else r.(bytes := r.bytes + piece)
  }

  function WriteAll(r: Response, pieces: seq<string>): Response
    decreases |pieces|
  {
    if pieces == [] then r else WriteAll(Write(r, pieces[0]), pieces[1..])
  }

  function StatusPieces(status: nat): seq<string> { ["errno=", Decimal(status), "\n\n"] }

  /** The reply line on its own. */
  function StatusLine(status: nat): string { Flat(StatusPieces(status)) }

  /** `respond`: close the body with its status, or replace everything by the overflow status. */
  function Answered(r: Response, status: nat): Response {
    var closed := WriteAll(r, StatusPieces(status));
    if closed.overflow then WriteAll(NO_RESPONSE, StatusPieces(EOVERFLOW)) else closed
  }

  // ----- the connection ----------------------------------------------------

  datatype Conn = Conn(
    inherited: bool,
    input: string,
    scanned: nat,
    output: Response,
    written: nat,
    readDeadline: Option<nat>,
    writeDeadline: Option<nat>,
    closeAfterWrite: bool,
    expired: bool)

  function Opened(inherited: bool, now: nat): Conn {
    Conn(inherited, "", 0, NO_RESPONSE, 0, if inherited then None else Some(now + TRANSACTION_TIMEOUT), None, !inherited, false)
  }

  predicate TimedOut(c: Conn, now: nat) {
    var end := if c.writeDeadline.Some? then c.writeDeadline else c.readDeadline;
    end.Some? && end.value <= now
  }

  datatype WriteResult = Wrote(count: nat) | WriteBlocked | WriteFailed
  datatype ReadResult = Got(bytes: string) | ReadBlocked | ReadFailed

  /** What the configuration code writes for a frame, and the status it returns. */
  datatype Answer = Answer(pieces: seq<string>, status: nat)

  /** One dispatch: the time, what the socket will do, and what the handlers would answer. */
  datatype Io = Io(now: nat, write: WriteResult, read: ReadResult, onGet: Answer, onSet: nat)

  datatype Action = Close | WaitForRead | WaitForWrite

  /** The outcome of a dispatch: besides the new state, what passed through the connection. */
  datatype Turn = Turn(
    conn: Conn,
    action: Action,
    sent: string,
    got: string,
    frame: Option<string>,
    refused: Option<string>,
    answer: Option<Answer>)

  function Quiet(c: Conn, action: Action): Turn { Turn(c, action, "", "", None, None, None) }

  function Respond(c: Conn, status: nat, now: nat): Conn {
    c.(output := Answered(c.output, status), writeDeadline := Some(now + TRANSACTION_TIMEOUT))
  }

  predicate IsGet(frame: string) { frame == "get=1\n\n" }

  predicate IsSet(frame: string) { |frame| >= 6 && frame[..6] == "set=1\n" }

  /** Body and status of the reply to a frame. */
  function Handle(frame: string, io: Io): Answer {
    if IsGet(frame) then io.onGet
    else if IsSet(frame) then Answer([], io.onSet)
    else Answer([], EIO)
  }

  function ProcessFrame(c: Conn, end: nat, io: Io): Turn
    requires end <= |c.input|
  {
    var frame, rest := c.input[..end], c.input[end..];
    var drained := c.(input := rest, scanned := 0, readDeadline := if rest == "" then None else c.readDeadline);
    var answer := Handle(frame, io);
    var replied := drained.(output := WriteAll(drained.output, answer.pieces));
    Turn(Respond(replied, answer.status, io.now), WaitForWrite, "", "", Some(frame), None, Some(answer))
  }

  function RefuseOversized(c: Conn, io: Io): Turn {
    var cleared := c.(input := "", scanned := 0, closeAfterWrite := true);
    Turn(Respond(cleared, E2BIG, io.now), WaitForWrite, "", "", None, Some(c.input), Some(Answer([], E2BIG)))
  }

  /** Search from the scan position, then process a frame, refuse a full buffer, or wait. */
  function Conclude(c: Conn, io: Io): Turn {
    var found := FindTerminator(c.input, c.scanned);
    var searched := c.(scanned := if |c.input| == 0 then 0 else |c.input| - 1);
    if found.Some? then ProcessFrame(searched, found.value + 2, io)
    else if |c.input| == MAX_REQUEST then RefuseOversized(searched, io)
    else Quiet(searched, WaitForRead)
  }

  function Room(c: Conn): nat {
    Min(if |c.input| <= MAX_REQUEST then MAX_REQUEST - |c.input| else 0, IO_BUDGET)
  }

  /** The bytes one read delivers into the room left. */
  function Chunk(c: Conn, bytes: string): string { bytes[..Min(|bytes|, Room(c))] }

  /** The connection with a chunk appended; the first byte of a request starts its deadline. */
  function Buffered(c: Conn, chunk: string, now: nat): Conn {
    c.(input := c.input + chunk,
       readDeadline := if c.readDeadline.Some? then c.readDeadline else Some(now + TRANSACTION_TIMEOUT))
  }

  function Receive(c: Conn, io: Io): Turn {
    match io.read
    case ReadFailed => Quiet(c, Close)
    case ReadBlocked => Quiet(c, WaitForRead)
    case Got(bytes) =>
      var chunk := Chunk(c, bytes);
      if chunk == "" then Quiet(c, Close)
      else Conclude(Buffered(c, chunk, io.now), io).(got := chunk)
  }

  function Serve(c: Conn, io: Io): Turn {
    var t := Conclude(c, io);
    if t.action == WaitForRead then Receive(t.conn, io) else t
  }

  function Pending(c: Conn): string
    requires c.written <= |c.output.bytes|
  {
    c.output.bytes[c.written..]
  }

  /** The bytes one write takes from the pending reply. */
  function Taken(c: Conn, count: nat): nat
    requires c.written <= |c.output.bytes|
  {
    Min(count, Min(IO_BUDGET, |c.output.bytes| - c.written))
  }

  function Flush(c: Conn, io: Io): Turn
    requires c.written <= |c.output.bytes|
  {
    match io.write
    case WriteFailed => Quiet(c, Close)
    case WriteBlocked => Quiet(c, WaitForWrite)
    case Wrote(count) =>
      var n := Taken(c, count);
      var sent := Pending(c)[..n];
      var moved := c.(written := c.written + n);
      if n == 0 then Quiet(c, Close)
      else if moved.written != |c.output.bytes| then Quiet(moved, WaitForWrite).(sent := sent)
      else
        var flushed := c.(output := NO_RESPONSE, written := 0, writeDeadline := None);
        if c.closeAfterWrite then Quiet(flushed, Close).(sent := sent)
        else Serve(flushed, io).(sent := sent)
  }

  function Step(c: Conn, io: Io): Turn
    requires c.written <= |c.output.bytes|
  {
    if c.expired || TimedOut(c, io.now) then Quiet(c, Close)
    else if c.output.bytes != "" then Flush(c, io)
    else Serve(c, io)
  }

  /** The watchdog: a connection past its deadline is marked, and closes when it next runs. */
  function Watch(c: Conn, now: nat): Conn {
    c.(expired := c.expired || TimedOut(c, now))
  }

  // ----- the connection as an object ---------------------------------------

  class Connection {
    const inherited: bool
    var input: string
    var scanned: nat
    var output: Response
    var written: nat
    var readDeadline: Option<nat>
    var writeDeadline: Option<nat>
    var closeAfterWrite: bool
    var expired: bool

    function Value(): Conn
      reads this
    {
      Conn(inherited, input, scanned, output, written, readDeadline, writeDeadline, closeAfterWrite, expired)
    }

    constructor (inherited: bool, now: nat)
      ensures Value() == Opened(inherited, now)
    {
      this.inherited := inherited;
      input, scanned := "", 0;
      output, written := NO_RESPONSE, 0;
      readDeadline := if inherited then None else Some(now + TRANSACTION_TIMEOUT);
      writeDeadline := None;
      closeAfterWrite := !inherited;
      expired := false;
    }

    /** `frame_end`: look at each window of two from the scan position on, and remember how far that went. */
    method FrameEnd() returns (end: Option<nat>)
      modifies this`scanned
      ensures scanned == if |input| == 0 then 0 else |input| - 1
      ensures var found := FindTerminator(input, old(scanned));
              end == if found.None? then None else Some(found.value + 2)
    {
      var i := scanned;
      end := None;
      while i + 1 < |input| && end.None?
        invariant scanned == old(scanned) <= i
        invariant end.None? ==> FindTerminator(input, scanned) == FindTerminator(input, i)
        invariant end.Some? ==> FindTerminator(input, scanned).Some? && end.value == FindTerminator(input, scanned).value + 2
        decreases if end.Some? then 0 else |input| + 1 - i
      {
        if input[i] == '\n' && input[i + 1] == '\n' {
          end := Some(i + 2);
        } else {
          i := i + 1;
        }
      }
      scanned := if |input| == 0 then 0 else |input| - 1;
    }

    method WritePieces(pieces: seq<string>)
      modifies this`output
      ensures output == WriteAll(old(output), pieces)
    {
      var i := 0;
      while i < |pieces|
        invariant 0 <= i <= |pieces|
        invariant WriteAll(output, pieces[i..]) == WriteAll(old(output), pieces)
      {
        assert pieces[i..][1..] == pieces[i + 1..];
        output := Write(output, pieces[i]);
        i := i + 1;
      }
    }

    method RespondWith(status: nat, now: nat) returns (action: Action)
      modifies this`output, this`writeDeadline
      ensures Value() == Respond(old(Value()), status, now) && action == WaitForWrite
    {
      WritePieces(StatusPieces(status));
      if output.overflow {
        output := NO_RESPONSE;
        WritePieces(StatusPieces(EOVERFLOW));
      }
      writeDeadline := Some(now + TRANSACTION_TIMEOUT);
      return WaitForWrite;
    }

    method Process(end: nat, io: Io) returns (action: Action)
      requires end <= |input|
      modifies this`input, this`scanned, this`readDeadline, this`output, this`writeDeadline
      ensures Value() == ProcessFrame(old(Value()), end, io).conn && action == WaitForWrite
    {
      var frame := input[..end];
      input, scanned := input[end..], 0;
      if input == "" {
        readDeadline := None;
      }
      var answer := Handle(frame, io);
      WritePieces(answer.pieces);
      action := RespondWith(answer.status, io.now);
    }

    method Refuse(io: Io) returns (action: Action)
      modifies this`input, this`scanned, this`closeAfterWrite, this`output, this`writeDeadline
      ensures Value() == RefuseOversized(old(Value()), io).conn && action == WaitForWrite
    {
      input, scanned, closeAfterWrite := "", 0, true;
      action := RespondWith(E2BIG, io.now);
    }

    /** The part of `step` that follows each search. */
    method SearchAndAct(io: Io) returns (action: Action)
      modifies this`input, this`scanned, this`readDeadline, this`closeAfterWrite, this`output, this`writeDeadline
      ensures var t := Conclude(old(Value()), io); Value() == t.conn && action == t.action
    {
      var end := FrameEnd();
      if end.Some? {
        action := Process(end.value, io);
      } else if |input| == MAX_REQUEST {
        action := Refuse(io);
      } else {
        action := WaitForRead;
      }
    }

    method Append(chunk: string, now: nat)
      modifies this`input, this`readDeadline
      ensures Value() == Buffered(old(Value()), chunk, now)
    {
      if readDeadline.None? {
        readDeadline := Some(now + TRANSACTION_TIMEOUT);
      }
      input := input + chunk;
    }

    /** Read once into the room left, then search again. */
    method ReadOnce(io: Io) returns (action: Action)
      modifies this`input, this`scanned, this`readDeadline, this`closeAfterWrite, this`output, this`writeDeadline
      ensures var t := Receive(old(Value()), io); Value() == t.conn && action == t.action
    {
      if io.read.ReadBlocked? {
        return WaitForRead;
      }
      if io.read.ReadFailed? {
        return Close;
      }
      var chunk := Chunk(Value(), io.read.bytes);
      if chunk == "" {
        return Close;
      }
      Append(chunk, io.now);
      action := SearchAndAct(io);
    }

    method ServeInput(io: Io) returns (action: Action)
      modifies this`input, this`scanned, this`readDeadline, this`closeAfterWrite, this`output, this`writeDeadline
      ensures var t := Serve(old(Value()), io); Value() == t.conn && action == t.action
    {
      action := SearchAndAct(io);
      if action == WaitForRead {
        action := ReadOnce(io);
      }
    }

    /** `step`. */
    method Dispatch(io: Io) returns (action: Action)
      requires written <= |output.bytes|
      modifies this
      ensures var t := Step(old(Value()), io); Value() == t.conn && action == t.action
    {
      if expired || TimedOut(Value(), io.now) {
        return Close;
      }
      if output.bytes != "" {
        if io.write.WriteFailed? {
          return Close;
        }
        if io.write.WriteBlocked? {
          return WaitForWrite;
        }
        var n := Taken(Value(), io.write.count);
        if n == 0 {
          return Close;
        }
        written := written + n;
        if written != |output.bytes| {
          return WaitForWrite;
        }
        output, written, writeDeadline := NO_RESPONSE, 0, None;
        if closeAfterWrite {
          return Close;
        }
      }
      action := ServeInput(io);
    }
  }
}
