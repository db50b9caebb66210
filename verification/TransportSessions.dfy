/**
 * Whole UAPI sessions: any sequence of dispatches and watchdog rounds on one connection, with
 * everything that passed through it on record.
 */
module TransportSessions {
  import opened Prelude
  import opened Framing
  import opened Transport
  import opened TransportRuns

  /**
   * The connection and its history: all bytes read, the frames handed to the handlers, the buffer
   * discarded as oversized, the answers given and the dispatch that gave each, the replies composed
   * from them and the bytes the client was sent.
   */
  datatype Session = Session(
    conn: Conn,
    received: string,
    frames: seq<string>,
    lost: Option<string>,
    answers: seq<Answer>,
    served: seq<Io>,
    replies: seq<string>,
    delivered: string,
    closed: bool)

  datatype Event = Dispatched(io: Io) | Watchdog(now: nat)

  function Begin(inherited: bool, now: nat): Session {
    Session(Opened(inherited, now), "", [], None, [], [], [], "", false)
  }

  /** Record one turn of a dispatch. */
  function Absorb(s: Session, io: Io, t: Turn): Session {
    Session(
      t.conn,
      s.received + t.got,
      if t.frame.Some? then s.frames + [t.frame.value] else s.frames,
      if t.refused.Some? then t.refused else s.lost,
      if t.answer.Some? then s.answers + [t.answer.value] else s.answers,
      if t.answer.Some? then s.served + [io] else s.served,
      if t.answer.Some? then s.replies + [t.conn.output.bytes] else s.replies,
      s.delivered + t.sent,
      t.action == Close)
  }

  function Advance(s: Session, e: Event): Session {
    if s.closed || s.conn.written > |s.conn.output.bytes| then s
    else
      match e
      case Watchdog(now) => s.(conn := Watch(s.conn, now))
      case Dispatched(io) => Absorb(s, io, Step(s.conn, io))
  }

  function Exec(s: Session, events: seq<Event>): Session
    decreases |events|
  {
    if events == [] then s else Advance(Exec(s, events[..|events| - 1]), events[|events| - 1])
  }

  // ----- the invariant -----------------------------------------------------

  ghost predicate FramesInv(s: Session) {
    && (forall i :: 0 <= i < |s.frames| ==> IsFrame(s.frames[i]) && |s.frames[i]| <= MAX_REQUEST)
    && match s.lost
       case None => s.received == Flat(s.frames) + s.conn.input
       case Some(lost) =>
         && s.received == Flat(s.frames) + lost
         && |lost| == MAX_REQUEST && FrameLength(lost).None?
         && s.conn.input == ""
  }

  ghost predicate RepliesInv(s: Session) {
    && s.conn.written <= |s.conn.output.bytes|
    && s.delivered + Pending(s.conn) == Flat(s.replies)
    && |s.replies| == |s.answers| == |s.served| == |s.frames| + (if s.lost.Some? then 1 else 0)
    && (forall i :: 0 <= i < |s.replies| ==> s.replies[i] == Reply(s.answers[i]))
    && (forall i :: 0 <= i < |s.frames| ==> Fits(s.frames[i], s.answers[i], s.served[i]))
    && (s.lost.Some? ==> s.answers[|s.frames|] == Answer([], E2BIG))
  }

  /**
   * The answer a frame gets from the dispatch that serves it: to `get=1` the whole dump and its
   * status, to `set=1` a status alone, and to anything else EIO.
   */
  predicate Fits(frame: string, answer: Answer, io: Io) {
    && (frame == "get=1\n\n" ==> answer == io.onGet)
    && ("set=1\n" <= frame ==> answer == Answer([], io.onSet))
    && (frame != "get=1\n\n" && !("set=1\n" <= frame) ==> answer == Answer([], EIO))
  }

  lemma HandledFits(frame: string, io: Io)
    ensures Fits(frame, Handle(frame, io), io)
  {
    assert "set=1\n" <= frame ==> frame[0] == 's';
    assert "get=1\n\n"[0] == 'g';
  }

  /** On a channel that stays open, the read deadline runs exactly while input is buffered. */
  ghost predicate DeadlineInv(c: Conn) {
    c.inherited && !c.closeAfterWrite ==> (c.readDeadline.Some? <==> c.input != "")
  }

  /** A connection due to close has at most one reply left, and accepted ones are due from the start. */
  ghost predicate ClosingInv(s: Session) {
    && (!s.conn.inherited ==> s.conn.closeAfterWrite)
    && (s.conn.inherited ==> (s.conn.closeAfterWrite <==> s.lost.Some?))
    && (s.lost.Some? ==> s.conn.closeAfterWrite)
    && (s.conn.closeAfterWrite && !s.closed && s.conn.output.bytes == "" && !s.conn.inherited ==> s.replies == [])
    && (s.lost.Some? && !s.closed ==> s.conn.output.bytes != "")
    && (!s.conn.inherited ==> |s.replies| <= 1)
  }

  /** No complete frame is left waiting once there is nothing to send. */
  ghost predicate CaughtUp(s: Session) {
    !s.closed && s.conn.output.bytes == "" ==> FrameLength(s.conn.input).None?
  }

  ghost predicate Inv(s: Session) {
    && Settled(s.conn)
    && CaughtUp(s)
    && FramesInv(s)
    && RepliesInv(s)
    && DeadlineInv(s.conn)
    && ClosingInv(s)
  }

  lemma BeginInv(inherited: bool, now: nat)
    ensures Inv(Begin(inherited, now))
  {
  }

  // ----- serving keeps it --------------------------------------------------

  lemma ServedSettles(c: Conn, io: Io, t: Turn)
    requires Ready(c) && Served(c, io, t)
    ensures Settled(t.conn)
  {
    var full := Filled(c, t, io);
    if Replied(full, io, t) {
      if t.frame.Some? {
        ReplyIsWhole(Handle(t.frame.value, io));
      } else {
        ReplyIsWhole(Answer([], E2BIG));
      }
    } else {
      ScanSurvivesAppend(full.input, "");
      assert full.input + "" == full.input;
    }
  }

  lemma ServedKeepsFrames(s: Session, c: Conn, io: Io, t: Turn)
    requires FramesInv(s) && s.lost.None? && c.input == s.conn.input
    requires Served(c, io, t)
    ensures FramesInv(Absorb(s, io, t))
  {
    var full := Filled(c, t, io);
    assert s.received + t.got == Flat(s.frames) + full.input by {
      Regroup(Flat(s.frames), c.input, t.got);
      assert t.got == "" ==> s.received + t.got == s.received;
    }
    if t.frame.Some? {
      var frame := t.frame.value;
      assert full.input[..|frame|] == frame;
      FirstFrameIsFrame(full.input);
      FlatAppend(s.frames, frame);
      Regroup(Flat(s.frames), frame, t.conn.input);
    }
  }

  lemma ServedKeepsAnswers(s: Session, c: Conn, io: Io, t: Turn)
    requires |s.replies| == |s.answers| == |s.served| == |s.frames| && s.lost.None?
    requires forall i :: 0 <= i < |s.replies| ==> s.replies[i] == Reply(s.answers[i])
    requires forall i :: 0 <= i < |s.frames| ==> Fits(s.frames[i], s.answers[i], s.served[i])
    requires Served(c, io, t)
    ensures var s' := Absorb(s, io, t);
            && |s'.replies| == |s'.answers| == |s'.served| == |s'.frames| + (if s'.lost.Some? then 1 else 0)
            && (forall i :: 0 <= i < |s'.replies| ==> s'.replies[i] == Reply(s'.answers[i]))
            && (forall i :: 0 <= i < |s'.frames| ==> Fits(s'.frames[i], s'.answers[i], s'.served[i]))
            && (s'.lost.Some? ==> s'.answers[|s'.frames|] == Answer([], E2BIG))
  {
    if t.frame.Some? {
      HandledFits(t.frame.value, io);
    }
  }

  lemma ServedKeepsDelivery(s: Session, c: Conn, io: Io, t: Turn, sent: string)
    requires s.delivered + sent == Flat(s.replies)
    requires Ready(c) && Served(c, io, t)
    ensures t.conn.written <= |t.conn.output.bytes|
    ensures s.delivered + sent + Pending(t.conn) == Flat(Absorb(s, io, t).replies)
  {
    if t.answer.Some? {
      FlatAppend(s.replies, t.conn.output.bytes);
      assert Pending(t.conn) == t.conn.output.bytes;
    } else {
      assert t.conn.output.bytes == "";
      assert Pending(t.conn) == "";
      assert s.delivered + sent + "" == s.delivered + sent;
    }
  }

  lemma ServedKeepsReplies(s: Session, c: Conn, io: Io, t: Turn, sent: string)
    requires RepliesInv(s) && s.lost.None?
    requires s.delivered + sent == Flat(s.replies)
    requires Ready(c) && Served(c, io, t)
    ensures RepliesInv(Absorb(s, io, t.(sent := sent)))
  {
    ServedKeepsAnswers(s, c, io, t);
    ServedKeepsDelivery(s, c, io, t, sent);
  }

  lemma ServedCatchesUp(s: Session, c: Conn, io: Io, t: Turn)
    requires Served(c, io, t)
    ensures CaughtUp(Absorb(s, io, t))
  {
    if t.answer.Some? {
      ReplyIsWhole(t.answer.value);
    }
  }

  lemma ServedKeepsDeadline(c: Conn, io: Io, t: Turn)
    requires DeadlineInv(c) && Served(c, io, t)
    ensures DeadlineInv(t.conn)
  {
  }

  /** A turn that serves input, with `sent` already flushed, keeps everything. */
  lemma ServedKeepsInv(s: Session, c: Conn, io: Io, t: Turn, sent: string)
    requires Inv(s) && !s.closed && s.lost.None?
    requires Ready(c) && Served(c, io, t)
    requires c.input == s.conn.input && c.inherited == s.conn.inherited
    requires c.closeAfterWrite == s.conn.closeAfterWrite && DeadlineInv(c)
    requires s.delivered + sent == Flat(s.replies)
    requires !s.conn.inherited ==> s.replies == []
    ensures Inv(Absorb(s, io, t.(sent := sent)))
  {
    ServedSettles(c, io, t);
    ServedKeepsFrames(s, c, io, t);
    ServedKeepsReplies(s, c, io, t, sent);
    ServedKeepsDeadline(c, io, t);
    ServedCatchesUp(s, c, io, t);
  }

  // ----- every step keeps it -----------------------------------------------

  lemma TakeFrom(delivered: string, pending: string, taken: string)
    requires taken <= pending
    ensures delivered + taken + pending[|taken|..] == delivered + pending
  {
    assert taken + pending[|taken|..] == pending;
    Regroup(delivered, taken, pending[|taken|..]);
  }

  lemma StallKeepsInv(s: Session, io: Io, t: Turn)
    requires Inv(s) && !s.closed && Stalled(s.conn, t)
    requires s.conn.output.bytes == "" ==> t.action == Close
    ensures Inv(Absorb(s, io, t))
  {
    TakeFrom(s.delivered, Pending(s.conn), t.sent);
    assert Pending(s.conn)[|t.sent|..] == Pending(t.conn);
    assert s.received + "" == s.received;
  }

  lemma FinishKeepsInv(s: Session, io: Io, t: Turn)
    requires Inv(s) && !s.closed && Finished(s.conn, t)
    ensures Inv(Absorb(s, io, t))
  {
    assert s.received + "" == s.received;
    assert Pending(t.conn) == "";
    assert Flat(s.replies) + "" == Flat(s.replies);
  }

  lemma ContinueKeepsInv(s: Session, io: Io, t: Turn)
    requires Inv(s) && !s.closed && Continued(s.conn, io, t)
    ensures Inv(Absorb(s, io, t))
  {
    ServedKeepsInv(s, Flushed(s.conn), io, t.(sent := ""), t.sent);
    assert t.(sent := "").(sent := t.sent) == t;
  }

  lemma TurnKeepsInv(s: Session, io: Io, t: Turn)
    requires Inv(s) && !s.closed && Stepped(s.conn, io, t)
    ensures Inv(Absorb(s, io, t))
  {
    if Continued(s.conn, io, t) {
      ContinueKeepsInv(s, io, t);
    } else if Finished(s.conn, t) {
      FinishKeepsInv(s, io, t);
    } else {
      StallKeepsInv(s, io, t);
    }
  }

  lemma AdvanceKeepsInv(s: Session, e: Event)
    requires Inv(s)
    ensures Inv(Advance(s, e))
  {
    if !s.closed && e.Dispatched? {
      StepCases(s.conn, e.io);
      TurnKeepsInv(s, e.io, Step(s.conn, e.io));
    }
  }

  lemma {:induction false} RunKeepsInv(s: Session, events: seq<Event>)
    requires Inv(s)
    ensures Inv(Exec(s, events))
    decreases |events|
  {
    if events != [] {
      RunKeepsInv(s, events[..|events| - 1]);
      AdvanceKeepsInv(Exec(s, events[..|events| - 1]), events[|events| - 1]);
    }
  }

  // ----- what a session guarantees -----------------------------------------

  /**
   * Frames. Whatever the chunking and whatever follows on the stream, the frames handed to the
   * handlers are the first frames of the stream's split, in order and without gaps; what is
   * buffered is the rest; and whenever no reply is pending, every complete frame received has been
   * handled. The buffer is refused as too big exactly when the bytes after those
   * frames reached the limit, and then they contain no terminator.
   */
  lemma FramesAreTheSplit(inherited: bool, now: nat, events: seq<Event>, more: string)
    ensures var s := Exec(Begin(inherited, now), events);
            && s.frames <= Frames(s.received + more)
            && (s.lost.None? ==> Frames(s.received) == s.frames + Frames(s.conn.input))
            && (!s.closed && s.conn.output.bytes == "" ==> s.frames == Frames(s.received))
            && |Flat(s.frames)| <= |s.received|
            && (s.lost.Some? <==> |s.received| - |Flat(s.frames)| >= MAX_REQUEST)
            && (s.lost.Some? ==> FrameLength(s.received[|Flat(s.frames)|..]).None?)
  {
    BeginInv(inherited, now);
    RunKeepsInv(Begin(inherited, now), events);
    var s := Exec(Begin(inherited, now), events);
    var rest := if s.lost.Some? then s.lost.value else s.conn.input;
    SplitIsUnique(s.frames, rest);
    SplitIsUnique(s.frames, rest + more);
    Regroup(Flat(s.frames), rest, more);
    assert s.received[|Flat(s.frames)|..] == rest;
  }

  /**
   * Replies. What the client has been sent is a prefix of the replies in order, one for each
   * frame handled and one for a refused buffer; each is the whole answer with its status or the
   * overflow status alone, and fits the response limit. The answer is the one the frame asks of the
   * dispatch that served it.
   */
  lemma DeliveryIsInOrder(inherited: bool, now: nat, events: seq<Event>)
    ensures var s := Exec(Begin(inherited, now), events);
            && s.delivered <= Flat(s.replies)
            && |s.replies| == |s.answers| == |s.served| == |s.frames| + (if s.lost.Some? then 1 else 0)
            && (forall i :: 0 <= i < |s.replies| ==> s.replies[i] == Reply(s.answers[i]) && |s.replies[i]| <= MAX_RESPONSE)
            && (forall i :: 0 <= i < |s.frames| ==> Fits(s.frames[i], s.answers[i], s.served[i]))
            && (s.conn.output.bytes == "" ==> s.delivered == Flat(s.replies))
            && (!inherited ==> |s.replies| <= 1)
  {
    BeginInv(inherited, now);
    RunKeepsInv(Begin(inherited, now), events);
    RunKeepsKind(Begin(inherited, now), events);
    var s := Exec(Begin(inherited, now), events);
    forall i | 0 <= i < |s.replies| ensures |s.replies[i]| <= MAX_RESPONSE {
      ReplyIsWhole(s.answers[i]);
    }
    assert s.delivered + "" == s.delivered;
  }

  lemma ServedKeepsKind(c: Conn, io: Io, t: Turn)
    requires Served(c, io, t)
    ensures t.conn.inherited == c.inherited
  {
    assert Filled(c, t, io).inherited == c.inherited;
  }

  lemma TurnKeepsKind(c: Conn, io: Io, t: Turn)
    requires c.written <= |c.output.bytes| && Stepped(c, io, t)
    ensures t.conn.inherited == c.inherited
  {
    if Continued(c, io, t) {
      ServedKeepsKind(Flushed(c), io, t.(sent := ""));
    } else if Finished(c, t) {
      assert t.conn == Flushed(c);
    } else {
      assert t.conn == c.(written := c.written + |t.sent|);
    }
  }

  lemma AdvanceKeepsKind(s: Session, e: Event)
    requires Inv(s)
    ensures Advance(s, e).conn.inherited == s.conn.inherited
  {
    if !s.closed && e.Dispatched? {
      StepCases(s.conn, e.io);
      TurnKeepsKind(s.conn, e.io, Step(s.conn, e.io));
    }
  }

  lemma {:induction false} RunKeepsKind(s: Session, events: seq<Event>)
    requires Inv(s)
    ensures Exec(s, events).conn.inherited == s.conn.inherited
    decreases |events|
  {
    if events != [] {
      RunKeepsKind(s, events[..|events| - 1]);
      RunKeepsInv(s, events[..|events| - 1]);
      AdvanceKeepsKind(Exec(s, events[..|events| - 1]), events[|events| - 1]);
    }
  }

  /**
   * Deadlines, in every state a session reaches: the write deadline runs exactly while a reply is
   * pending; on an inherited channel not about to close, the read deadline runs exactly while
   * input is buffered; so an idle inherited channel is never timed out, however late it is.
   */
  lemma DeadlinesFollowWork(now: nat, events: seq<Event>, later: nat)
    ensures var c := Exec(Begin(true, now), events).conn;
            && (c.writeDeadline.Some? <==> c.output.bytes != "")
            && (!c.closeAfterWrite ==> (c.readDeadline.Some? <==> c.input != ""))
            && (!c.closeAfterWrite && c.input == "" && c.output.bytes == "" ==> !TimedOut(c, later))
  {
    BeginInv(true, now);
    RunKeepsInv(Begin(true, now), events);
    RunKeepsKind(Begin(true, now), events);
  }

  lemma ServedKeepsReadDeadline(c: Conn, io: Io, t: Turn, d: nat)
    requires c.readDeadline == Some(d) && Served(c, io, t)
    ensures t.conn.readDeadline == Some(d) || (t.conn.readDeadline.None? && t.conn.input == "")
  {
    assert Filled(c, t, io).readDeadline == Some(d);
  }

  lemma TurnKeepsReadDeadline(c: Conn, io: Io, t: Turn, d: nat)
    requires c.written <= |c.output.bytes| && c.readDeadline == Some(d) && Stepped(c, io, t)
    ensures t.conn.readDeadline == Some(d) || (t.conn.readDeadline.None? && t.conn.input == "")
  {
    if Continued(c, io, t) {
      ServedKeepsReadDeadline(Flushed(c), io, t.(sent := ""), d);
    } else if Finished(c, t) {
      assert t.conn == Flushed(c);
    } else {
      assert t.conn == c.(written := c.written + |t.sent|);
    }
  }

  /**
   * In every state, with or without a reply pending, an event leaves a read deadline where it is
   * or lifts it because nothing is left buffered; and a dispatch that finds no reply pending and
   * leaves the connection open came before it.
   */
  lemma DeadlineNeverMoves(s: Session, e: Event, d: nat)
    requires Inv(s) && s.conn.readDeadline == Some(d)
    ensures var c := Advance(s, e).conn;
            c.readDeadline == Some(d) || (c.readDeadline.None? && c.input == "")
    ensures Timely(s, e, d)
  {
    if !s.closed && e.Dispatched? {
      StepCases(s.conn, e.io);
      TurnKeepsReadDeadline(s.conn, e.io, Step(s.conn, e.io), d);
    }
  }

  predicate Timely(s: Session, e: Event, d: nat) {
    !s.closed && s.conn.output.bytes == "" && e.Dispatched? && !Advance(s, e).closed ==> e.io.now < d
  }

  predicate Lifted(c: Conn) { c.readDeadline.None? && c.input == "" }

  /** At some point of the run nothing was buffered and no read deadline ran. */
  predicate EverLifted(s: Session, events: seq<Event>)
    decreases |events|
  {
    Lifted(Exec(s, events).conn) || (events != [] && EverLifted(s, events[..|events| - 1]))
  }

  /** Every dispatch of the run that served with no reply pending came before the deadline. */
  predicate AllTimely(s: Session, events: seq<Event>, d: nat)
    decreases |events|
  {
    events == [] ||
    (AllTimely(s, events[..|events| - 1], d) && Timely(Exec(s, events[..|events| - 1]), events[|events| - 1], d))
  }

  /**
   * Deadlines are absolute over any run from any state: a read deadline stands where it was set,
   * however many bytes trickle in and however many pipelined requests are answered meanwhile,
   * until the buffer is emptied; and while it stands, no dispatch with nothing left to send
   * serves the connection at or after it.
   */
  lemma {:induction false} TricklingCannotExtend(s: Session, events: seq<Event>, d: nat)
    requires Inv(s) && s.conn.readDeadline == Some(d)
    ensures EverLifted(s, events) || (Exec(s, events).conn.readDeadline == Some(d) && AllTimely(s, events, d))
    decreases |events|
  {
    if events != [] {
      var init, last := events[..|events| - 1], events[|events| - 1];
      TricklingCannotExtend(s, init, d);
      if !EverLifted(s, init) {
        RunKeepsInv(s, init);
        DeadlineNeverMoves(Exec(s, init), last, d);
      }
    }
  }

  /** A request being read under deadline `d`, with no reply pending. */
  ghost predicate Reading(s: Session, d: nat) {
    Inv(s) && !s.closed && s.conn.output.bytes == "" && s.conn.readDeadline == Some(d)
  }

  lemma TurnLeavesDeadline(c: Conn, io: Io, t: Turn, d: nat)
    requires Settled(c) && c.output.bytes == "" && c.readDeadline == Some(d) && Stepped(c, io, t)
    ensures || t.action == Close
            || t.answer.Some?
            || (t.conn.output.bytes == "" && t.conn.readDeadline == Some(d) && io.now < d)
  {
  }

  /** One more event either ends the wait or leaves the deadline where it was, in the future. */
  lemma DeadlineStands(s: Session, e: Event, d: nat)
    requires Reading(s, d)
    ensures Outcome(s, Advance(s, e), [e], d)
  {
    AdvanceKeepsInv(s, e);
    if e.Dispatched? {
      StepCases(s.conn, e.io);
      TurnLeavesDeadline(s.conn, e.io, Step(s.conn, e.io), d);
    }
  }

  /** What can have become of a request read under deadline `d`. */
  ghost predicate Outcome(s: Session, s': Session, events: seq<Event>, d: nat) {
    || s'.closed
    || |s'.answers| > |s.answers|
    || (&& Reading(s', d)
        && s'.answers == s.answers
        && forall i :: 0 <= i < |events| && events[i].Dispatched? ==> events[i].io.now < d)
  }

  /**
   * A request waited for ends by its deadline: over any further run it is answered, or the
   * connection is closed, or every dispatch so far came before `d` and `d` still stands.
   */
  lemma {:induction false} WaitingEndsByDeadline(s: Session, events: seq<Event>, d: nat)
    requires Reading(s, d)
    ensures Outcome(s, Exec(s, events), events, d)
    decreases |events|
  {
    if events != [] {
      var init, last := events[..|events| - 1], events[|events| - 1];
      WaitingEndsByDeadline(s, init, d);
      OutcomeExtends(s, Exec(s, init), init, last, d);
      assert events == init + [last];
    }
  }

  lemma OutcomeExtends(s: Session, before: Session, init: seq<Event>, last: Event, d: nat)
    requires Outcome(s, before, init, d)
    ensures Outcome(s, Advance(before, last), init + [last], d)
  {
    AnswersOnlyGrow(before, last);
    if !before.closed && |before.answers| <= |s.answers| {
      DeadlineStands(before, last, d);
      assert forall i :: 0 <= i < |init| ==> (init + [last])[i] == init[i];
      assert [last][0] == last;
    }
  }

  lemma AnswersOnlyGrow(s: Session, e: Event)
    ensures s.closed ==> Advance(s, e).closed
    ensures |s.answers| <= |Advance(s, e).answers|
    ensures Advance(s, e).served == s.served || (e.Dispatched? && Advance(s, e).served == s.served + [e.io])
  {
  }

  lemma TurnStartsDeadline(c: Conn, io: Io, t: Turn)
    requires Settled(c) && DeadlineInv(c) && c.readDeadline.None? && Stepped(c, io, t)
    ensures t.conn.readDeadline.Some? ==>
              && t.conn.readDeadline == Some(io.now + TRANSACTION_TIMEOUT)
              && (c.inherited && !c.closeAfterWrite ==> c.input == "" && t.got != "")
  {
    if Continued(c, io, t) {
      ServedStartsDeadline(Flushed(c), io, t.(sent := ""));
    } else if Finished(c, t) {
      assert t.conn == Flushed(c);
    } else {
      assert t.conn == c.(written := c.written + |t.sent|);
    }
  }

  lemma ServedStartsDeadline(c: Conn, io: Io, t: Turn)
    requires c.readDeadline.None? && Served(c, io, t)
    ensures t.conn.readDeadline.Some? ==> t.conn.readDeadline == Some(io.now + TRANSACTION_TIMEOUT) && t.got != ""
  {
    var full := Filled(c, t, io);
    assert t.got == "" ==> full.readDeadline.None?;
  }

  /** A deadline starts with the first byte of an empty buffer, one timeout ahead. */
  lemma DeadlineStartsWithFirstByte(s: Session, io: Io)
    requires Inv(s) && !s.closed && s.conn.readDeadline.None?
    ensures var s' := Advance(s, Dispatched(io));
            s'.conn.readDeadline.Some? ==>
              && s'.conn.readDeadline == Some(io.now + TRANSACTION_TIMEOUT)
              && (s.conn.inherited && !s.conn.closeAfterWrite ==> s.conn.input == "" && |s'.received| > |s.received|)
  {
    StepCases(s.conn, io);
    TurnStartsDeadline(s.conn, io, Step(s.conn, io));
  }
}
