/**
 * When a UAPI connection closes: exactly the dispatches that close it, what the watchdog does to
 * them, and how long an accepted client has for its first request.
 */
module TransportClosing {
  import opened Prelude
  import opened Framing
  import opened Transport
  import opened TransportRuns
  import opened TransportSessions

  /** The deadline that runs: for the pending reply if there is one, and for the request otherwise. */
  function Due(c: Conn): Option<nat> { if c.output.bytes != "" then c.writeDeadline else c.readDeadline }

  predicate Past(due: Option<nat>, now: nat) { due.Some? && due.value <= now }

  /** No request is complete, and reading fails or meets the end of the stream. */
  predicate HangsUp(c: Conn, io: Io) {
    FrameLength(c.input).None? && (io.read == ReadFailed || io.read == Got(""))
  }

  /** A write that takes all that is left of the reply. */
  predicate LastWrite(c: Conn, count: nat) {
    c.written <= |c.output.bytes| && |c.output.bytes| - c.written <= Min(count, 64 * 1024)
  }

  /** The dispatches that close a connection. */
  predicate Closes(c: Conn, io: Io) {
    || c.expired
    || Past(Due(c), io.now)
    || (c.output.bytes == "" && HangsUp(c, io))
    || (c.output.bytes != "" && (io.write == WriteFailed || io.write == Wrote(0)))
    || (&& c.output.bytes != "" && io.write.Wrote? && LastWrite(c, io.write.count)
        && (c.closeAfterWrite || HangsUp(c, io)))
  }

  // ----- one dispatch ------------------------------------------------------

  lemma ConcludeCases(c: Conn, io: Io)
    requires c.output == NO_RESPONSE && ScanOk(c)
    ensures var t := Conclude(c, io);
            && t.action != Close
            && (t.action == WaitForRead <==> FrameLength(c.input).None? && |c.input| != MAX_REQUEST)
            && (t.action == WaitForWrite <==> t.conn.output.bytes != "")
            && (t.action == WaitForRead ==> t == Quiet(c.(scanned := t.conn.scanned), WaitForRead))
  {
    ResumedSearch(c.input, c.scanned);
    var t := Conclude(c, io);
    if t.answer.Some? {
      ReplyIsWhole(t.answer.value);
    }
  }

  lemma ServeCloses(c: Conn, io: Io)
    requires Ready(c) && |c.input| < MAX_REQUEST
    ensures Serve(c, io).action == Close <==> HangsUp(c, io)
    ensures Serve(c, io).action == WaitForWrite <==> Serve(c, io).conn.output.bytes != ""
  {
    ConcludeCases(c, io);
    var t := Conclude(c, io);
    if t.action == WaitForRead && io.read.Got? {
      var chunk := Chunk(t.conn, io.read.bytes);
      assert chunk == "" <==> io.read.bytes == "";
      var full := Buffered(t.conn, chunk, io.now);
      ScanSurvives(c, t.conn, full);
      ConcludeCases(full, io);
    }
  }

  lemma ScanSurvives(c: Conn, searched: Conn, full: Conn)
    requires ScanOk(c) && FrameLength(c.input).None?
    requires searched == c.(scanned := if |c.input| == 0 then 0 else |c.input| - 1)
    requires full.scanned == searched.scanned && c.input <= full.input
    ensures ScanOk(full)
  {
    var more := full.input[|c.input|..];
    assert full.input == c.input + more;
    ScanSurvivesAppend(c.input, more);
  }

  lemma FlushCloses(c: Conn, io: Io)
    requires Settled(c) && c.output.bytes != "" && !c.expired && !Past(Due(c), io.now)
    ensures Flush(c, io).action == Close <==> Closes(c, io)
    ensures Flush(c, io).action == WaitForRead ==> Flush(c, io).conn.output.bytes == ""
    ensures Flush(c, io).action == WaitForWrite ==> Flush(c, io).conn.output.bytes != ""
  {
    if io.write.Wrote? && LastWrite(c, io.write.count) && !c.closeAfterWrite {
      ServeCloses(Flushed(c), io);
    }
  }

  /**
   * A dispatch closes the connection in exactly these cases; otherwise it asks to be woken for
   * writing exactly while a reply is pending, and for reading when none is.
   */
  lemma ClosesExactly(c: Conn, io: Io)
    requires Settled(c)
    ensures var t := Step(c, io);
            && (t.action == Close <==> Closes(c, io))
            && (t.action != Close ==> t.action == if t.conn.output.bytes != "" then WaitForWrite else WaitForRead)
  {
    if !c.expired && !Past(Due(c), io.now) {
      if c.output.bytes != "" {
        FlushCloses(c, io);
      } else {
        assert c.output == NO_RESPONSE;
        ServeCloses(c, io);
      }
    }
  }

  // ----- the watchdog ------------------------------------------------------

  lemma WatchMarks(c: Conn, now: nat)
    requires Settled(c)
    ensures Watch(c, now) == if Past(Due(c), now) then c.(expired := true) else c
  {
  }

  lemma ExpiredCloses(c: Conn, io: Io)
    requires c.expired && c.written <= |c.output.bytes|
    ensures Step(c, io) == Quiet(c, Close)
  {
  }

  lemma QuietCloses(s: Session, io: Io)
    ensures Absorb(s, io, Quiet(s.conn, Close)) == s.(closed := true)
  {
    assert s.received + "" == s.received && s.delivered + "" == s.delivered;
  }

  /**
   * A watchdog round at or past the running deadline makes the next dispatch close, whatever the
   * socket offers it and however it reads the clock, with nothing sent or handled; an earlier round
   * changes nothing.
   */
  lemma WatchdogDecides(s: Session, now: nat, io: Io)
    requires Settled(s.conn) && !s.closed && !s.conn.expired
    ensures var watched := Advance(s, Watchdog(now));
            if Past(Due(s.conn), now)
            then Advance(watched, Dispatched(io)) == s.(conn := s.conn.(expired := true), closed := true)
            else watched == s
  {
    WatchMarks(s.conn, now);
    if Past(Due(s.conn), now) {
      var watched := s.(conn := s.conn.(expired := true));
      ExpiredCloses(watched.conn, io);
      QuietCloses(watched, io);
    }
  }

  // ----- whole sessions ----------------------------------------------------

  /** The state before event `i`. */
  function Before(s: Session, events: seq<Event>, i: nat): Session
    requires i <= |events|
  {
    Exec(s, events[..i])
  }

  predicate ClosedAt(s: Session, events: seq<Event>, i: nat) {
    && i < |events| && events[i].Dispatched?
    && !Before(s, events, i).closed && Closes(Before(s, events, i).conn, events[i].io)
  }

  predicate ExpiredAt(s: Session, events: seq<Event>, i: nat) {
    && i < |events| && events[i].Watchdog?
    && !Before(s, events, i).closed && Past(Due(Before(s, events, i).conn), events[i].now)
  }

  lemma DispatchCloses(s: Session, io: Io)
    requires Settled(s.conn) && !s.closed
    ensures Advance(s, Dispatched(io)).closed <==> Closes(s.conn, io)
    ensures Advance(s, Dispatched(io)).conn.expired == s.conn.expired
  {
    ClosesExactly(s.conn, io);
    StepCases(s.conn, io);
  }

  lemma EventDecides(s: Session, e: Event)
    requires Settled(s.conn)
    ensures Advance(s, e).closed <==> s.closed || (e.Dispatched? && Closes(s.conn, e.io))
    ensures Advance(s, e).conn.expired <==> s.conn.expired || (e.Watchdog? && !s.closed && Past(Due(s.conn), e.now))
  {
    if !s.closed && e.Dispatched? {
      DispatchCloses(s, e.io);
    }
  }

  lemma Earlier(s: Session, events: seq<Event>, last: Event, i: nat)
    requires i < |events|
    ensures ClosedAt(s, events + [last], i) <==> ClosedAt(s, events, i)
    ensures ExpiredAt(s, events + [last], i) <==> ExpiredAt(s, events, i)
  {
    assert (events + [last])[..i] == events[..i];
  }

  lemma LastOfAll(s: Session, events: seq<Event>, last: Event)
    ensures var all := events + [last];
            && ((exists i: nat :: ClosedAt(s, all, i)) <==>
                (exists i: nat :: ClosedAt(s, events, i)) || ClosedAt(s, all, |events|))
            && ((exists i: nat :: ExpiredAt(s, all, i)) <==>
                (exists i: nat :: ExpiredAt(s, events, i)) || ExpiredAt(s, all, |events|))
  {
    forall i: nat | i < |events|
      ensures ClosedAt(s, events + [last], i) <==> ClosedAt(s, events, i)
      ensures ExpiredAt(s, events + [last], i) <==> ExpiredAt(s, events, i)
    {
      Earlier(s, events, last, i);
    }
  }

  lemma AtTheEnd(s: Session, events: seq<Event>, last: Event)
    ensures var all, before := events + [last], Exec(s, events);
            && Exec(s, all) == Advance(before, last)
            && (ClosedAt(s, all, |events|) <==> last.Dispatched? && !before.closed && Closes(before.conn, last.io))
            && (ExpiredAt(s, all, |events|) <==> last.Watchdog? && !before.closed && Past(Due(before.conn), last.now))
  {
    assert (events + [last])[..|events|] == events;
  }

  lemma LastStep(s: Session, events: seq<Event>, last: Event)
    requires Settled(Exec(s, events).conn)
    ensures var all := events + [last];
            && (Exec(s, all).closed <==> Exec(s, events).closed || ClosedAt(s, all, |events|))
            && (Exec(s, all).conn.expired <==> Exec(s, events).conn.expired || ExpiredAt(s, all, |events|))
  {
    AtTheEnd(s, events, last);
    EventDecides(Exec(s, events), last);
  }

  /** Closed and expired, each exactly when an event of the session made it so. */
  ghost predicate Accounted(s: Session, events: seq<Event>) {
    && (Exec(s, events).closed <==> exists i: nat :: ClosedAt(s, events, i))
    && (Exec(s, events).conn.expired <==> exists i: nat :: ExpiredAt(s, events, i))
  }

  lemma AccountedGrows(s: Session, events: seq<Event>, last: Event)
    requires Accounted(s, events) && Settled(Exec(s, events).conn)
    ensures Accounted(s, events + [last])
  {
    LastStep(s, events, last);
    LastOfAll(s, events, last);
  }

  lemma AccountedAtFirst(s: Session)
    requires !s.closed && !s.conn.expired
    ensures Accounted(s, [])
  {
  }

  lemma SettledAlong(s: Session, events: seq<Event>)
    requires Inv(s)
    ensures Settled(Exec(s, events).conn)
  {
    RunKeepsInv(s, events);
  }

  /**
   * A session is closed exactly when one of its dispatches met a reason to close, and marked as
   * expired exactly when a watchdog round found it past its running deadline.
   */
  lemma {:induction false} ClosedExactly(s: Session, events: seq<Event>)
    requires Inv(s) && !s.closed && !s.conn.expired
    ensures Accounted(s, events)
    decreases |events|
  {
    if events == [] {
      AccountedAtFirst(s);
    } else {
      var most, last := events[..|events| - 1], events[|events| - 1];
      assert events == most + [last];
      ClosedExactly(s, most);
      SettledAlong(s, most);
      AccountedGrows(s, most, last);
    }
  }

  /** The same from the opening of a connection, which is neither closed nor expired. */
  lemma SessionsCloseForAReason(inherited: bool, now: nat, events: seq<Event>)
    ensures var s := Begin(inherited, now);
            && (Exec(s, events).closed <==> exists i: nat :: ClosedAt(s, events, i))
            && (Exec(s, events).conn.expired <==> exists i: nat :: ExpiredAt(s, events, i))
  {
    BeginInv(inherited, now);
    ClosedExactly(Begin(inherited, now), events);
  }

  // ----- accepted clients --------------------------------------------------

  lemma NothingToSend(s: Session)
    requires Inv(s) && s.answers == []
    ensures s.conn.output.bytes == ""
  {
    assert Flat(s.replies) == "";
    assert |s.delivered + Pending(s.conn)| == 0;
  }

  lemma TurnKeepsFirstDeadline(s: Session, io: Io)
    requires Inv(s) && !s.closed && s.answers == [] && s.conn.readDeadline.Some?
    requires Advance(s, Dispatched(io)).answers == []
    ensures Advance(s, Dispatched(io)).conn.readDeadline == s.conn.readDeadline
  {
    NothingToSend(s);
    StepCases(s.conn, io);
  }

  /** No request is answered yet, and the deadline set at the connection stands. */
  ghost predicate Waiting(s: Session, end: nat) { s.answers == [] ==> s.conn.readDeadline == Some(end) }

  lemma EventKeepsWaiting(s: Session, e: Event, end: nat)
    requires Inv(s) && Waiting(s, end)
    ensures Waiting(Advance(s, e), end)
  {
    AnswersOnlyGrow(s, e);
    if Advance(s, e).answers == [] && !s.closed && e.Dispatched? {
      TurnKeepsFirstDeadline(s, e.io);
    }
  }

  lemma {:induction false} RunKeepsWaiting(s: Session, events: seq<Event>, end: nat)
    requires Inv(s) && Waiting(s, end)
    ensures Inv(Exec(s, events)) && Waiting(Exec(s, events), end)
    decreases |events|
  {
    if events != [] {
      var most := events[..|events| - 1];
      RunKeepsWaiting(s, most, end);
      AdvanceKeepsInv(Exec(s, most), events[|events| - 1]);
      EventKeepsWaiting(Exec(s, most), events[|events| - 1], end);
    }
  }

  lemma LateWaiterCloses(s: Session, end: nat, io: Io)
    requires Inv(s) && s.answers == [] && s.conn.readDeadline == Some(end) && io.now >= end
    ensures Advance(s, Dispatched(io)).closed
  {
    NothingToSend(s);
    if !s.closed {
      DispatchCloses(s, io);
    }
  }

  /**
   * An accepted client has one timeout from its connection on for a whole request: until one is
   * answered the deadline stands, whatever bytes arrive, and a dispatch at or past it closes.
   */
  lemma FirstRequestDeadline(now: nat, events: seq<Event>, io: Io)
    ensures var s := Exec(Begin(false, now), events);
            s.answers == [] ==>
              && s.conn.readDeadline == Some(now + 5000)
              && (io.now >= now + 5000 ==> Advance(s, Dispatched(io)).closed)
  {
    var begin, end := Begin(false, now), now + 5000;
    BeginInv(false, now);
    RunKeepsWaiting(begin, events, end);
    var s := Exec(begin, events);
    if s.answers == [] && io.now >= end {
      LateWaiterCloses(s, end, io);
    }
  }
}
