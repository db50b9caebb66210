/**
 * The kqueue event registry (boringtun/src/device/kqueue.rs), for events on file descriptors: a
 * table of handlers indexed by descriptor, the kernel's filters under (descriptor, filter), and
 * the guards through which a delivered event is exclusively held until it is re-armed.
 *
 * A registration arms READ before it stores the handler. It holds the table's lock across both,
 * but deliveries, and guards that re-arm, take no lock; the steps below are cut there.
 */
module Kqueue {
  import opened Prelude
  import opened SlotTable

  datatype Filter = Read | Write

  /** A registered handler: its identity, whether it is a stream, and which filter to arm next. */
  datatype Event = Event(handler: nat, stream: bool, writeInterest: bool)

  /** A filter the kernel knows, armed or not, and the handler it reports. */
  datatype Kev = Kev(enabled: bool, handler: nat)

  /** A handler armed but not yet in the table. */
  datatype Pending = Pending(fd: nat, event: Event)

  /** `guards` holds the live guards; `pending` is the registration holding the table's lock. */
  datatype Poll = Poll(events: seq<Option<Event>>, kernel: map<(nat, Filter), Kev>, guards: multiset<Guard>, pending: Option<Pending>)

  const EMPTY: Poll := Poll([], map[], multiset{}, None)

  function Slot(p: Poll, fd: nat): Option<Event> { At(p.events, fd) }

  predicate Registering(p: Poll, fd: nat) { p.pending.Some? && p.pending.value.fd == fd }

  /** The handler a descriptor's deliveries go to. */
  function Subject(p: Poll, fd: nat): Option<Event> {
    if Registering(p, fd) then Some(p.pending.value.event) else Slot(p, fd)
  }

  // ----- the kernel --------------------------------------------------------

  type Kernel = map<(nat, Filter), Kev>

  function Add(k: Kernel, fd: nat, filter: Filter, enabled: bool, handler: nat): Kernel {
    k[(fd, filter) := Kev(enabled, handler)]
  }

  function Delete(k: Kernel, fd: nat, filter: Filter): Kernel { k - {(fd, filter)} }

  /** Arming a filter makes it report whoever arms it; one that is not there fails with ENOENT and changes nothing. */
  function Enable(k: Kernel, fd: nat, filter: Filter, handler: nat): Kernel {
    if (fd, filter) in k then k[(fd, filter) := Kev(true, handler)] else k
  }

  function Disable(k: Kernel, fd: nat, filter: Filter): Kernel {
    if (fd, filter) in k then k[(fd, filter) := k[(fd, filter)].(enabled := false)] else k
  }

  // ----- the operations ----------------------------------------------------

  datatype Outcome = Registered | Exists | Refused

  datatype Result = Result(poll: Poll, outcome: Outcome)

  /**
   * `register_event` up to the READ filter's addition; the flags say whether the kernel accepts
   * the WRITE and READ additions. A success leaves the handler armed and still to be stored.
   */
  function Arm(p: Poll, fd: nat, handler: nat, stream: bool, writeOk: bool, readOk: bool): Result {
    var events := Grow(p.events, fd);
    if stream && events[fd].Some? then Result(p.(events := events), Exists)
    else if stream && !writeOk then Result(p.(events := events), Refused)
    else
      var reserved := if stream then Add(p.kernel, fd, Write, false, handler) else p.kernel;
      if !readOk then
        Result(p.(events := events, kernel := if stream then Delete(reserved, fd, Write) else reserved), Refused)
      else
        var kernel := Add(reserved, fd, Read, true, handler);
        Result(p.(events := events, kernel := kernel, pending := Some(Pending(fd, Event(handler, stream, false)))), Registered)
  }

  /** The rest of `register_event`: a displaced stream's WRITE filter leaves, and the handler is stored. */
  function Store(p: Poll): Poll
    requires p.pending.Some? && p.pending.value.fd < |p.events|
  {
    var fd, ev := p.pending.value.fd, p.pending.value.event;
    var displaced := p.events[fd];
    p.(events := p.events[fd := Some(ev)],
       kernel := if displaced.Some? && displaced.value.stream then Delete(p.kernel, fd, Write) else p.kernel,
       pending := None)
  }

  /** `clear_event_by_fd`. */
  function Clear(p: Poll, fd: nat): Poll {
    match Slot(p, fd)
    case None => p
    case Some(ev) =>
      var kernel := Delete(p.kernel, fd, Read);
      p.(events := p.events[fd := None], kernel := if ev.stream then Delete(kernel, fd, Write) else kernel)
  }

  /** The event a guard's handler carries; of a handler no longer there only its identity matters. */
  function Borrowed(p: Poll, fd: nat, handler: nat): Event {
    var subject, slot := Subject(p, fd), Slot(p, fd);
    if subject.Some? && subject.value.handler == handler then subject.value
    else if slot.Some? && slot.value.handler == handler then slot.value
    else Event(handler, false, false)
  }

  /** A guard's flag is kept in the event it was made for, stored or not. */
  function Interested(p: Poll, fd: nat, handler: nat, enabled: bool): Poll {
    var ev := Borrowed(p, fd, handler).(writeInterest := enabled);
    if Registering(p, fd) && p.pending.value.event.handler == handler then p.(pending := Some(Pending(fd, ev)))
    else if Slot(p, fd).Some? && Slot(p, fd).value.handler == handler then p.(events := p.events[fd := Some(ev)])
    else p
  }

  /** The filter a guard arms when it is dropped. */
  function Desired(ev: Event): Filter { if ev.stream && ev.writeInterest then Write else Read }

  datatype Step =
    | Enrol(fd: nat, handler: nat, stream: bool, writeOk: bool, readOk: bool)
    | Install
    | Deliver(fd: nat, filter: Filter)
    | NotifyWritable(fd: nat, handler: nat, enabled: bool)
    | DropGuard(fd: nat, handler: nat)
    | Cancel(fd: nat, handler: nat)
    | ClearByFd(fd: nat)

  predicate Armed(p: Poll, fd: nat, filter: Filter) {
    (fd, filter) in p.kernel && p.kernel[(fd, filter)].enabled
  }

  /**
   * A step; one its caller is in no position to take (no guard, nothing armed, the table's lock
   * held by a registration) changes nothing.
   */
  function Apply(p: Poll, step: Step): Poll {
    match step
    case Enrol(fd, handler, stream, writeOk, readOk) =>
      if p.pending.Some? then p else Arm(p, fd, handler, stream, writeOk, readOk).poll
    case Install =>
      if p.pending.Some? && p.pending.value.fd < |p.events| then Store(p) else p
    case Deliver(fd, filter) =>
      if Armed(p, fd, filter)
      then p.(kernel := Disable(p.kernel, fd, filter),
              guards := p.guards + multiset{Guard(fd, p.kernel[(fd, filter)].handler)})
      else p
    case NotifyWritable(fd, handler, enabled) =>
      if Guard(fd, handler) in p.guards then Interested(p, fd, handler, enabled) else p
    case DropGuard(fd, handler) =>
      if Guard(fd, handler) in p.guards
      then p.(kernel := Enable(p.kernel, fd, Desired(Borrowed(p, fd, handler)), handler),
              guards := p.guards - multiset{Guard(fd, handler)})
      else p
    case Cancel(fd, handler) =>
      if Guard(fd, handler) in p.guards && p.pending.None?
      then Clear(p, fd).(guards := p.guards - multiset{Guard(fd, handler)})
      else p
    case ClearByFd(fd) => if p.pending.None? then Clear(p, fd) else p
  }

  // ----- the invariant -----------------------------------------------------

  /** A stream that a registration under way is about to displace: its WRITE filter is still there. */
  predicate Displacing(p: Poll, fd: nat) {
    Registering(p, fd) && Slot(p, fd).Some? && Slot(p, fd).value.stream
  }

  /**
   * One descriptor's handler, filters and guards agree. Without a handler there are neither
   * filters nor guards. A plain event has its READ filter, a stream both, all reporting that
   * handler, as does every live guard; with no guard live exactly the desired filter is armed,
   * with one live none is, and there are never two.
   */
  ghost predicate SlotInv(p: Poll, fd: nat) {
    && (Registering(p, fd) ==> fd < |p.events|)
    && match Subject(p, fd)
       case None => (fd, Read) !in p.kernel && (fd, Write) !in p.kernel && Free(p.guards, fd)
       case Some(ev) => HeldBy(p.guards, fd, ev.handler) && FiltersInv(p, fd, ev, p.guards[Guard(fd, ev.handler)])
  }

  predicate FiltersInv(p: Poll, fd: nat, ev: Event, guards: nat) {
    && (fd, Read) in p.kernel
    && ((fd, Write) in p.kernel <==> ev.stream || Displacing(p, fd))
    && (ev.stream ==> !Displacing(p, fd))
    && p.kernel[(fd, Read)].handler == ev.handler
    && (ev.stream ==> p.kernel[(fd, Write)].handler == ev.handler)
    && guards <= 1
    && (Armed(p, fd, Read) <==> guards == 0 && Desired(ev) == Read)
    && (Armed(p, fd, Write) <==> guards == 0 && Desired(ev) == Write)
  }

  ghost predicate Inv(p: Poll) { forall fd: nat :: SlotInv(p, fd) }

  /** No guard for the descriptor is live, nor can WRITE make one for a handler about to go. */
  ghost predicate Quiet(p: Poll, fd: nat) { Free(p.guards, fd) && !Armed(p, fd, Write) }

  /**
   * What the callers owe: a descriptor is not registered again, nor cleared from outside, while
   * its event is being handled. Handlers own their descriptors, so its number cannot come back
   * before then.
   */
  ghost predicate Owed(p: Poll, step: Step) {
    match step
    case Enrol(fd, _, _, _, _) => Quiet(p, fd)
    case ClearByFd(fd) => Free(p.guards, fd)
    case _ => true
  }

  /** A registration the kernel or the table refuses leaves every slot and the kernel as they were. */
  lemma FailedRegistrationChangesNothing(p: Poll, fd: nat, handler: nat, stream: bool, writeOk: bool, readOk: bool, other: nat)
    requires Inv(p) && p.pending.None?
    requires !Arm(p, fd, handler, stream, writeOk, readOk).outcome.Registered?
    ensures var r := Arm(p, fd, handler, stream, writeOk, readOk);
            && r.poll == p.(events := r.poll.events)
            && Slot(r.poll, other) == Slot(p, other)
    ensures Arm(p, fd, handler, stream, writeOk, readOk).outcome.Exists? <==> stream && Slot(p, fd).Some?
  {
    GrowKeepsSlots(p.events, fd, other);
    GrowKeepsSlots(p.events, fd, fd);
    assert SlotInv(p, fd);
    if stream && Slot(p, fd).None? {
      assert Delete(Add(p.kernel, fd, Write, false, handler), fd, Write) == p.kernel;
    }
  }

  /** What arming leaves of its own slot and of any other. */
  lemma ArmedSlot(p: Poll, fd: nat, handler: nat, stream: bool, other: nat)
    requires p.pending.None? && SlotInv(p, fd) && SlotInv(p, other) && !(stream && Slot(p, fd).Some?)
    ensures var q := Arm(p, fd, handler, stream, true, true).poll;
            && q.guards == p.guards && Registering(q, fd)
            && Slot(q, fd) == Slot(p, fd)
            && (other != fd ==> SlotInv(q, other))
            && (SlotInv(q, fd) <==> Quiet(p, fd))
  {
    GrowKeepsSlots(p.events, fd, fd);
    GrowKeepsSlots(p.events, fd, other);
    var q := Arm(p, fd, handler, stream, true, true).poll;
    assert Free(q.guards, fd) ==> q.guards[Guard(fd, handler)] == 0 && HeldBy(q.guards, fd, handler);
    if !Free(q.guards, fd) {
      var h: nat :| Guard(fd, h) in q.guards;
      assert h == handler ==> q.guards[Guard(fd, handler)] > 0;
    }
  }

  /** Arming keeps the registry consistent exactly when the descriptor is quiet. */
  lemma ArmingNeedsQuiet(p: Poll, fd: nat, handler: nat, stream: bool)
    requires Inv(p) && p.pending.None? && !(stream && Slot(p, fd).Some?)
    ensures Inv(Arm(p, fd, handler, stream, true, true).poll) <==> Quiet(p, fd)
  {
    var q := Arm(p, fd, handler, stream, true, true).poll;
    forall other: nat
      ensures other != fd ==> SlotInv(q, other)
      ensures SlotInv(q, fd) <==> Quiet(p, fd)
    {
      assert SlotInv(p, fd) && SlotInv(p, other);
      ArmedSlot(p, fd, handler, stream, other);
    }
    assert SlotInv(q, fd) <==> Quiet(p, fd);
  }

  lemma EnrolKeepsInv(p: Poll, step: Step)
    requires Inv(p) && Owed(p, step) && step.Enrol?
    ensures Inv(Apply(p, step))
  {
    if p.pending.None? {
      var r := Arm(p, step.fd, step.handler, step.stream, step.writeOk, step.readOk);
      if r.outcome.Registered? {
        GrowKeepsSlots(p.events, step.fd, step.fd);
        assert r.poll == Arm(p, step.fd, step.handler, step.stream, true, true).poll;
        ArmingNeedsQuiet(p, step.fd, step.handler, step.stream);
      } else {
        forall other: nat ensures SlotInv(r.poll, other) {
          FailedRegistrationChangesNothing(p, step.fd, step.handler, step.stream, step.writeOk, step.readOk, other);
          assert SlotInv(p, other);
        }
      }
    }
  }

  lemma StoreKeepsSlot(p: Poll, other: nat)
    requires p.pending.Some? && p.pending.value.fd < |p.events| && SlotInv(p, p.pending.value.fd) && SlotInv(p, other)
    ensures SlotInv(Store(p), other)
    ensures Slot(Store(p), other) == Subject(p, other)
  {
  }

  lemma DeliverKeepsSlot(p: Poll, fd: nat, filter: Filter, other: nat)
    requires SlotInv(p, other) && SlotInv(p, fd)
    ensures SlotInv(Apply(p, Deliver(fd, filter)), other)
  {
    var q := Apply(p, Deliver(fd, filter));
    if Armed(p, fd, filter) {
      assert filter == Read || filter == Write;
      var ev := Subject(p, fd).value;
      assert filter == Desired(ev) && p.kernel[(fd, filter)].handler == ev.handler;
      assert forall h: nat :: Guard(other, h) != Guard(fd, ev.handler) ==> q.guards[Guard(other, h)] == p.guards[Guard(other, h)];
    }
  }

  lemma NotifyKeepsSlot(p: Poll, step: Step, other: nat)
    requires step.NotifyWritable? && SlotInv(p, other) && SlotInv(p, step.fd)
    ensures SlotInv(Apply(p, step), other)
  {
    if Guard(step.fd, step.handler) in p.guards {
      assert Subject(p, step.fd).Some? && Subject(p, step.fd).value.handler == step.handler;
    }
  }

  lemma DropKeepsSlot(p: Poll, step: Step, other: nat)
    requires step.DropGuard? && SlotInv(p, other) && SlotInv(p, step.fd)
    ensures SlotInv(Apply(p, step), other)
  {
    FewerGuards(p.guards, Apply(p, step).guards, other);
    if Guard(step.fd, step.handler) in p.guards {
      assert Subject(p, step.fd).Some? && Subject(p, step.fd).value.handler == step.handler;
    }
  }

  /** Cancelling the only guard, and with it the event, leaves the descriptor empty. */
  lemma CancelEmpties(p: Poll, fd: nat, handler: nat)
    requires SlotInv(p, fd) && p.pending.None? && Guard(fd, handler) in p.guards
    ensures var q := Apply(p, Cancel(fd, handler));
            SlotInv(q, fd) && Slot(q, fd).None? && Free(q.guards, fd)
  {
    var q := Apply(p, Cancel(fd, handler));
    assert Slot(p, fd).Some? && Slot(p, fd).value.handler == handler;
    FewerGuards(p.guards, q.guards, fd);
    assert Guard(fd, handler) !in q.guards;
  }

  /** Nothing of the descriptor is left, and nothing of any other has changed. */
  ghost predicate Removed(p: Poll, q: Poll, fd: nat) {
    && Slot(q, fd) == None && (fd, Read) !in q.kernel && (fd, Write) !in q.kernel && Free(q.guards, fd)
    && (forall other: nat :: other != fd ==> Slot(q, other) == Slot(p, other))
    && (forall other: nat, f: Filter :: other != fd ==> ((other, f) in q.kernel <==> (other, f) in p.kernel))
    && (forall other: nat, f: Filter :: other != fd && (other, f) in p.kernel && (other, f) in q.kernel ==>
          q.kernel[(other, f)] == p.kernel[(other, f)])
    && (forall g: Guard :: g.fd != fd ==> q.guards[g] == p.guards[g])
    && q.pending == p.pending
  }

  /** Clearing a descriptor from outside removes its handler, from the table and the kernel. */
  lemma ClearRemoves(p: Poll, fd: nat)
    requires Inv(p) && p.pending.None? && Owed(p, ClearByFd(fd))
    ensures Removed(p, Apply(p, ClearByFd(fd)), fd)
  {
    assert SlotInv(p, fd);
  }

  /** Cancelling a guard removes its event for good, and re-arms nothing. */
  lemma CancelRemoves(p: Poll, fd: nat, handler: nat)
    requires Inv(p) && p.pending.None? && Guard(fd, handler) in p.guards
    ensures Removed(p, Apply(p, Cancel(fd, handler)), fd)
  {
    assert SlotInv(p, fd);
    CancelEmpties(p, fd, handler);
  }

  lemma ClearKeepsSlot(p: Poll, step: Step, other: nat)
    requires step.Cancel? || step.ClearByFd?
    requires SlotInv(p, other) && SlotInv(p, step.fd) && Owed(p, step)
    ensures SlotInv(Apply(p, step), other)
  {
    FewerGuards(p.guards, Apply(p, step).guards, other);
    if step.Cancel? && p.pending.None? && Guard(step.fd, step.handler) in p.guards && other == step.fd {
      CancelEmpties(p, other, step.handler);
    }
  }

  lemma StepKeepsInv(p: Poll, step: Step)
    requires Inv(p) && Owed(p, step)
    ensures Inv(Apply(p, step))
  {
    if step.Enrol? {
      EnrolKeepsInv(p, step);
    } else {
      forall other: nat ensures SlotInv(Apply(p, step), other) {
        assert SlotInv(p, other);
        match step
        case Install =>
          if p.pending.Some? {
            assert SlotInv(p, p.pending.value.fd);
            StoreKeepsSlot(p, other);
          }
        case Deliver(fd, filter) =>
          assert SlotInv(p, fd);
          DeliverKeepsSlot(p, fd, filter, other);
        case NotifyWritable(fd, _, _) =>
          assert SlotInv(p, fd);
          NotifyKeepsSlot(p, step, other);
        case DropGuard(fd, _) =>
          assert SlotInv(p, fd);
          DropKeepsSlot(p, step, other);
        case Cancel(fd, _) =>
          assert SlotInv(p, fd);
          ClearKeepsSlot(p, step, other);
        case ClearByFd(fd) =>
          assert SlotInv(p, fd);
          ClearKeepsSlot(p, step, other);
        case Enrol(_, _, _, _, _) =>
      }
    }
  }

  // ----- every run ---------------------------------------------------------

  /** A run in which callers keep to what they owe. */
  ghost predicate Disciplined(p: Poll, steps: seq<Step>)
    decreases |steps|
  {
    steps == [] || (Owed(p, steps[0]) && Disciplined(Apply(p, steps[0]), steps[1..]))
  }

  function Exec(p: Poll, steps: seq<Step>): Poll
    decreases |steps|
  {
    if steps == [] then p else Exec(Apply(p, steps[0]), steps[1..])
  }

  lemma {:induction false} RunKeepsInv(p: Poll, steps: seq<Step>)
    requires Inv(p) && Disciplined(p, steps)
    ensures Inv(Exec(p, steps))
    decreases |steps|
  {
    if steps != [] {
      StepKeepsInv(p, steps[0]);
      RunKeepsInv(Apply(p, steps[0]), steps[1..]);
    }
  }

  /**
   * After any disciplined interleaving: a live guard holds the registered handler and is the only
   * one for its descriptor; without one exactly one filter of a registered handler is armed, with
   * one none is; READ exists exactly for a registered handler and reports it; and unless a
   * registration is displacing it, a slot holds a stream exactly when both its filters exist.
   */
  lemma TableMatchesKernel(steps: seq<Step>, fd: nat, guard: Guard)
    requires Disciplined(EMPTY, steps)
    ensures var p := Exec(EMPTY, steps);
            var subject := Subject(p, fd);
            && (guard in p.guards && guard.fd == fd ==>
                  && subject.Some? && guard.handler == subject.value.handler && p.guards[guard] == 1
                  && !Armed(p, fd, Read) && !Armed(p, fd, Write))
            && (subject.Some? && Free(p.guards, fd) ==> (Armed(p, fd, Read) <==> !Armed(p, fd, Write)))
            && (subject.Some? <==> (fd, Read) in p.kernel)
            && ((fd, Read) in p.kernel ==> p.kernel[(fd, Read)].handler == subject.value.handler)
            && (!Registering(p, fd) ==>
                  && (Slot(p, fd).Some? && Slot(p, fd).value.stream <==> (fd, Read) in p.kernel && (fd, Write) in p.kernel)
                  && ((fd, Write) in p.kernel ==> subject.Some? && p.kernel[(fd, Write)].handler == subject.value.handler))
  {
    assert Inv(EMPTY);
    RunKeepsInv(EMPTY, steps);
    var p := Exec(EMPTY, steps);
    assert SlotInv(p, fd);
    if guard in p.guards && guard.fd == fd {
      assert Guard(fd, guard.handler) in p.guards;
    }
    if Subject(p, fd).Some? {
      assert Free(p.guards, fd) ==> p.guards[Guard(fd, Subject(p, fd).value.handler)] == 0;
    }
  }

  // ----- a registration across other threads' steps ------------------------

  lemma OthersLeavePending(p: Poll, step: Step, fd: nat)
    requires Inv(p) && Registering(p, fd) && !step.Install?
    ensures var ev, q := p.pending.value.event, Apply(p, step);
            && Registering(q, fd)
            && q.pending.value.event.handler == ev.handler && q.pending.value.event.stream == ev.stream
  {
  }

  lemma {:induction false} PendingStands(p: Poll, steps: seq<Step>, fd: nat)
    requires Inv(p) && Disciplined(p, steps) && Registering(p, fd)
    requires NoInstall(steps)
    ensures var ev, q := p.pending.value.event, Exec(p, steps);
            && Inv(q) && Registering(q, fd)
            && q.pending.value.event.handler == ev.handler && q.pending.value.event.stream == ev.stream
    decreases |steps|
  {
    if steps != [] {
      StepKeepsInv(p, steps[0]);
      OthersLeavePending(p, steps[0], fd);
      PendingStands(Apply(p, steps[0]), steps[1..], fd);
    }
  }

  /**
   * Whatever is delivered, switched or re-armed between arming and storing, a registration ends
   * with its own handler in the table and the registry consistent, and clears nothing else.
   */
  lemma RegistrationCompletes(p: Poll, fd: nat, handler: nat, stream: bool, between: seq<Step>)
    requires Inv(p) && p.pending.None? && Quiet(p, fd) && !(stream && Slot(p, fd).Some?)
    requires Disciplined(Arm(p, fd, handler, stream, true, true).poll, between)
    requires NoInstall(between)
    ensures var q := Apply(Exec(Arm(p, fd, handler, stream, true, true).poll, between), Install);
            && Inv(q) && q.pending.None?
            && Slot(q, fd).Some? && Slot(q, fd).value.handler == handler && Slot(q, fd).value.stream == stream
            && ((fd, Write) in q.kernel <==> stream)
  {
    var armed := Arm(p, fd, handler, stream, true, true).poll;
    ArmingNeedsQuiet(p, fd, handler, stream);
    assert SlotInv(p, fd);
    ArmedSlot(p, fd, handler, stream, fd);
    PendingStands(armed, between, fd);
    var before := Exec(armed, between);
    assert SlotInv(before, fd);
    StepKeepsInv(before, Install);
    assert SlotInv(Apply(before, Install), fd);
  }

  lemma StoredSlot(p: Poll, fd: nat, handler: nat, stream: bool, other: nat)
    requires p.pending.None? && SlotInv(p, fd) && SlotInv(p, other) && !(stream && Slot(p, fd).Some?)
    ensures var r := Apply(Arm(p, fd, handler, stream, true, true).poll, Install);
            && (other != fd ==> SlotInv(r, other))
            && Slot(r, fd) == Some(Event(handler, stream, false)) && r.pending.None? && r.guards == p.guards
            && Armed(r, fd, Read) && !Armed(r, fd, Write) && r.kernel[(fd, Read)].handler == handler
            && ((fd, Write) in r.kernel <==> stream) && (stream ==> r.kernel[(fd, Write)].handler == handler)
  {
    GrowKeepsSlots(p.events, fd, fd);
    GrowKeepsSlots(p.events, fd, other);
  }

  /** A READ filter armed while a guard is live, whoever's, is an inconsistency. */
  lemma ArmedUnderGuard(p: Poll, fd: nat, h: nat)
    requires Armed(p, fd, Read) && Guard(fd, h) in p.guards
    ensures !SlotInv(p, fd)
  {
  }

  /**
   * A registration with nothing in between keeps the registry consistent exactly when no guard
   * for the descriptor is live. The source relies on handlers owning their descriptors for this.
   */
  lemma RegistrationNeedsNoGuard(p: Poll, fd: nat, handler: nat, stream: bool)
    requires Inv(p) && p.pending.None? && !(stream && Slot(p, fd).Some?)
    ensures Inv(Apply(Arm(p, fd, handler, stream, true, true).poll, Install)) <==> Free(p.guards, fd)
  {
    var r := Apply(Arm(p, fd, handler, stream, true, true).poll, Install);
    assert SlotInv(p, fd);
    forall other: nat ensures other != fd ==> SlotInv(r, other) {
      assert SlotInv(p, other);
      StoredSlot(p, fd, handler, stream, other);
    }
    StoredSlot(p, fd, handler, stream, fd);
    if Free(p.guards, fd) {
      assert r.guards[Guard(fd, handler)] == 0;
      assert SlotInv(r, fd);
    } else {
      var h: nat :| Guard(fd, h) in p.guards;
      ArmedUnderGuard(r, fd, h);
    }
  }

  /** Whatever other threads do between its halves, a successful registration ends consistently. */
  ghost predicate Safe(p: Poll, fd: nat, handler: nat, stream: bool) {
    var armed := Arm(p, fd, handler, stream, true, true).poll;
    forall between: seq<Step> :: Disciplined(armed, between) && NoInstall(between) ==> Inv(Apply(Exec(armed, between), Install))
  }

  predicate NoInstall(steps: seq<Step>) { forall i :: 0 <= i < |steps| ==> !steps[i].Install? }

  /** A displaced stream's armed WRITE filter can deliver in between, to the handler about to go. */
  lemma ArmedWriteDelivers(p: Poll, fd: nat, handler: nat, stream: bool)
    requires Inv(p) && p.pending.None? && !(stream && Slot(p, fd).Some?) && Armed(p, fd, Write)
    ensures !Inv(Apply(Apply(Arm(p, fd, handler, stream, true, true).poll, Deliver(fd, Write)), Install))
  {
    assert SlotInv(p, fd);
    GrowKeepsSlots(p.events, fd, fd);
    var armed := Arm(p, fd, handler, stream, true, true).poll;
    var h := p.kernel[(fd, Write)].handler;
    var r := Apply(Apply(armed, Deliver(fd, Write)), Install);
    assert Guard(fd, h) in r.guards && Armed(r, fd, Read);
    ArmedUnderGuard(r, fd, h);
  }

  /** A registration is safe across all interleavings exactly when its descriptor is quiet. */
  lemma SafeIffQuiet(p: Poll, fd: nat, handler: nat, stream: bool)
    requires Inv(p) && p.pending.None? && !(stream && Slot(p, fd).Some?)
    ensures Safe(p, fd, handler, stream) <==> Quiet(p, fd)
  {
    var armed := Arm(p, fd, handler, stream, true, true).poll;
    if Quiet(p, fd) {
      forall between: seq<Step> | Disciplined(armed, between) && NoInstall(between)
        ensures Inv(Apply(Exec(armed, between), Install))
      {
        RegistrationCompletes(p, fd, handler, stream, between);
      }
    } else if !Free(p.guards, fd) {
      RegistrationNeedsNoGuard(p, fd, handler, stream);
      assert Disciplined(armed, []) && NoInstall([]) && Exec(armed, []) == armed;
    } else {
      ArmedWriteDelivers(p, fd, handler, stream);
      var between := [Deliver(fd, Write)];
      assert between[1..] == [];
      assert Exec(armed, between) == Apply(armed, Deliver(fd, Write));
      assert Disciplined(armed, between) && NoInstall(between);
    }
  }

  /** Handler 1 registered plain under descriptor 0, and delivered. */
  const DELIVERED: Poll := Poll([Some(Event(1, false, false))], map[(0, Read) := Kev(false, 1)], multiset{Guard(0, 1)}, None)

  lemma DeliveredIsReached(steps: seq<Step>)
    requires steps == [Enrol(0, 1, false, true, true), Install, Deliver(0, Read)]
    ensures Disciplined(EMPTY, steps) && Exec(EMPTY, steps) == DELIVERED
  {
    assert Grow(EMPTY.events, 0) == [None];
    var p1 := Apply(EMPTY, steps[0]);
    assert p1 == Poll([None], map[(0, Read) := Kev(true, 1)], multiset{}, Some(Pending(0, Event(1, false, false))));
    var p2 := Apply(p1, steps[1]);
    assert p2 == Poll([Some(Event(1, false, false))], map[(0, Read) := Kev(true, 1)], multiset{}, None);
    assert Apply(p2, steps[2]) == DELIVERED;
    assert steps[1..][0] == steps[1] && steps[1..][1..] == [Deliver(0, Read)] && [Deliver(0, Read)][1..] == [];
    assert Exec(p2, [Deliver(0, Read)]) == DELIVERED;
    assert Exec(p1, steps[1..]) == DELIVERED;
  }

  /**
   * Such a state is reachable, and this is what goes wrong: with a guard live, another handler is
   * registered over the descriptor; dropped, the guard makes the filter report the handler that
   * was displaced.
   */
  lemma LiveGuardBreaksRegistration()
    ensures var steps := [Enrol(0, 1, false, true, true), Install, Deliver(0, Read)];
            var p := Exec(EMPTY, steps);
            var over := Apply(Arm(p, 0, 2, false, true, true).poll, Install);
            var end := Apply(over, DropGuard(0, 1));
            && Disciplined(EMPTY, steps) && Inv(p) && !Free(p.guards, 0)
            && !Inv(over)
            && Slot(end, 0) == Some(Event(2, false, false))
            && (0, Read) in end.kernel && end.kernel[(0, Read)] == Kev(true, 1)
  {
    var steps := [Enrol(0, 1, false, true, true), Install, Deliver(0, Read)];
    DeliveredIsReached(steps);
    assert Inv(EMPTY);
    RunKeepsInv(EMPTY, steps);
    assert Guard(0, 1) in DELIVERED.guards;
    RegistrationNeedsNoGuard(DELIVERED, 0, 2, false);
    assert SlotInv(DELIVERED, 0);
    StoredSlot(DELIVERED, 0, 2, false, 0);
  }

  lemma {:induction false} RunsCompose(p: Poll, a: seq<Step>, b: seq<Step>)
    ensures Exec(p, a + b) == Exec(Exec(p, a), b)
    ensures Disciplined(p, a + b) <==> Disciplined(p, a) && Disciplined(Exec(p, a), b)
    decreases |a|
  {
    if a == [] {
      assert a + b == b;
    } else {
      assert (a + b)[1..] == a[1..] + b;
      RunsCompose(Apply(p, a[0]), a[1..], b);
    }
  }

  /** A stream stored under descriptor 0. */
  const STREAMING: Poll :=
    Poll([Some(Event(1, true, false))], map[(0, Write) := Kev(false, 1), (0, Read) := Kev(true, 1)], multiset{}, None)

  /** The same after its guard asked for WRITE and was dropped. */
  const WRITING: Poll :=
    Poll([Some(Event(1, true, true))], map[(0, Write) := Kev(true, 1), (0, Read) := Kev(false, 1)], multiset{}, None)

  lemma StreamingIsReached(steps: seq<Step>)
    requires steps == [Enrol(0, 1, true, true, true), Install]
    ensures Disciplined(EMPTY, steps) && Exec(EMPTY, steps) == STREAMING
  {
    assert Grow(EMPTY.events, 0) == [None];
    var p1 := Apply(EMPTY, steps[0]);
    assert p1 == Poll([None], STREAMING.kernel, multiset{}, Some(Pending(0, Event(1, true, false))));
    assert Apply(p1, Install) == STREAMING;
    assert steps[1..] == [Install] && [Install][1..] == [];
    assert Exec(p1, [Install]) == STREAMING;
  }

  lemma WritingFollows(steps: seq<Step>)
    requires steps == [Deliver(0, Read), NotifyWritable(0, 1, true), DropGuard(0, 1)]
    ensures Disciplined(STREAMING, steps) && Exec(STREAMING, steps) == WRITING
  {
    var held := map[(0, Write) := Kev(false, 1), (0, Read) := Kev(false, 1)];
    var p1 := Apply(STREAMING, steps[0]);
    assert p1 == Poll([Some(Event(1, true, false))], held, multiset{Guard(0, 1)}, None);
    var p2 := Apply(p1, steps[1]);
    assert p2 == Poll([Some(Event(1, true, true))], held, multiset{Guard(0, 1)}, None);
    assert Apply(p2, steps[2]) == WRITING;
    assert steps[1..][0] == steps[1] && steps[1..][1..] == [DropGuard(0, 1)] && [DropGuard(0, 1)][1..] == [];
    assert Exec(p2, [DropGuard(0, 1)]) == WRITING;
    assert Exec(p1, steps[1..]) == WRITING;
  }

  lemma WritingIsReached()
    ensures var steps := [Enrol(0, 1, true, true, true), Install] + [Deliver(0, Read), NotifyWritable(0, 1, true), DropGuard(0, 1)];
            Disciplined(EMPTY, steps) && Exec(EMPTY, steps) == WRITING
  {
    var first, rest := [Enrol(0, 1, true, true, true), Install], [Deliver(0, Read), NotifyWritable(0, 1, true), DropGuard(0, 1)];
    StreamingIsReached(first);
    WritingFollows(rest);
    RunsCompose(EMPTY, first, rest);
  }

  /** That no guard is live is not enough: here none is, yet registering over the stream is not safe. */
  lemma ArmedWriteBreaksRegistration()
    ensures var steps := [Enrol(0, 1, true, true, true), Install] + [Deliver(0, Read), NotifyWritable(0, 1, true), DropGuard(0, 1)];
            var p := Exec(EMPTY, steps);
            Disciplined(EMPTY, steps) && Inv(p) && Free(p.guards, 0) && !Safe(p, 0, 2, false)
  {
    WritingIsReached();
    assert Inv(EMPTY);
    RunKeepsInv(EMPTY, [Enrol(0, 1, true, true, true), Install] + [Deliver(0, Read), NotifyWritable(0, 1, true), DropGuard(0, 1)]);
    SafeIffQuiet(WRITING, 0, 2, false);
  }

  /** Dropping a guard arms exactly the filter its event asks for. */
  lemma DropArms(p: Poll, fd: nat, handler: nat)
    requires SlotInv(p, fd) && Guard(fd, handler) in p.guards
    ensures Subject(p, fd).Some?
    ensures Armed(Apply(p, DropGuard(fd, handler)), fd, Desired(Subject(p, fd).value))
  {
  }

  /** Re-arming after a dispatch restores exactly the armed filter the guard last asked for. */
  lemma DispatchRoundTrip(p: Poll, fd: nat, filter: Filter, writable: bool)
    requires Inv(p) && Armed(p, fd, filter)
    ensures var held := Apply(p, Deliver(fd, filter));
            && Subject(p, fd).Some?
            && var handler := Subject(p, fd).value.handler;
            var q := Apply(Apply(held, NotifyWritable(fd, handler, writable)), DropGuard(fd, handler));
            && !Armed(held, fd, Read) && !Armed(held, fd, Write)
            && q.guards == p.guards
            && Armed(q, fd, if Subject(p, fd).value.stream && writable then Write else Read)
  {
    assert SlotInv(p, fd);
    assert filter == Read || filter == Write;
    var handler := Subject(p, fd).value.handler;
    var held := Apply(p, Deliver(fd, filter));
    DeliverKeepsSlot(p, fd, filter, fd);
    assert Guard(fd, handler) in held.guards;
    var switched := Apply(held, NotifyWritable(fd, handler, writable));
    NotifyKeepsSlot(held, NotifyWritable(fd, handler, writable), fd);
    DropArms(switched, fd, handler);
  }

  // ----- the registry itself -----------------------------------------------

  /** The poll object with the kernel queue it drives, the live guards and a registration under way. */
  class EventPoll {
    var events: seq<Option<Event>>
    var kernel: Kernel
    var guards: multiset<Guard>
    var pending: Option<Pending>

    function View(): Poll
      reads this
    {
      Poll(events, kernel, guards, pending)
    }

    constructor ()
      ensures View() == EMPTY && Inv(View())
    {
      events, kernel, guards, pending := [], map[], multiset{}, None;
    }

    method GrowTo(fd: nat)
      modifies this`events
      ensures events == Grow(old(events), fd)
    {
      while |events| <= fd
        invariant Grow(events, fd) == Grow(old(events), fd)
        decreases fd + 1 - |events|
      {
        events := events + [None];
      }
    }

    /** WRITE is reserved before READ can dispatch, so a stream with only one filter never survives. */
    method ArmEvent(fd: nat, handler: nat, stream: bool, writeOk: bool, readOk: bool) returns (outcome: Outcome)
      modifies this
      ensures Result(View(), outcome) == Arm(old(View()), fd, handler, stream, writeOk, readOk)
    {
      GrowTo(fd);
      if stream {
        if events[fd].Some? {
          return Exists;
        }
        if !writeOk {
          return Refused;
        }
        kernel := Add(kernel, fd, Write, false, handler);
      }
      if !readOk {
        if stream {
          kernel := Delete(kernel, fd, Write);
        }
        return Refused;
      }
      kernel := Add(kernel, fd, Read, true, handler);
      pending := Some(Pending(fd, Event(handler, stream, false)));
      return Registered;
    }

    method StoreEvent()
      requires pending.Some? && pending.value.fd < |events|
      modifies this
      ensures View() == Store(old(View()))
    {
      var fd := pending.value.fd;
      var displaced := events[fd];
      events := events[fd := None];
      if displaced.Some? && displaced.value.stream {
        kernel := Delete(kernel, fd, Write);
      }
      events := events[fd := Some(pending.value.event)];
      pending := None;
    }

    /** Steps of other threads. */
    method Others(steps: seq<Step>)
      modifies this
      ensures View() == Exec(old(View()), steps)
    {
      var p := Exec(View(), steps);
      events, kernel, guards, pending := p.events, p.kernel, p.guards, p.pending;
    }

    /** `register_event`, with whatever other threads do between arming the handler and storing it. */
    method RegisterEvent(fd: nat, handler: nat, stream: bool, writeOk: bool, readOk: bool, between: seq<Step>) returns (outcome: Outcome)
      requires Inv(View()) && pending.None? && Quiet(View(), fd)
      requires Disciplined(Arm(View(), fd, handler, stream, writeOk, readOk).poll, between)
      requires NoInstall(between)
      modifies this
      ensures Inv(View()) && pending.None?
      ensures outcome == Arm(old(View()), fd, handler, stream, writeOk, readOk).outcome
      ensures outcome.Registered? ==>
                && View() == Apply(Exec(Arm(old(View()), fd, handler, stream, writeOk, readOk).poll, between), Install)
                && Slot(View(), fd).Some? && Slot(View(), fd).value.handler == handler && Slot(View(), fd).value.stream == stream
      ensures !outcome.Registered? ==>
                && View() == old(View()).(events := events)
                && forall other: nat :: Slot(View(), other) == old(Slot(View(), other))
    {
      ghost var before := View();
      EnrolKeepsInv(before, Enrol(fd, handler, stream, writeOk, readOk));
      outcome := ArmEvent(fd, handler, stream, writeOk, readOk);
      if outcome.Registered? {
        GrowKeepsSlots(before.events, fd, fd);
        assert View() == Arm(before, fd, handler, stream, true, true).poll;
        RegistrationCompletes(before, fd, handler, stream, between);
        PendingStands(View(), between, fd);
        Others(between);
        assert SlotInv(View(), fd);
        StoreEvent();
      } else {
        forall other: nat ensures Slot(View(), other) == Slot(before, other) {
          FailedRegistrationChangesNothing(before, fd, handler, stream, writeOk, readOk, other);
        }
        FailedRegistrationChangesNothing(before, fd, handler, stream, writeOk, readOk, fd);
      }
    }

    /** `wait`, given the filter the kernel picked: delivering it disarms it and makes a guard. */
    method Wait(fd: nat, filter: Filter) returns (guard: Guard)
      requires Inv(View()) && Armed(View(), fd, filter)
      modifies this`kernel, this`guards
      ensures View() == Apply(old(View()), Deliver(fd, filter)) && Inv(View())
      ensures guard in guards && guard.fd == fd && Subject(View(), fd).Some? && guard.handler == Subject(View(), fd).value.handler
    {
      StepKeepsInv(View(), Deliver(fd, filter));
      assert SlotInv(View(), fd);
      assert filter == Read || filter == Write;
      guard := Guard(fd, kernel[(fd, filter)].handler);
      kernel := Disable(kernel, fd, filter);
      guards := guards + multiset{guard};
    }

    method NotifyWritable(guard: Guard, enabled: bool)
      requires Inv(View()) && guard in guards
      modifies this`events, this`pending
      ensures View() == Apply(old(View()), Step.NotifyWritable(guard.fd, guard.handler, enabled)) && Inv(View())
    {
      var fd := guard.fd;
      StepKeepsInv(View(), Step.NotifyWritable(fd, guard.handler, enabled));
      assert SlotInv(View(), fd);
      assert Guard(fd, guard.handler) in guards;
      if pending.Some? && pending.value.fd == fd {
        pending := Some(Pending(fd, pending.value.event.(writeInterest := enabled)));
      } else {
        events := events[fd := Some(events[fd].value.(writeInterest := enabled))];
      }
    }

    method DropGuard(guard: Guard)
      requires Inv(View()) && guard in guards
      modifies this`kernel, this`guards
      ensures View() == Apply(old(View()), Step.DropGuard(guard.fd, guard.handler)) && Inv(View())
    {
      var fd := guard.fd;
      StepKeepsInv(View(), Step.DropGuard(fd, guard.handler));
      assert SlotInv(View(), fd);
      assert Guard(fd, guard.handler) in guards;
      var ev := Subject(View(), fd).value;
      var desired := if ev.stream && ev.writeInterest then Write else Read;
      kernel := Enable(kernel, fd, desired, guard.handler);
      guards := guards - multiset{guard};
    }

    /** `clear_event_by_fd`, for an index inside the table as its safety contract demands. */
    method ClearEventByFd(fd: nat)
      requires fd < |events|
      modifies this`events, this`kernel
      ensures View() == Clear(old(View()), fd)
      ensures Slot(View(), fd).None? && (old(events)[fd].Some? ==> (fd, Read) !in kernel)
      ensures old(events)[fd].Some? && old(events)[fd].value.stream ==> (fd, Write) !in kernel
      ensures forall other: nat :: other != fd ==> Slot(View(), other) == old(Slot(View(), other))
    {
      var cleared := events[fd];
      events := events[fd := None];
      if cleared.Some? {
        kernel := Delete(kernel, fd, Read);
        if cleared.value.stream {
          kernel := Delete(kernel, fd, Write);
        }
      }
      assert events == Clear(old(View()), fd).events;
    }

    /** `cancel`, once the table's lock is free: clears the event and forgets the guard without re-arming. */
    method CancelGuard(guard: Guard)
      requires Inv(View()) && guard in guards && pending.None?
      modifies this
      ensures View() == Apply(old(View()), Cancel(guard.fd, guard.handler)) && Inv(View())
      ensures Slot(View(), guard.fd).None? && (guard.fd, Read) !in kernel && (guard.fd, Write) !in kernel && Free(guards, guard.fd)
    {
      var fd := guard.fd;
      StepKeepsInv(View(), Cancel(fd, guard.handler));
      assert SlotInv(View(), fd);
      assert Guard(fd, guard.handler) in guards;
      CancelEmpties(View(), fd, guard.handler);
      ClearEventByFd(fd);
      guards := guards - multiset{guard};
    }
  }
}
