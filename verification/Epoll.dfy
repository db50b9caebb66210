/**
 * The epoll event registry (boringtun/src/device/epoll.rs). A registration stores its handler
 * under the table lock and adds it to the kernel after the lock is released, so other threads
 * run between the two; the steps below are cut there.
 */
module Epoll {
  import opened Prelude
  import opened SlotTable

  /** A stored handler and the flags its next EPOLL_CTL_MOD carries; a notifier is not one-shot. */
  datatype Event = Event(handler: nat, oneshot: bool, writable: bool)

  /** What the kernel holds for a descriptor: whether it may fire, and the event it was given. */
  datatype Kev = Kev(armed: bool, event: Event)

  type Kernel = map<nat, Kev>

  /** `pending` holds the descriptors stored but not yet added; `guards` the live guards. */
  datatype Poll = Poll(events: seq<Option<Event>>, kernel: Kernel, pending: set<nat>, guards: multiset<Guard>)

  const EMPTY: Poll := Poll([], map[], {}, multiset{})

  function Slot(p: Poll, fd: nat): Option<Event> { At(p.events, fd) }

  // ----- the operations ----------------------------------------------------

  /** `insert_at`: a displaced handler leaves the kernel before its slot is taken over. */
  function InsertAt(events: seq<Option<Event>>, kernel: Kernel, fd: nat, ev: Event): (seq<Option<Event>>, Kernel) {
    var grown := Grow(events, fd);
    (grown[fd := Some(ev)], if grown[fd].Some? then kernel - {fd} else kernel)
  }

  /** EPOLL_CTL_ADD after `insert_at`; a refusal (or a descriptor already there) empties the slot. */
  function AddOrUndo(p: Poll, fd: nat, ok: bool): Poll
    requires Slot(p, fd).Some?
  {
    if ok && fd !in p.kernel
    then p.(kernel := p.kernel[fd := Kev(true, Slot(p, fd).value)], pending := p.pending - {fd})
    else p.(events := p.events[fd := None], pending := p.pending - {fd})
  }

  /** `clear_event_by_fd`. */
  function Clear(p: Poll, fd: nat): Poll {
    if Slot(p, fd).None? then p
    else p.(events := p.events[fd := None], kernel := p.kernel - {fd})
  }

  /** The event a guard's handler carries; of a handler no longer stored only its identity matters. */
  function Borrowed(p: Poll, fd: nat, handler: nat): Event {
    var slot := Slot(p, fd);
    if slot.Some? && slot.value.handler == handler then slot.value else Event(handler, true, false)
  }

  datatype Step =
    | Insert(fd: nat, handler: nat, oneshot: bool)
    | Finish(fd: nat, ok: bool)
    | Deliver(fd: nat)
    | NotifyWritable(fd: nat, handler: nat, enabled: bool)
    | DropGuard(fd: nat, handler: nat)
    | Cancel(fd: nat, handler: nat)
    | ClearByFd(fd: nat)

  predicate Armed(p: Poll, fd: nat) { fd in p.kernel && p.kernel[fd].armed }

  /** A step; one its caller is in no position to take changes nothing. */
  function Apply(p: Poll, step: Step): Poll {
    match step
    case Insert(fd, handler, oneshot) =>
      var (events, kernel) := InsertAt(p.events, p.kernel, fd, Event(handler, oneshot, false));
      p.(events := events, kernel := kernel, pending := p.pending + {fd})
    case Finish(fd, ok) =>
      if fd in p.pending && Slot(p, fd).Some? then AddOrUndo(p, fd, ok) else p
    case Deliver(fd) =>
      if Armed(p, fd)
      then p.(kernel := p.kernel[fd := p.kernel[fd].(armed := !p.kernel[fd].event.oneshot)],
              guards := p.guards + multiset{Guard(fd, p.kernel[fd].event.handler)})
      else p
    case NotifyWritable(fd, handler, enabled) =>
      if Guard(fd, handler) in p.guards && Slot(p, fd).Some? && Slot(p, fd).value.handler == handler
      then p.(events := p.events[fd := Some(Event(handler, true, enabled))])
      else p
    case DropGuard(fd, handler) =>
      if Guard(fd, handler) in p.guards
      then p.(kernel := if fd in p.kernel then p.kernel[fd := Kev(true, Borrowed(p, fd, handler))] else p.kernel,
              guards := p.guards - multiset{Guard(fd, handler)})
      else p
    case Cancel(fd, handler) =>
      if Guard(fd, handler) in p.guards then Clear(p, fd).(guards := p.guards - multiset{Guard(fd, handler)}) else p
    case ClearByFd(fd) => Clear(p, fd)
  }

  // ----- the invariant -----------------------------------------------------

  /**
   * One descriptor's slot, kernel entry and guards agree: nothing in the kernel without a stored
   * handler, and once added the kernel reports the handler in the slot, as do all live guards. A
   * one-shot event is armed, for the readiness its slot asks for, exactly while no guard is
   * live, and never has two; a notifier stays armed.
   */
  ghost predicate SlotInv(p: Poll, fd: nat) {
    match Slot(p, fd)
    case None => fd !in p.kernel && fd !in p.pending && Free(p.guards, fd)
    case Some(ev) =>
      && HeldBy(p.guards, fd, ev.handler)
      && (fd in p.pending ==> fd !in p.kernel && Free(p.guards, fd))
      && (fd !in p.pending ==> fd in p.kernel && AddedInv(ev, p.kernel[fd], p.guards[Guard(fd, ev.handler)]))
  }

  predicate AddedInv(ev: Event, kev: Kev, guards: nat) {
    && kev.event.handler == ev.handler
    && kev.event.oneshot == ev.oneshot
    && (ev.oneshot ==> guards <= 1 && (kev.armed <==> guards == 0))
    && (!ev.oneshot ==> kev.armed)
    && (guards == 0 || !ev.oneshot ==> kev.event == ev)
  }

  ghost predicate Inv(p: Poll) { forall fd: nat :: SlotInv(p, fd) }

  /**
   * What the callers owe: a descriptor is not registered again or cleared while it is being
   * handled or registered, a guard is cancelled only when it is the only one, and writable
   * interest is asked only of one-shot events.
   */
  ghost predicate Owed(p: Poll, step: Step) {
    match step
    case Insert(fd, _, _) => Free(p.guards, fd) && fd !in p.pending
    case NotifyWritable(fd, _, _) => Slot(p, fd).Some? ==> Slot(p, fd).value.oneshot
    case Cancel(fd, handler) => p.guards[Guard(fd, handler)] <= 1
    case ClearByFd(fd) => Free(p.guards, fd) && fd !in p.pending
    case _ => true
  }

  lemma InsertKeepsSlot(p: Poll, step: Step, other: nat)
    requires step.Insert? && SlotInv(p, other) && SlotInv(p, step.fd) && Owed(p, step)
    ensures SlotInv(Apply(p, step), other)
  {
    GrowKeepsSlots(p.events, step.fd, other);
    GrowKeepsSlots(p.events, step.fd, step.fd);
  }

  lemma FinishKeepsSlot(p: Poll, step: Step, other: nat)
    requires step.Finish? && SlotInv(p, other) && SlotInv(p, step.fd)
    ensures SlotInv(Apply(p, step), other)
  {
    if other == step.fd && other in p.pending {
      assert Free(Apply(p, step).guards, other);
    }
  }

  lemma DeliverKeepsSlot(p: Poll, step: Step, other: nat)
    requires step.Deliver? && SlotInv(p, other) && SlotInv(p, step.fd)
    ensures SlotInv(Apply(p, step), other)
  {
    var q := Apply(p, step);
    if Armed(p, step.fd) {
      var added := Guard(step.fd, p.kernel[step.fd].event.handler);
      assert forall h: nat :: Guard(other, h) != added ==> q.guards[Guard(other, h)] == p.guards[Guard(other, h)];
    }
  }

  lemma NotifyKeepsSlot(p: Poll, step: Step, other: nat)
    requires step.NotifyWritable?
    requires SlotInv(p, other) && SlotInv(p, step.fd) && Owed(p, step)
    ensures SlotInv(Apply(p, step), other)
  {
    var q := Apply(p, step);
    assert q.guards == p.guards && q.kernel == p.kernel && q.pending == p.pending;
    if q != p && other == step.fd {
      assert p.guards[Guard(other, step.handler)] > 0;
    }
  }

  lemma DropKeepsSlot(p: Poll, step: Step, other: nat)
    requires step.DropGuard?
    requires SlotInv(p, other) && SlotInv(p, step.fd)
    ensures SlotInv(Apply(p, step), other)
  {
    var q := Apply(p, step);
    FewerGuards(p.guards, q.guards, other);
    if Guard(step.fd, step.handler) in p.guards {
      assert Borrowed(p, step.fd, step.handler) == Slot(p, step.fd).value;
    }
  }

  /** Nothing of the descriptor is left, and nothing of any other has changed. */
  ghost predicate Removed(p: Poll, q: Poll, fd: nat) {
    && Slot(q, fd) == None && fd !in q.kernel && Free(q.guards, fd)
    && (forall other: nat :: other != fd ==> Slot(q, other) == Slot(p, other))
    && (forall other: nat :: other != fd ==> (other in q.kernel <==> other in p.kernel))
    && (forall other: nat :: other != fd && other in p.kernel && other in q.kernel ==> q.kernel[other] == p.kernel[other])
    && (forall g: Guard :: g.fd != fd ==> q.guards[g] == p.guards[g])
    && q.pending == p.pending
  }

  /** Clearing a descriptor from outside removes its handler, from the table and the kernel. */
  lemma ClearRemoves(p: Poll, fd: nat)
    requires Inv(p) && Owed(p, ClearByFd(fd))
    ensures Removed(p, Apply(p, ClearByFd(fd)), fd)
  {
    assert SlotInv(p, fd);
  }

  /** Cancelling the only guard removes its event for good, and re-arms nothing. */
  lemma CancelRemoves(p: Poll, fd: nat, handler: nat)
    requires Inv(p) && p.guards[Guard(fd, handler)] == 1
    ensures Removed(p, Apply(p, Cancel(fd, handler)), fd)
  {
    assert SlotInv(p, fd);
    CancelEmpties(p, fd, handler);
  }

  /** Cancelling the only guard, and with it the event, leaves the descriptor empty. */
  lemma CancelEmpties(p: Poll, fd: nat, handler: nat)
    requires SlotInv(p, fd) && p.guards[Guard(fd, handler)] == 1
    ensures SlotInv(Apply(p, Cancel(fd, handler)), fd)
    ensures Free(Apply(p, Cancel(fd, handler)).guards, fd)
  {
    var q := Apply(p, Cancel(fd, handler));
    assert Guard(fd, handler) in p.guards && Guard(fd, handler) !in q.guards;
    assert Slot(p, fd).Some? && Slot(p, fd).value.handler == handler;
    FewerGuards(p.guards, q.guards, fd);
    assert Free(q.guards, fd);
  }

  lemma CancelKeepsSlot(p: Poll, step: Step, other: nat)
    requires step.Cancel?
    requires SlotInv(p, other) && SlotInv(p, step.fd) && Owed(p, step)
    ensures SlotInv(Apply(p, step), other)
  {
    if Guard(step.fd, step.handler) in p.guards {
      if other == step.fd {
        CancelEmpties(p, other, step.handler);
      } else {
        FewerGuards(p.guards, Apply(p, step).guards, other);
      }
    }
  }

  lemma ClearKeepsSlot(p: Poll, step: Step, other: nat)
    requires step.ClearByFd?
    requires SlotInv(p, other) && SlotInv(p, step.fd) && Owed(p, step)
    ensures SlotInv(Apply(p, step), other)
  {
    FewerGuards(p.guards, Apply(p, step).guards, other);
  }

  lemma StepKeepsSlot(p: Poll, step: Step, other: nat)
    requires SlotInv(p, other) && SlotInv(p, step.fd) && Owed(p, step)
    ensures SlotInv(Apply(p, step), other)
  {
    if step.Insert? {
      InsertKeepsSlot(p, step, other);
    } else if step.Finish? {
      FinishKeepsSlot(p, step, other);
    } else if step.Deliver? {
      DeliverKeepsSlot(p, step, other);
    } else if step.NotifyWritable? {
      NotifyKeepsSlot(p, step, other);
    } else if step.DropGuard? {
      DropKeepsSlot(p, step, other);
    } else if step.Cancel? {
      CancelKeepsSlot(p, step, other);
    } else {
      ClearKeepsSlot(p, step, other);
    }
  }

  lemma StepKeepsInv(p: Poll, step: Step)
    requires Inv(p) && Owed(p, step)
    ensures Inv(Apply(p, step))
  {
    forall other: nat ensures SlotInv(Apply(p, step), other) {
      assert SlotInv(p, other) && SlotInv(p, step.fd);
      StepKeepsSlot(p, step, other);
    }
  }

  lemma RegisteredSlot(p: Poll, fd: nat, handler: nat, oneshot: bool, ok: bool, other: nat)
    requires SlotInv(p, fd) && SlotInv(p, other) && fd !in p.pending
    ensures var r := Apply(Apply(p, Insert(fd, handler, oneshot)), Finish(fd, ok));
            && r.guards == p.guards && fd !in r.pending
            && Slot(r, fd) == (if ok then Some(Event(handler, oneshot, false)) else None)
            && (ok ==> fd in r.kernel && r.kernel[fd] == Kev(true, Event(handler, oneshot, false)))
            && (!ok ==> fd !in r.kernel)
            && (other != fd ==> SlotInv(r, other))
  {
    GrowKeepsSlots(p.events, fd, fd);
    GrowKeepsSlots(p.events, fd, other);
    var r := Apply(Apply(p, Insert(fd, handler, oneshot)), Finish(fd, ok));
    assert other != fd ==> Slot(r, other) == Slot(p, other);
  }

  /** Registering over a descriptor keeps the registry consistent exactly when no guard for it is live. */
  lemma RegistrationNeedsNoGuard(p: Poll, fd: nat, handler: nat, oneshot: bool, ok: bool)
    requires Inv(p) && fd !in p.pending
    requires Slot(p, fd).Some? ==> handler != Slot(p, fd).value.handler
    ensures Inv(Apply(Apply(p, Insert(fd, handler, oneshot)), Finish(fd, ok))) <==> Free(p.guards, fd)
  {
    var r := Apply(Apply(p, Insert(fd, handler, oneshot)), Finish(fd, ok));
    assert SlotInv(p, fd);
    forall other: nat ensures other != fd ==> SlotInv(r, other) {
      assert SlotInv(p, other);
      RegisteredSlot(p, fd, handler, oneshot, ok, other);
    }
    RegisteredSlot(p, fd, handler, oneshot, ok, fd);
    assert Free(r.guards, fd) <==> Free(p.guards, fd);
    if Free(p.guards, fd) {
      assert SlotInv(r, fd);
    } else {
      var h: nat :| Guard(fd, h) in p.guards;
      assert Guard(fd, h) in r.guards && h != handler;
      assert !SlotInv(r, fd);
    }
  }

  // ----- every run ---------------------------------------------------------

  ghost predicate Disciplined(p: Poll, steps: seq<Step>)
    decreases |steps|
  {
    steps == [] || (Owed(p, steps[0]) && Disciplined(Apply(p, steps[0]), steps[1..]))
  }

  function Exec(p: Poll, steps: seq<Step>): Poll
    decreases |steps|
  {
    if steps == [] then p else Exec(Apply(p, steps[0]), steps[1..])
  }

  lemma {:induction false} RunKeepsInv(p: Poll, steps: seq<Step>)
    requires Inv(p) && Disciplined(p, steps)
    ensures Inv(Exec(p, steps))
    decreases |steps|
  {
    if steps != [] {
      StepKeepsInv(p, steps[0]);
      RunKeepsInv(Apply(p, steps[0]), steps[1..]);
    }
  }

  /**
   * After any disciplined interleaving: the kernel knows a descriptor exactly when its slot is
   * taken and its registration finished; the kernel and every live guard hold that slot's
   * handler; a one-shot event has at most one live guard and is armed exactly when it has none.
   */
  lemma TableMatchesKernel(steps: seq<Step>, fd: nat, guard: Guard)
    requires Disciplined(EMPTY, steps)
    ensures var p := Exec(EMPTY, steps);
            var slot := Slot(p, fd);
            && (fd in p.kernel <==> slot.Some? && fd !in p.pending)
            && (fd in p.kernel ==> p.kernel[fd].event.handler == slot.value.handler)
            && (guard in p.guards && guard.fd == fd ==> fd in p.kernel && guard.handler == slot.value.handler)
            && (fd in p.kernel && slot.value.oneshot ==>
                  && p.guards[Guard(fd, slot.value.handler)] <= 1
                  && (Armed(p, fd) <==> p.guards[Guard(fd, slot.value.handler)] == 0))
            && (fd in p.kernel && !slot.value.oneshot ==> Armed(p, fd))
  {
    assert Inv(EMPTY);
    RunKeepsInv(EMPTY, steps);
    var p := Exec(EMPTY, steps);
    assert SlotInv(p, fd);
    if guard in p.guards && guard.fd == fd {
      assert Guard(fd, guard.handler) in p.guards;
    }
  }

  // ----- a registration across other threads' steps ------------------------

  lemma OthersLeavePending(p: Poll, step: Step, fd: nat)
    requires Inv(p) && Owed(p, step) && fd in p.pending && !(step.Finish? && step.fd == fd)
    ensures Slot(Apply(p, step), fd) == Slot(p, fd) && fd in Apply(p, step).pending
  {
    assert SlotInv(p, fd);
    assert Free(p.guards, fd);
    if step.Insert? {
      GrowKeepsSlots(p.events, step.fd, fd);
    } else if step.NotifyWritable? || step.DropGuard? || step.Cancel? {
      assert step.fd == fd ==> Guard(fd, step.handler) !in p.guards;
    }
  }

  lemma {:induction false} PendingStands(p: Poll, steps: seq<Step>, fd: nat)
    requires Inv(p) && Disciplined(p, steps) && fd in p.pending
    requires NoFinish(steps, fd)
    ensures Slot(Exec(p, steps), fd) == Slot(p, fd) && fd in Exec(p, steps).pending && Inv(Exec(p, steps))
    decreases |steps|
  {
    if steps != [] {
      StepKeepsInv(p, steps[0]);
      OthersLeavePending(p, steps[0], fd);
      PendingStands(Apply(p, steps[0]), steps[1..], fd);
    }
  }

  /**
   * Whatever other threads do in between, a registration ends with its handler stored and armed
   * in the kernel, or, when the kernel refuses, with neither: a displaced predecessor is gone
   * from both as well, and nothing is stranded in the table.
   */
  lemma RegistrationIsAllOrNothing(p: Poll, fd: nat, handler: nat, oneshot: bool, between: seq<Step>, ok: bool)
    requires Inv(p) && Owed(p, Insert(fd, handler, oneshot))
    requires Disciplined(Apply(p, Insert(fd, handler, oneshot)), between)
    requires NoFinish(between, fd)
    ensures var q := Apply(Exec(Apply(p, Insert(fd, handler, oneshot)), between), Finish(fd, ok));
            var ev := Event(handler, oneshot, false);
            && Inv(q)
            && fd !in q.pending
            && (ok ==> Slot(q, fd) == Some(ev) && fd in q.kernel && q.kernel[fd] == Kev(true, ev))
            && (!ok ==> Slot(q, fd) == None && fd !in q.kernel)
  {
    var stored := Apply(p, Insert(fd, handler, oneshot));
    StepKeepsInv(p, Insert(fd, handler, oneshot));
    PendingStands(stored, between, fd);
    var before := Exec(stored, between);
    assert SlotInv(before, fd);
    StepKeepsInv(before, Finish(fd, ok));
  }

  predicate NoFinish(steps: seq<Step>, fd: nat) { forall i :: 0 <= i < |steps| ==> !(steps[i].Finish? && steps[i].fd == fd) }

  /** Whatever other threads do between its halves, a registration ends consistently. */
  ghost predicate Safe(p: Poll, fd: nat, handler: nat, oneshot: bool, ok: bool) {
    var stored := Apply(p, Insert(fd, handler, oneshot));
    forall between: seq<Step> :: Disciplined(stored, between) && NoFinish(between, fd) ==> Inv(Apply(Exec(stored, between), Finish(fd, ok)))
  }

  /** A registration is safe across all interleavings exactly when no guard for its descriptor is live. */
  lemma SafeIffFree(p: Poll, fd: nat, handler: nat, oneshot: bool, ok: bool)
    requires Inv(p) && fd !in p.pending
    requires Slot(p, fd).Some? ==> handler != Slot(p, fd).value.handler
    ensures Safe(p, fd, handler, oneshot, ok) <==> Free(p.guards, fd)
  {
    var stored := Apply(p, Insert(fd, handler, oneshot));
    if Free(p.guards, fd) {
      forall between: seq<Step> | Disciplined(stored, between) && NoFinish(between, fd)
        ensures Inv(Apply(Exec(stored, between), Finish(fd, ok)))
      {
        RegistrationIsAllOrNothing(p, fd, handler, oneshot, between, ok);
      }
    } else {
      RegistrationNeedsNoGuard(p, fd, handler, oneshot, ok);
      assert Disciplined(stored, []) && NoFinish([], fd) && Exec(stored, []) == stored;
    }
  }

  /** A delivered one-shot event comes back armed for exactly the readiness its guard last asked. */
  lemma DispatchRoundTrip(p: Poll, fd: nat, writable: bool)
    requires Inv(p) && Armed(p, fd) && Slot(p, fd).Some? && Slot(p, fd).value.oneshot
    ensures var held := Apply(p, Deliver(fd));
            var handler := Slot(p, fd).value.handler;
            var q := Apply(Apply(held, NotifyWritable(fd, handler, writable)), DropGuard(fd, handler));
            && !Armed(held, fd)
            && q.guards == p.guards
            && fd in q.kernel && q.kernel[fd] == Kev(true, Slot(p, fd).value.(writable := writable))
  {
    assert SlotInv(p, fd);
  }

  /** Handler 1 registered one-shot under descriptor 0, and delivered. */
  const DELIVERED: Poll := Poll([Some(Event(1, true, false))], map[0 := Kev(false, Event(1, true, false))], {}, multiset{Guard(0, 1)})

  lemma DeliveredIsReached(steps: seq<Step>)
    requires steps == [Insert(0, 1, true), Finish(0, true), Deliver(0)]
    ensures Disciplined(EMPTY, steps) && Exec(EMPTY, steps) == DELIVERED
  {
    assert Grow(EMPTY.events, 0) == [None];
    var p1 := Apply(EMPTY, steps[0]);
    assert p1 == Poll([Some(Event(1, true, false))], map[], {0}, multiset{});
    var p2 := Apply(p1, steps[1]);
    assert p2 == Poll([Some(Event(1, true, false))], map[0 := Kev(true, Event(1, true, false))], {}, multiset{});
    assert Apply(p2, steps[2]) == DELIVERED;
    assert steps[1..][0] == steps[1] && steps[1..][1..] == [Deliver(0)] && [Deliver(0)][1..] == [];
    assert Exec(p2, [Deliver(0)]) == DELIVERED;
    assert Exec(p1, steps[1..]) == DELIVERED;
  }

  /**
   * Such a state is reachable, and this is what goes wrong: with a guard live, another handler is
   * registered over the descriptor, one-shot or not; dropped, the guard re-arms the handler that
   * was displaced, and that is the one the kernel then reports.
   */
  lemma LiveGuardBreaksRegistration(oneshot: bool)
    ensures var steps := [Insert(0, 1, true), Finish(0, true), Deliver(0)];
            var p := Exec(EMPTY, steps);
            var over := Apply(Apply(p, Insert(0, 2, oneshot)), Finish(0, true));
            var end := Apply(over, DropGuard(0, 1));
            && Disciplined(EMPTY, steps) && Inv(p) && !Free(p.guards, 0) && 0 !in p.pending
            && !Inv(over)
            && Slot(end, 0) == Some(Event(2, oneshot, false)) && 0 in end.kernel && end.kernel[0].event.handler == 1
  {
    var steps := [Insert(0, 1, true), Finish(0, true), Deliver(0)];
    DeliveredIsReached(steps);
    assert Inv(EMPTY);
    RunKeepsInv(EMPTY, steps);
    assert Guard(0, 1) in DELIVERED.guards;
    RegistrationNeedsNoGuard(DELIVERED, 0, 2, oneshot, true);
    assert SlotInv(DELIVERED, 0);
    RegisteredSlot(DELIVERED, 0, 2, oneshot, true, 0);
  }

  // ----- the registry itself -----------------------------------------------

  /** The poll object with the kernel set it drives, the registrations under way and the live guards. */
  class EventPoll {
    var events: seq<Option<Event>>
    var kernel: Kernel
    var pending: set<nat>
    var guards: multiset<Guard>

    function View(): Poll
      reads this
    {
      Poll(events, kernel, pending, guards)
    }

    constructor ()
      ensures View() == EMPTY && Inv(View())
    {
      events, kernel, pending, guards := [], map[], {}, multiset{};
    }

    method InsertEvent(fd: nat, ev: Event)
      modifies this
      ensures (events, kernel) == InsertAt(old(events), old(kernel), fd, ev)
      ensures pending == old(pending) + {fd} && guards == old(guards)
    {
      while |events| <= fd
        invariant Grow(events, fd) == Grow(old(events), fd)
        invariant kernel == old(kernel) && pending == old(pending) && guards == old(guards)
        decreases fd + 1 - |events|
      {
        events := events + [None];
      }
      var previous := events[fd];
      events := events[fd := None];
      if previous.Some? {
        kernel := kernel - {fd};
      }
      events := events[fd := Some(ev)];
      pending := pending + {fd};
      assert events == Grow(old(events), fd)[fd := Some(ev)];
    }

    /** Steps of other threads. */
    method Others(steps: seq<Step>)
      modifies this
      ensures View() == Exec(old(View()), steps)
    {
      var p := Exec(View(), steps);
      events, kernel, pending, guards := p.events, p.kernel, p.pending, p.guards;
    }

    /** The kernel's answer to the addition, and the roll-back when it refuses. */
    method FinishRegistration(fd: nat, ok: bool) returns (registered: bool)
      requires fd in pending && Slot(View(), fd).Some?
      modifies this
      ensures View() == Apply(old(View()), Finish(fd, ok))
      ensures registered == (ok && fd !in old(kernel))
    {
      registered := ok && fd !in kernel;
      if registered {
        kernel := kernel[fd := Kev(true, events[fd].value)];
      } else {
        events := events[fd := None];
      }
      pending := pending - {fd};
    }

    /** `register_event`, with whatever other threads do between storing the handler and adding it. */
    method RegisterEvent(fd: nat, handler: nat, oneshot: bool, between: seq<Step>, ok: bool) returns (registered: bool)
      requires Inv(View()) && Free(guards, fd) && fd !in pending
      requires Disciplined(Apply(View(), Insert(fd, handler, oneshot)), between)
      requires NoFinish(between, fd)
      modifies this
      ensures View() == Apply(Exec(Apply(old(View()), Insert(fd, handler, oneshot)), between), Finish(fd, ok))
      ensures Inv(View()) && fd !in pending && registered == ok
      ensures Slot(View(), fd) == if ok then Some(Event(handler, oneshot, false)) else None
      ensures fd in kernel <==> ok
    {
      ghost var before := View();
      ghost var step := Insert(fd, handler, oneshot);
      RegistrationIsAllOrNothing(before, fd, handler, oneshot, between, ok);
      StepKeepsInv(before, step);
      InsertEvent(fd, Event(handler, oneshot, false));
      assert View() == Apply(before, step);
      PendingStands(View(), between, fd);
      Others(between);
      assert SlotInv(View(), fd);
      registered := FinishRegistration(fd, ok);
    }

    /** `clear_event_by_fd`, for an index inside the table as its safety contract demands. */
    method ClearEventByFd(fd: nat)
      requires fd < |events|
      modifies this`events, this`kernel
      ensures View() == Clear(old(View()), fd)
      ensures Slot(View(), fd).None? && (old(events)[fd].Some? ==> fd !in kernel)
      ensures forall other: nat :: other != fd ==> Slot(View(), other) == old(Slot(View(), other))
    {
      var previous := events[fd];
      events := events[fd := None];
      if previous.Some? {
        kernel := kernel - {fd};
      }
      assert events == Clear(old(View()), fd).events;
    }
  }
}
