/**
 * One peer's endpoint and its connected socket (boringtun/src/device/peer.rs, driven by the
 * listener in boringtun/src/device/mod.rs): the socket is opened and its lifetime token minted
 * under one peer lock, and a handler that holds a token acts only while it is current.
 */
module PeerConnection {
  import opened Prelude

  datatype Addr = V4(ip: nat, port: nat) | V6(ip: nat, port: nat, flow: nat, scope: nat)

  /** An IPv4-mapped IPv6 address is stored as the IPv4 address it stands for (Linux). */
  function Canonical(a: Addr): Addr {
    if a.V6? && a.ip / 0x1_0000_0000 == 0xffff then V4(a.ip % 0x1_0000_0000, a.port) else a
  }

  datatype Family = Inet | Inet6

  /**
   * The sources a listener's datagrams carry: one listener per family, the IPv6 one bound to
   * IPv6 only, so no IPv4-mapped address arrives (Linux).
   */
  predicate Delivers(listener: Family, from: Addr) {
    if listener.Inet? then from.V4? else from.V6? && from.ip / 0x1_0000_0000 != 0xffff
  }

  /** The tunnel's window over one path: the restart it dates from and the packets it has seen. */
  datatype Window = Window(path: Option<Addr>, epoch: nat, seen: nat)

  datatype Peer = Peer(addr: Option<Addr>, conn: Option<nat>, lifetime: Option<nat>, suppressed: bool, window: Window)

  /** A registered handler: the socket it receives on and the address that socket is connected to. */
  datatype Handler = Handler(socket: nat, endpoint: Addr)

  /**
   * The peer, every handler ever registered for it under its token, the listeners that have
   * latched against upgrades, and a supply of fresh identities. `failures` counts opening
   * sequences that failed.
   */
  datatype World = World(peer: Peer, handlers: map<nat, Handler>, latched: set<Family>, next: nat, failures: nat)

  function Start(endpoint: Option<Addr>): World {
    var addr := if endpoint.Some? then Some(Canonical(endpoint.value)) else None;
    World(Peer(addr, None, None, false, Window(addr, 0, 0)), map[], {}, 0, 0)
  }

  // ----- the operations ----------------------------------------------------

  function Shutdown(p: Peer): Peer { p.(conn := None) }

  function Restart(w: Window, path: Addr): Window { Window(Some(path), w.epoch + 1, 0) }

  /** `move_endpoint`: only a change of address drops the socket and forgives an earlier failure. */
  function Move(p: Peer, addr: Addr, resetWindow: bool): Peer {
    var to := Canonical(addr);
    if p.addr == Some(to) then p
    else p.(addr := Some(to), conn := None, suppressed := false,
            window := if resetWindow then Restart(p.window, to) else p.window)
  }

  /**
   * `commit_anonymous` for an authenticated packet: the window restarts for a new source before
   * the commit, and the one it replaced is put back if the commit fails. `touched` says whether
   * a commit that fails had already entered the packet in the window.
   */
  function Ingress(p: Peer, from: Addr, moves: bool, committed: bool, touched: bool): Peer {
    var anew := moves && p.addr != Some(from);
    var begun := if anew then Restart(p.window, Canonical(from)) else p.window;
    var after := if committed || touched then begun.(seen := begun.seen + 1) else begun;
    if !committed then p.(window := if anew then p.window else after)
    else if moves then Move(p.(window := after), from, false)
    else p.(window := after)
  }

  predicate IsCurrent(p: Peer, token: nat, endpoint: Addr) {
    p.conn.Some? && p.addr == Some(endpoint) && p.lifetime == Some(token)
  }

  /** What the system makes of an upgrade: whether the socket opens, if not whether for want of
      descriptors or memory, and whether its handler is accepted by the poller. */
  datatype Attempt = Attempt(opens: bool, exhausted: bool, registers: bool)

  function FamilyOf(a: Addr): Family { if a.V4? then Inet else Inet6 }

  /**
   * A listener upgrades after committing a packet that set the endpoint to its source, so the
   * endpoint is of the listener's own family.
   */
  predicate Tries(w: World, listener: Family) {
    && listener !in w.latched && !w.peer.suppressed
    && w.peer.conn.None? && w.peer.addr.Some? && FamilyOf(w.peer.addr.value) == listener
  }

  /** The upgrade to a connected socket, under one peer lock. */
  function Upgrade(w: World, listener: Family, a: Attempt): World {
    if !Tries(w, listener) then w
    else if !a.opens then
      var failed := w.(failures := w.failures + 1);
      if a.exhausted then failed.(latched := w.latched + {listener}) else failed.(peer := w.peer.(suppressed := true))
    else
      var socket, token := w.next, w.next + 1;
      var committed := w.peer.(conn := Some(socket), lifetime := Some(token));
      if a.registers then
        w.(peer := committed, handlers := w.handlers[token := Handler(socket, w.peer.addr.value)], next := w.next + 2)
      else
        w.(peer := committed.(conn := None), latched := w.latched + {listener}, next := w.next + 2)
  }

  datatype Step =
    | Upgrading(listener: Family, attempt: Attempt)
    | FreshListener(family: Family) // a new listener socket, as a change of port makes for each family
    | Roam(listener: Family, from: Addr, moves: bool, committed: bool, touched: bool)
    | SetEndpoint(addr: Addr)
    | ShuttingDown

  function Apply(w: World, step: Step): World {
    match step
    case Upgrading(listener, attempt) => Upgrade(w, listener, attempt)
    case FreshListener(family) => w.(peer := Shutdown(w.peer), latched := w.latched - {family})
    case Roam(listener, from, moves, committed, touched) =>
      if Delivers(listener, from) then w.(peer := Ingress(w.peer, from, moves, committed, touched)) else w
    case SetEndpoint(addr) => w.(peer := Move(w.peer, addr, true))
    case ShuttingDown => w.(peer := Shutdown(w.peer))
  }

  function Exec(w: World, steps: seq<Step>): World
    decreases |steps|
  {
    if steps == [] then w else Exec(Apply(w, steps[0]), steps[1..])
  }

  // ----- which handler is current ------------------------------------------

  /** A token is always one more than the socket minted with it, so both are used up together. */
  predicate Minted(w: World) {
    && (forall t :: t in w.handlers ==> t == w.handlers[t].socket + 1 && t < w.next)
    && (w.peer.lifetime.Some? ==> w.peer.lifetime.value < w.next)
  }

  /** A committed socket is that of the last token's handler, and is connected to the endpoint. */
  predicate Owned(w: World) {
    w.peer.conn.Some? ==>
      && w.peer.lifetime.Some? && w.peer.lifetime.value in w.handlers
      && w.handlers[w.peer.lifetime.value].socket == w.peer.conn.value
      && w.peer.addr == Some(w.handlers[w.peer.lifetime.value].endpoint)
  }

  /** The endpoint is stored in canonical form, and the window describes the path to it. */
  predicate Tracked(p: Peer) {
    && (p.addr.Some? ==> p.addr.value == Canonical(p.addr.value))
    && p.window.path == p.addr
  }

  predicate Inv(w: World) { Minted(w) && Owned(w) && Tracked(w.peer) }

  lemma UpgradeKeepsInv(w: World, listener: Family, a: Attempt)
    requires Inv(w)
    ensures var q := Upgrade(w, listener, a);
            && Inv(q) && w.next <= q.next
            && forall t :: t in w.handlers ==> t in q.handlers && q.handlers[t] == w.handlers[t]
  {
  }

  /** The peer's own operations keep its window on its endpoint, and touch a socket only to drop it. */
  lemma PeerStepKeepsTracked(w: World, step: Step)
    requires Tracked(w.peer) && !step.Upgrading?
    ensures var q := Apply(w, step).peer;
            && Tracked(q)
            && q.lifetime == w.peer.lifetime
            && (q.conn == None || (q.conn == w.peer.conn && q.addr == w.peer.addr))
  {
  }

  lemma StepKeepsInv(w: World, step: Step)
    requires Inv(w)
    ensures Inv(Apply(w, step))
    ensures w.next <= Apply(w, step).next
    ensures forall t :: t in w.handlers ==> t in Apply(w, step).handlers && Apply(w, step).handlers[t] == w.handlers[t]
  {
    if step.Upgrading? {
      UpgradeKeepsInv(w, step.listener, step.attempt);
    } else {
      PeerStepKeepsTracked(w, step);
    }
  }

  lemma {:induction false} RunKeepsInv(w: World, steps: seq<Step>)
    requires Inv(w)
    ensures Inv(Exec(w, steps))
    ensures forall t :: t in w.handlers ==> t in Exec(w, steps).handlers && Exec(w, steps).handlers[t] == w.handlers[t]
    decreases |steps|
  {
    if steps != [] {
      StepKeepsInv(w, steps[0]);
      RunKeepsInv(Apply(w, steps[0]), steps[1..]);
    }
  }

  /** Whether a token's handler may act: what it asks before every datagram it receives. */
  predicate Current(w: World, token: nat)
    requires token in w.handlers
  {
    IsCurrent(w.peer, token, w.handlers[token].endpoint)
  }

  lemma CurrentIsOwnSocket(w: World, token: nat)
    requires Inv(w) && token in w.handlers
    ensures Current(w, token) <==> w.peer.conn == Some(w.handlers[token].socket)
  {
  }

  /**
   * After any run from a new peer, a handler is current exactly when the socket the peer uses is
   * the one that handler receives on, and at most one handler is.
   */
  lemma CurrentIffOwnSocket(endpoint: Option<Addr>, steps: seq<Step>, token: nat, other: nat)
    requires token in Exec(Start(endpoint), steps).handlers && other in Exec(Start(endpoint), steps).handlers
    ensures var w := Exec(Start(endpoint), steps);
            && (Current(w, token) <==> w.peer.conn == Some(w.handlers[token].socket))
            && (Current(w, token) && Current(w, other) ==> token == other)
            && (w.peer.conn.Some? ==> w.peer.lifetime.Some? && w.peer.lifetime.value in w.handlers && Current(w, w.peer.lifetime.value))
  {
    RunKeepsInv(Start(endpoint), steps);
    CurrentIsOwnSocket(Exec(Start(endpoint), steps), token);
  }

  lemma StepRetires(w: World, step: Step, token: nat)
    requires Inv(w) && token in w.handlers && !Current(w, token)
    ensures token in Apply(w, step).handlers && !Current(Apply(w, step), token)
  {
    StepKeepsInv(w, step);
    CurrentIsOwnSocket(w, token);
    CurrentIsOwnSocket(Apply(w, step), token);
  }

  /** A retired handler stays retired, whatever follows: also when the peer returns to its address. */
  lemma {:induction false} RetiredForever(w: World, steps: seq<Step>, token: nat)
    requires Inv(w) && token in w.handlers && !Current(w, token)
    ensures token in Exec(w, steps).handlers && !Current(Exec(w, steps), token)
    decreases |steps|
  {
    if steps != [] {
      StepKeepsInv(w, steps[0]);
      StepRetires(w, steps[0], token);
      RetiredForever(Apply(w, steps[0]), steps[1..], token);
    }
  }

  predicate Moves(w: World, step: Step) { Apply(w, step).peer.addr != w.peer.addr }

  /** Leaving the address, by a roam or a new endpoint, retires the handler; coming back does not revive it. */
  lemma RoamAndReturn(w: World, token: nat, away: Step, back: seq<Step>)
    requires Inv(w) && token in w.handlers && Moves(w, away)
    ensures token in Exec(w, [away] + back).handlers && !Current(Exec(w, [away] + back), token)
  {
    StepKeepsInv(w, away);
    CurrentIsOwnSocket(Apply(w, away), token);
    RetiredForever(Apply(w, away), back, token);
    assert ([away] + back)[1..] == back;
  }

  /** A shutdown, by itself or with a fresh listener, retires every handler there is, for good. */
  lemma ShutdownRetires(w: World, step: Step, later: seq<Step>, token: nat)
    requires Inv(w) && token in w.handlers && (step == ShuttingDown || step.FreshListener?)
    ensures Apply(w, step).peer.conn == None
    ensures token in Exec(w, [step] + later).handlers && !Current(Exec(w, [step] + later), token)
  {
    StepKeepsInv(w, step);
    CurrentIsOwnSocket(Apply(w, step), token);
    RetiredForever(Apply(w, step), later, token);
    assert ([step] + later)[1..] == later;
  }

  // ----- the window --------------------------------------------------------

  /**
   * A packet a listener delivers restarts the window exactly when it moves the endpoint. The one
   * that moves it is the first the new window has seen; one that would have moved it but is not
   * committed leaves everything as it was.
   */
  lemma WindowRestartsOnMoves(p: Peer, listener: Family, from: Addr, moves: bool, committed: bool, touched: bool)
    requires Tracked(p) && Delivers(listener, from)
    ensures var q := Ingress(p, from, moves, committed, touched);
            && Tracked(q)
            && (q.window.epoch != p.window.epoch <==> q.addr != p.addr)
            && (q.addr != p.addr <==> moves && committed && p.addr != Some(from))
            && (q.addr != p.addr ==> q.addr == Some(from) && q.window == Window(Some(from), p.window.epoch + 1, 1))
            && (committed && q.addr == p.addr ==> q.window == p.window.(seen := p.window.seen + 1))
            && (moves && !committed && p.addr != Some(from) ==> q == p)
            && (!committed && (!moves || p.addr == Some(from)) ==>
                  q == p.(window := if touched then p.window.(seen := p.window.seen + 1) else p.window))
  {
  }

  /** Over any run the window restarts exactly as often as the endpoint moves, and describes the endpoint. */
  lemma {:induction false} RestartsCountMoves(w: World, steps: seq<Step>)
    requires Inv(w)
    ensures Exec(w, steps).peer.window.epoch == w.peer.window.epoch + MoveCount(w, steps)
    ensures Exec(w, steps).peer.window.path == Exec(w, steps).peer.addr
    decreases |steps|
  {
    if steps != [] {
      StepKeepsInv(w, steps[0]);
      StepRestarts(w, steps[0]);
      RestartsCountMoves(Apply(w, steps[0]), steps[1..]);
    }
  }

  lemma StepRestarts(w: World, step: Step)
    requires Inv(w)
    ensures Apply(w, step).peer.window.epoch == w.peer.window.epoch + if Moves(w, step) then 1 else 0
  {
    if step.Roam? && Delivers(step.listener, step.from) {
      WindowRestartsOnMoves(w.peer, step.listener, step.from, step.moves, step.committed, step.touched);
    }
  }

  // ----- failed upgrades ---------------------------------------------------

  function MoveCount(w: World, steps: seq<Step>): nat
    decreases |steps|
  {
    if steps == [] then 0 else (if Moves(w, steps[0]) then 1 else 0) + MoveCount(Apply(w, steps[0]), steps[1..])
  }

  function FreshCount(steps: seq<Step>): nat {
    if steps == [] then 0 else (if steps[0].FreshListener? then 1 else 0) + FreshCount(steps[1..])
  }

  /** How many more sequences may fail at this address, through its family's listener: one or none. */
  function Allowance(w: World): nat {
    if w.peer.suppressed || (w.peer.addr.Some? && FamilyOf(w.peer.addr.value) in w.latched) then 0 else 1
  }

  lemma StepSpendsAllowance(w: World, step: Step)
    ensures Apply(w, step).failures + Allowance(Apply(w, step)) <=
            w.failures + Allowance(w) + (if Moves(w, step) then 1 else 0) + if step.FreshListener? then 1 else 0
  {
  }

  /**
   * However many datagrams ask for it, opening a socket fails at most once per address and per
   * listener socket.
   */
  lemma {:induction false} FailuresArePerAddress(w: World, steps: seq<Step>)
    ensures Exec(w, steps).failures + Allowance(Exec(w, steps)) <=
            w.failures + Allowance(w) + MoveCount(w, steps) + FreshCount(steps)
    decreases |steps|
  {
    if steps != [] {
      StepSpendsAllowance(w, steps[0]);
      FailuresArePerAddress(Apply(w, steps[0]), steps[1..]);
    }
  }

  /** A run of `n` listeners, each failing once for want of descriptors before the next replaces it. */
  function Exhausting(n: nat): seq<Step> {
    [Upgrading(Inet, Attempt(false, true, false))] + if n == 0 then [] else [FreshListener(Inet)] + Exhausting(n - 1)
  }

  /** The bound is met: without any move, `n` fresh listeners allow `n + 1` failures. */
  lemma {:induction false} BoundIsMet(w: World, n: nat)
    requires Tries(w, Inet)
    ensures var end := Exec(w, Exhausting(n));
            end.failures == w.failures + n + 1 && MoveCount(w, Exhausting(n)) == 0 && FreshCount(Exhausting(n)) == n
    decreases n
  {
    var steps := Exhausting(n);
    var failed := Apply(w, steps[0]);
    if n == 0 {
      assert steps[1..] == [];
    } else {
      assert steps[1..] == [FreshListener(Inet)] + Exhausting(n - 1);
      assert steps[1..][1..] == Exhausting(n - 1);
      var again := Apply(failed, FreshListener(Inet));
      BoundIsMet(again, n - 1);
    }
  }

  // ----- the peer object ---------------------------------------------------

  class PeerEndpoint {
    var addr: Option<Addr>
    var conn: Option<nat>
    var lifetime: Option<nat>
    var suppressed: bool
    var window: Window

    function View(): Peer
      reads this
    {
      Peer(addr, conn, lifetime, suppressed, window)
    }

    constructor (endpoint: Option<Addr>)
      ensures View() == Start(endpoint).peer
    {
      addr := if endpoint.Some? then Some(Canonical(endpoint.value)) else None;
      conn, lifetime, suppressed := None, None, false;
      window := Window(if endpoint.Some? then Some(Canonical(endpoint.value)) else None, 0, 0);
    }

    method ShutdownEndpoint()
      modifies this`conn
      ensures View() == Shutdown(old(View()))
    {
      conn := None;
    }

    method MoveEndpoint(to: Addr, resetWindow: bool)
      modifies this
      ensures View() == Move(old(View()), to, resetWindow)
    {
      var canonical := Canonical(to);
      if addr != Some(canonical) {
        conn := None;
        addr := Some(canonical);
        if resetWindow {
          window := Restart(window, canonical);
        }
        suppressed := false;
      }
    }

    /** `connect_endpoint` as far as the peer sees it; `socket` is what the system opened, if it did. */
    method ConnectEndpoint(socket: Option<nat>) returns (connected: bool)
      modifies this`conn
      ensures connected <==> old(conn).None? && addr.Some? && socket.Some?
      ensures conn == if connected then socket else old(conn)
    {
      if conn.Some? || addr.None? || socket.None? {
        return false;
      }
      conn := socket;
      return true;
    }

    /** `commit_connection_lifetime`, given the new token's identity. */
    method CommitLifetime(token: nat)
      modifies this`lifetime
      ensures lifetime == Some(token)
      ensures forall t: nat, e: Addr :: IsCurrent(View(), t, e) <==> conn.Some? && addr == Some(e) && t == token
    {
      lifetime := Some(token);
    }

    /** The listener's upgrade of one peer: connect, mint, register, and undo if that is refused. */
    method UpgradePeer(world: World, listener: Family, a: Attempt) returns (after: World)
      requires world.peer == View()
      modifies this
      ensures after == Upgrade(world, listener, a) && after.peer == View()
    {
      after := world;
      if listener in world.latched || suppressed || addr.None? || FamilyOf(addr.value) != listener {
        return;
      }
      var free := conn.None?;
      var connected := ConnectEndpoint(if a.opens then Some(world.next) else None);
      if connected {
        CommitLifetime(world.next + 1);
        if a.registers {
          after := after.(handlers := after.handlers[world.next + 1 := Handler(world.next, addr.value)]);
        } else {
          conn := None;
          after := after.(latched := after.latched + {listener});
        }
        after := after.(next := world.next + 2);
      } else if free {
        after := after.(failures := after.failures + 1);
        if a.exhausted {
          after := after.(latched := after.latched + {listener});
        } else {
          suppressed := true;
        }
      }
      after := after.(peer := Peer(addr, conn, lifetime, suppressed, window));
    }

    /** `commit_anonymous`, given how the tunnel judged the packet. */
    method CommitAnonymous(from: Addr, moves: bool, committed: bool, touched: bool)
      modifies this
      ensures View() == Ingress(old(View()), from, moves, committed, touched)
    {
      var replaced: Option<Window> := None;
      if moves && addr != Some(from) {
        replaced := Some(window);
        window := Restart(window, Canonical(from));
      }
      if committed || touched {
        window := window.(seen := window.seen + 1);
      }
      if replaced.Some? && !committed {
        window := replaced.value;
      }
      if moves && committed {
        MoveEndpoint(from, false);
      }
    }
  }
}
