/**
 * What an upgrade to a connected socket comes to, for every answer of the system, and that the
 * socket which enters service is connected to where the peer was last heard from.
 */
module PeerUpgrades {
  import opened Prelude
  import opened PeerConnection

  /** Neither the listener nor the peer has given up, no socket is in use, and the endpoint is the listener's to serve. */
  predicate MayUpgrade(w: World, listener: Family) {
    && listener !in w.latched && !w.peer.suppressed && w.peer.conn == None
    && match w.peer.addr
       case None => false
       case Some(V4(_, _)) => listener == Inet
       case Some(V6(_, _, _, _)) => listener == Inet6
  }

  /** One handler more, on a socket no handler had, connected to the endpoint and current; nothing else changed. */
  predicate EntersService(w: World, q: World, token: nat) {
    && token !in w.handlers && token in q.handlers && w.peer.addr.Some?
    && q.handlers == w.handlers[token := Handler(q.handlers[token].socket, w.peer.addr.value)]
    && (forall t :: t in w.handlers ==> w.handlers[t].socket != q.handlers[token].socket)
    && q.peer == w.peer.(conn := Some(q.handlers[token].socket), lifetime := Some(token))
    && Current(q, token)
    && q.latched == w.latched && q.failures == w.failures
  }

  /** No socket and no handler came of it, and no handler is current. */
  predicate StaysShared(w: World, q: World) {
    && q.peer.conn == None && q.peer.addr == w.peer.addr && q.peer.window == w.peer.window
    && q.handlers == w.handlers
    && (forall t :: t in q.handlers ==> !Current(q, t))
  }

  /**
   * An upgrade by case. A refused registration, like an exhausted process, ends all upgrades
   * through the listener, and a socket that cannot be opened for another reason ends them for the
   * peer at this address; in each case the peer stays on the shared socket.
   */
  lemma UpgradeOutcome(w: World, listener: Family, a: Attempt)
    requires Inv(w)
    ensures var q := Apply(w, Upgrading(listener, a));
            if !MayUpgrade(w, listener) then q == w
            else if a.opens && a.registers then exists token :: EntersService(w, q, token)
            else
              && StaysShared(w, q)
              && q.latched == (if a.opens || a.exhausted then w.latched + {listener} else w.latched)
              && (q.peer.suppressed <==> !a.opens && !a.exhausted)
              && q.failures == w.failures + (if a.opens then 0 else 1)
              && (a.opens ==> q.peer.lifetime.Some? && q.peer.lifetime.value !in w.handlers)
              && (q.peer.lifetime != w.peer.lifetime <==> a.opens)
  {
    var q := Apply(w, Upgrading(listener, a));
    if MayUpgrade(w, listener) && a.opens && a.registers {
      assert EntersService(w, q, w.next + 1);
    }
  }

  /** A listener that gave up, or a peer that did at this address, tries no more. */
  lemma GivenUp(w: World, listener: Family, a: Attempt, again: Attempt)
    requires Inv(w) && MayUpgrade(w, listener) && !(a.opens && a.registers)
    ensures var q := Apply(w, Upgrading(listener, a));
            Apply(q, Upgrading(listener, again)) == q
  {
    UpgradeOutcome(w, listener, a);
  }

  /** The form `::ffff:a.b.c.d` stands for the IPv4 address in its last 32 bits, and every other address for itself. */
  lemma CanonicalExactly(a: Addr, ip: nat)
    requires ip < 0x1_0000_0000
    ensures a.V6? && a.ip == 0xffff_0000_0000 + ip ==> Canonical(a) == V4(ip, a.port)
    ensures a.V4? || a.ip < 0xffff_0000_0000 || a.ip > 0xffff_ffff_ffff ==> Canonical(a) == a
  {
  }

  /**
   * A new endpoint is stored in canonical form; a change drops the socket and forgives the peer,
   * and the same one changes nothing.
   */
  lemma EndpointIsSet(w: World, addr: Addr)
    requires Inv(w)
    ensures var q, to := Apply(w, SetEndpoint(addr)), Canonical(addr);
            q == if w.peer.addr == Some(to) then w
                 else w.(peer := Peer(Some(to), None, w.peer.lifetime, false, Window(Some(to), w.peer.window.epoch + 1, 0)))
  {
  }

  /**
   * A packet that moves the endpoint, committed through a listener that has not given up, is
   * followed by an upgrade to its very source, whatever the peer's earlier sockets and failures.
   */
  lemma FollowsThePeer(w: World, listener: Family, from: Addr, touched: bool, a: Attempt)
    requires Inv(w) && listener !in w.latched && Delivers(listener, from) && w.peer.addr != Some(from)
    requires a.opens && a.registers
    ensures var heard := Apply(w, Roam(listener, from, true, true, touched));
            var q := Apply(heard, Upgrading(listener, a));
            && heard.peer.addr == Some(from) && heard.peer.conn == None
            && exists token :: EntersService(heard, q, token) && q.handlers[token].endpoint == from
  {
    var heard := Apply(w, Roam(listener, from, true, true, touched));
    StepKeepsInv(w, Roam(listener, from, true, true, touched));
    assert Canonical(from) == from;
    UpgradeOutcome(heard, listener, a);
  }

  /** A new peer is upgraded at its configured endpoint, by the listener of that endpoint's family. */
  lemma NewPeerUpgrades(addr: Addr, a: Attempt)
    requires a.opens && a.registers
    ensures var w := Start(Some(addr));
            var q := Apply(w, Upgrading(FamilyOf(Canonical(addr)), a));
            && w.peer.addr == Some(Canonical(addr)) && w.peer.conn == None && w.handlers == map[] && w.latched == {}
            && (Canonical(addr).V4? <==> FamilyOf(Canonical(addr)) == Inet)
            && exists token :: EntersService(w, q, token) && q.handlers[token].endpoint == Canonical(addr)
  {
    UpgradeOutcome(Start(Some(addr)), FamilyOf(Canonical(addr)), a);
  }
}
