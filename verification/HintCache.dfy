/**
 * The listener's cache of camouflage evidence (boringtun/src/device/imitation_auto.rs): at most
 * 1024 sources, each with the protocol first seen from it, forgotten after thirty seconds. Only
 * the front of the insertion order is ever checked for expiry.
 */
module HintCache {
  import opened Prelude

  const MAX_HINTS: nat := 1024
  const HINT_LIFETIME: nat := 30_000_000_000 // nanoseconds

  type Source = nat
  type Protocol = nat

  datatype Hint = Hint(protocol: Protocol, received: nat)

  predicate Live(h: Hint, now: nat) { now - h.received < HINT_LIFETIME }

  datatype Cache = Cache(bySource: map<Source, Hint>, order: seq<Source>)

  const EMPTY: Cache := Cache(map[], [])

  // ----- the operations ----------------------------------------------------

  function PopOldest(c: Cache): Cache {
    if c.order == [] then c else Cache(c.bySource - {c.order[0]}, c.order[1..])
  }

  /** Whether the front of the order has expired; `Inv` below says the front is always in the map. */
  predicate FrontExpired(c: Cache, now: nat) {
    c.order != [] && c.order[0] in c.bySource && !Live(c.bySource[c.order[0]], now)
  }

  function Expire(c: Cache, now: nat): Cache
    decreases |c.order|
  {
    if FrontExpired(c, now) then Expire(PopOldest(c), now) else c
  }

  /** `stamp` is the second clock reading, taken when the hint is stored. */
  function Observe(c: Cache, source: Source, seen: Option<Protocol>, now: nat, stamp: nat): Cache {
    if seen.None? then c
    else
      var current := Expire(c, now);
      if source in current.bySource then current
      else
        var room := if |current.order| == MAX_HINTS then PopOldest(current) else current;
        Cache(room.bySource[source := Hint(seen.value, stamp)], room.order + [source])
  }

  function Lookup(c: Cache, source: Source): Option<Hint> {
    if source in c.bySource then Some(c.bySource[source]) else None
  }

  function Answer(h: Option<Hint>): Option<Protocol> {
    if h.Some? then Some(h.value.protocol) else None
  }

  function Without(order: seq<Source>, source: Source): seq<Source> {
    if order == [] then []
    else (if order[0] == source then [] else [order[0]]) + Without(order[1..], source)
  }

  function Discard(c: Cache, source: Source): Cache {
    if source in c.bySource then Cache(c.bySource - {source}, Without(c.order, source)) else c
  }

  datatype Op =
    | Observation(source: Source, seen: Option<Protocol>, now: nat, stamp: nat)
    | Query(source: Source, now: nat)
    | Discarding(source: Source)
    | Clearing

  function Apply(c: Cache, op: Op): Cache {
    match op
    case Observation(source, seen, now, stamp) => Observe(c, source, seen, now, stamp)
    case Query(_, now) => Expire(c, now)
    case Discarding(source) => Discard(c, source)
    case Clearing => EMPTY
  }

  // ----- the invariant -----------------------------------------------------

  /** No stored hint is older than this source's. */
  predicate Oldest(m: map<Source, Hint>, s: Source) {
    s in m && forall u :: u in m ==> m[s].received <= m[u].received
  }

  /** The order lists the stored sources once each, oldest first. */
  predicate Aged(m: map<Source, Hint>, order: seq<Source>) {
    if order == [] then m == map[] else Oldest(m, order[0]) && Aged(m - {order[0]}, order[1..])
  }

  /** The order and the map agree, no more is stored than fits, and nothing is from the future. */
  predicate Inv(c: Cache, clock: nat) {
    && Aged(c.bySource, c.order)
    && |c.order| <= MAX_HINTS
    && forall s :: s in c.bySource ==> c.bySource[s].received <= clock
  }

  /** The clock each operation reads never runs backwards. */
  predicate InTime(clock: nat, op: Op) {
    match op
    case Observation(_, _, now, stamp) => clock <= now <= stamp
    case Query(_, now) => clock <= now
    case _ => true
  }

  function Clock(clock: nat, op: Op): nat {
    match op
    case Observation(_, _, _, stamp) => stamp
    case Query(_, now) => now
    case _ => clock
  }

  /** Checking only the front is enough: what expiry leaves is exactly what is live. */
  lemma {:induction false} ExpiryIsExact(c: Cache, clock: nat, now: nat)
    requires Inv(c, clock)
    ensures var e := Expire(c, now);
            && Inv(e, clock)
            && (forall s :: s in e.bySource <==> s in c.bySource && Live(c.bySource[s], now))
            && (forall s :: s in e.bySource ==> e.bySource[s] == c.bySource[s])
    decreases |c.order|
  {
    if FrontExpired(c, now) {
      ExpiryIsExact(PopOldest(c), clock, now);
    }
  }

  lemma {:induction false} InsertKeepsAged(m: map<Source, Hint>, order: seq<Source>, source: Source, hint: Hint)
    requires Aged(m, order) && source !in m
    requires forall u :: u in m ==> m[u].received <= hint.received
    ensures Aged(m[source := hint], order + [source])
    decreases |order|
  {
    var n := m[source := hint];
    if order == [] {
      assert n - {source} == map[];
    } else {
      InsertKeepsAged(m - {order[0]}, order[1..], source, hint);
      assert n - {order[0]} == (m - {order[0]})[source := hint];
      assert (order + [source])[1..] == order[1..] + [source];
    }
  }

  lemma {:induction false} WithoutKeepsAged(m: map<Source, Hint>, order: seq<Source>, source: Source)
    requires Aged(m, order)
    ensures Aged(m - {source}, Without(order, source)) && |Without(order, source)| <= |order|
    decreases |order|
  {
    if order == [] {
      assert m - {source} == map[];
    } else {
      WithoutKeepsAged(m - {order[0]}, order[1..], source);
      var rest := Without(order[1..], source);
      if order[0] == source {
        assert m - {source} - {source} == m - {source};
        assert Without(order, source) == rest;
      } else {
        assert m - {source} - {order[0]} == m - {order[0]} - {source};
        assert Without(order, source)[1..] == rest;
      }
    }
  }

  lemma StepKeepsInv(c: Cache, clock: nat, op: Op)
    requires Inv(c, clock) && InTime(clock, op)
    ensures Inv(Apply(c, op), Clock(clock, op))
  {
    match op
    case Observation(source, seen, now, stamp) =>
      if seen.Some? {
        ExpiryIsExact(c, clock, now);
        var current := Expire(c, now);
        var room := if |current.order| == MAX_HINTS then PopOldest(current) else current;
        if source !in current.bySource {
          InsertKeepsAged(room.bySource, room.order, source, Hint(seen.value, stamp));
        }
      }
    case Query(_, now) => ExpiryIsExact(c, clock, now);
    case Discarding(source) => WithoutKeepsAged(c.bySource, c.order, source);
    case Clearing =>
  }

  /** New evidence is found for thirty seconds after it was stored, and not a nanosecond longer. */
  lemma EvidenceLasts(c: Cache, clock: nat, source: Source, protocol: Protocol, now: nat, stamp: nat, later: nat)
    requires Inv(c, clock) && clock <= now <= stamp <= later && source !in Expire(c, now).bySource
    ensures var q := Apply(c, Observation(source, Some(protocol), now, stamp));
            Lookup(Apply(q, Query(source, later)), source) ==
              if later - stamp < 30 * 1_000_000_000 then Some(Hint(protocol, stamp)) else None
  {
    var op := Observation(source, Some(protocol), now, stamp);
    StepKeepsInv(c, clock, op);
    ExpiryIsExact(Apply(c, op), stamp, later);
  }

  // ----- eviction ----------------------------------------------------------

  /** The source an operation evicts to make room, if any. */
  function Evicted(c: Cache, op: Op): Option<Source> {
    if op.Observation? && op.seen.Some? then
      var current := Expire(c, op.now);
      if op.source !in current.bySource && |current.order| == MAX_HINTS then Some(current.order[0]) else None
    else None
  }

  function LiveSources(c: Cache, now: nat): set<Source> {
    set s | s in c.bySource && Live(c.bySource[s], now)
  }

  lemma {:induction false} AgedCount(m: map<Source, Hint>, order: seq<Source>)
    requires Aged(m, order)
    ensures |m.Keys| == |order|
    decreases |order|
  {
    if order != [] {
      AgedCount(m - {order[0]}, order[1..]);
      assert m.Keys == (m - {order[0]}).Keys + {order[0]};
    }
  }

  lemma LiveCount(c: Cache, clock: nat, now: nat)
    requires Inv(c, clock)
    ensures |Expire(c, now).order| == |LiveSources(c, now)|
    ensures |LiveSources(c, now)| <= MAX_HINTS
  {
    ExpiryIsExact(c, clock, now);
    var e := Expire(c, now);
    AgedCount(e.bySource, e.order);
    assert e.bySource.Keys == LiveSources(c, now);
  }

  // ----- the naive timed list ----------------------------------------------

  datatype Item = Item(source: Source, hint: Hint)

  function LiveItems(l: seq<Item>, now: nat): seq<Item> {
    if l == [] then [] else (if Live(l[0].hint, now) then [l[0]] else []) + LiveItems(l[1..], now)
  }

  function Find(l: seq<Item>, s: Source): Option<Hint> {
    if l == [] then None else if l[0].source == s then Some(l[0].hint) else Find(l[1..], s)
  }

  function Dropped(l: seq<Item>, s: Source): seq<Item> {
    if l == [] then [] else (if l[0].source == s then [] else [l[0]]) + Dropped(l[1..], s)
  }

  /**
   * What the cache is meant to be: a list in order of arrival. Expiry looks at every item, a new
   * source goes to the end and, when the list is full, the first item makes room for it.
   */
  function NaiveApply(l: seq<Item>, op: Op): seq<Item> {
    match op
    case Observation(source, seen, now, stamp) =>
      if seen.None? then l
      else
        var live := LiveItems(l, now);
        if Find(live, source).Some? then live
        else (if |live| == MAX_HINTS then live[1..] else live) + [Item(source, Hint(seen.value, stamp))]
    case Query(_, now) => LiveItems(l, now)
    case Discarding(source) => Dropped(l, source)
    case Clearing => []
  }

  /** The source that makes room for another, if any. */
  function NaiveEvicted(l: seq<Item>, op: Op): Option<Source> {
    if op.Observation? && op.seen.Some? then
      var live := LiveItems(l, op.now);
      if Find(live, op.source).None? && |live| == MAX_HINTS then Some(live[0].source) else None
    else None
  }

  /** The items of a map in the order of a queue. */
  function Listed(m: map<Source, Hint>, order: seq<Source>): seq<Item> {
    if order == [] || order[0] !in m then [] else [Item(order[0], m[order[0]])] + Listed(m - {order[0]}, order[1..])
  }

  function Items(c: Cache): seq<Item> { Listed(c.bySource, c.order) }

  lemma {:induction false} FindListed(m: map<Source, Hint>, order: seq<Source>, s: Source)
    requires Aged(m, order)
    ensures |Listed(m, order)| == |order|
    ensures Find(Listed(m, order), s) == if s in m then Some(m[s]) else None
    decreases |order|
  {
    if order != [] {
      FindListed(m - {order[0]}, order[1..], s);
      assert Listed(m, order)[1..] == Listed(m - {order[0]}, order[1..]);
    }
  }

  lemma {:induction false} AllLive(m: map<Source, Hint>, order: seq<Source>, now: nat)
    requires Aged(m, order) && forall u :: u in m ==> Live(m[u], now)
    ensures LiveItems(Listed(m, order), now) == Listed(m, order)
    decreases |order|
  {
    if order != [] {
      AllLive(m - {order[0]}, order[1..], now);
      assert Listed(m, order)[1..] == Listed(m - {order[0]}, order[1..]);
    }
  }

  /** Popping expired fronts is filtering the whole list. */
  lemma {:induction false} ExpiryFilters(c: Cache, now: nat)
    requires Aged(c.bySource, c.order)
    ensures Items(Expire(c, now)) == LiveItems(Items(c), now)
    decreases |c.order|
  {
    if FrontExpired(c, now) {
      ExpiryFilters(PopOldest(c), now);
      assert Items(c)[1..] == Items(PopOldest(c));
    } else {
      AllLive(c.bySource, c.order, now);
    }
  }

  lemma {:induction false} InsertAppends(m: map<Source, Hint>, order: seq<Source>, source: Source, hint: Hint)
    requires Aged(m, order) && source !in m
    ensures Listed(m[source := hint], order + [source]) == Listed(m, order) + [Item(source, hint)]
    decreases |order|
  {
    var n, l := m[source := hint], order + [source];
    if order == [] {
      assert l[1..] == [];
    } else {
      InsertAppends(m - {order[0]}, order[1..], source, hint);
      assert n - {order[0]} == (m - {order[0]})[source := hint];
      assert l[1..] == order[1..] + [source];
    }
  }

  lemma {:induction false} WithoutDrops(m: map<Source, Hint>, order: seq<Source>, source: Source)
    requires Aged(m, order)
    ensures Listed(m - {source}, Without(order, source)) == Dropped(Listed(m, order), source)
    decreases |order|
  {
    if order != [] {
      WithoutDrops(m - {order[0]}, order[1..], source);
      var rest := Without(order[1..], source);
      assert Listed(m, order)[1..] == Listed(m - {order[0]}, order[1..]);
      if order[0] == source {
        assert m - {source} - {source} == m - {source};
        assert Without(order, source) == rest;
      } else {
        assert m - {source} - {order[0]} == m - {order[0]} - {source};
        assert Without(order, source)[1..] == rest;
      }
    }
  }

  lemma DroppedAbsent(m: map<Source, Hint>, order: seq<Source>, source: Source)
    requires Aged(m, order) && source !in m
    ensures Dropped(Listed(m, order), source) == Listed(m, order)
    decreases |order|
  {
    if order != [] {
      DroppedAbsent(m - {order[0]}, order[1..], source);
      assert Listed(m, order)[1..] == Listed(m - {order[0]}, order[1..]);
    }
  }

  lemma ObservationRefines(c: Cache, clock: nat, op: Op)
    requires Inv(c, clock) && op.Observation? && op.seen.Some?
    ensures Items(Apply(c, op)) == NaiveApply(Items(c), op)
    ensures Evicted(c, op) == NaiveEvicted(Items(c), op)
  {
    var current := Expire(c, op.now);
    ExpiryIsExact(c, clock, op.now);
    ExpiryFilters(c, op.now);
    FindListed(current.bySource, current.order, op.source);
    if op.source !in current.bySource {
      var room := if |current.order| == MAX_HINTS then PopOldest(current) else current;
      assert |current.order| == MAX_HINTS ==> Items(room) == Items(current)[1..];
      InsertAppends(room.bySource, room.order, op.source, Hint(op.seen.value, op.stamp));
    }
  }

  /** Each operation of the map and the queue is the list's, the source it evicts included. */
  lemma StepRefines(c: Cache, clock: nat, op: Op)
    requires Inv(c, clock)
    ensures Items(Apply(c, op)) == NaiveApply(Items(c), op)
    ensures Evicted(c, op) == NaiveEvicted(Items(c), op)
  {
    match op
    case Observation(source, seen, now, stamp) =>
      if seen.Some? {
        ObservationRefines(c, clock, op);
      }
    case Query(_, now) => ExpiryFilters(c, now);
    case Discarding(source) =>
      WithoutDrops(c.bySource, c.order, source);
      if source !in c.bySource {
        DroppedAbsent(c.bySource, c.order, source);
      }
    case Clearing =>
  }

  /**
   * Eviction happens exactly when a source with no live hint is recognised while 1024 others are
   * live, and then takes the first live item in order of arrival, whose hint is no younger than
   * any other.
   */
  lemma EvictionIsExact(c: Cache, clock: nat, op: Op)
    requires Inv(c, clock)
    ensures Evicted(c, op).Some? <==>
            op.Observation? && op.seen.Some? && op.source !in LiveSources(c, op.now) && |LiveSources(c, op.now)| == MAX_HINTS
    ensures Evicted(c, op).Some? ==> var v := Evicted(c, op).value;
            && v in LiveSources(c, op.now)
            && |LiveItems(Items(c), op.now)| == MAX_HINTS && v == LiveItems(Items(c), op.now)[0].source
            && forall u :: u in LiveSources(c, op.now) ==> c.bySource[v].received <= c.bySource[u].received
  {
    StepRefines(c, clock, op);
    if op.Observation? {
      LiveCount(c, clock, op.now);
      ExpiryIsExact(c, clock, op.now);
    }
  }

  // ----- what a source's evidence means ------------------------------------

  predicate LiveHint(h: Option<Hint>, now: nat) { h.Some? && Live(h.value, now) }

  /**
   * One source's evidence, followed through the history beside the naive list and never expired:
   * the first protocol recognised while none was live, until it is discarded, cleared or evicted.
   */
  function Follow(have: Option<Hint>, l: seq<Item>, op: Op, s: Source): Option<Hint> {
    match op
    case Observation(source, seen, now, stamp) =>
      if seen.Some? && source == s && !LiveHint(have, now) then Some(Hint(seen.value, stamp))
      else if NaiveEvicted(l, op) == Some(s) then None
      else have
    case Query(_, _) => have
    case Discarding(source) => if source == s then None else have
    case Clearing => None
  }

  /** The cache holds what was followed, or has dropped it because it is dead. */
  predicate Matches(c: Cache, have: Option<Hint>, s: Source, clock: nat) {
    Lookup(c, s) == have || (Lookup(c, s).None? && !LiveHint(have, clock))
  }

  lemma StepMatches(c: Cache, clock: nat, op: Op, have: Option<Hint>, s: Source)
    requires Inv(c, clock) && InTime(clock, op) && Matches(c, have, s, clock)
    requires Evicted(c, op) == NaiveEvicted(Items(c), op)
    ensures Matches(Apply(c, op), Follow(have, Items(c), op, s), s, Clock(clock, op))
  {
    if op.Observation? || op.Query? {
      ExpiryIsExact(c, clock, op.now);
    }
  }

  predicate Timely(clock: nat, ops: seq<Op>)
    decreases |ops|
  {
    ops == [] || (InTime(clock, ops[0]) && Timely(Clock(clock, ops[0]), ops[1..]))
  }

  function Exec(c: Cache, ops: seq<Op>): Cache
    decreases |ops|
  {
    if ops == [] then c else Exec(Apply(c, ops[0]), ops[1..])
  }

  function ClockAfter(clock: nat, ops: seq<Op>): nat
    decreases |ops|
  {
    if ops == [] then clock else ClockAfter(Clock(clock, ops[0]), ops[1..])
  }

  function NaiveExec(l: seq<Item>, ops: seq<Op>): seq<Item>
    decreases |ops|
  {
    if ops == [] then l else NaiveExec(NaiveApply(l, ops[0]), ops[1..])
  }

  function FollowAll(have: Option<Hint>, l: seq<Item>, ops: seq<Op>, s: Source): Option<Hint>
    decreases |ops|
  {
    if ops == [] then have else FollowAll(Follow(have, l, ops[0], s), NaiveApply(l, ops[0]), ops[1..], s)
  }

  lemma {:induction false} RunRefines(c: Cache, clock: nat, ops: seq<Op>)
    requires Inv(c, clock) && Timely(clock, ops)
    ensures Inv(Exec(c, ops), ClockAfter(clock, ops))
    ensures Items(Exec(c, ops)) == NaiveExec(Items(c), ops)
    decreases |ops|
  {
    if ops != [] {
      StepKeepsInv(c, clock, ops[0]);
      StepRefines(c, clock, ops[0]);
      RunRefines(Apply(c, ops[0]), Clock(clock, ops[0]), ops[1..]);
    }
  }

  /**
   * The cache is the naive timed list. After any history with a clock that does not run back,
   * map and queue hold exactly its items in its order, and `get` answers with a lookup in it.
   */
  lemma CacheIsNaiveList(ops: seq<Op>, s: Source, now: nat)
    requires Timely(0, ops) && ClockAfter(0, ops) <= now
    ensures var c, l := Exec(EMPTY, ops), NaiveExec([], ops);
            && Items(c) == l
            && |c.order| == |l| == |c.bySource.Keys| <= MAX_HINTS
            && Answer(Lookup(Expire(c, now), s)) == Answer(Find(LiveItems(l, now), s))
  {
    RunRefines(EMPTY, 0, ops);
    var c := Exec(EMPTY, ops);
    AgedCount(c.bySource, c.order);
    FindListed(c.bySource, c.order, s);
    ExpiryIsExact(c, ClockAfter(0, ops), now);
    ExpiryFilters(c, now);
    FindListed(Expire(c, now).bySource, Expire(c, now).order, s);
  }

  lemma {:induction false} RunMatches(c: Cache, clock: nat, ops: seq<Op>, have: Option<Hint>, s: Source)
    requires Inv(c, clock) && Timely(clock, ops) && Matches(c, have, s, clock)
    ensures Inv(Exec(c, ops), ClockAfter(clock, ops))
    ensures Matches(Exec(c, ops), FollowAll(have, Items(c), ops, s), s, ClockAfter(clock, ops))
    decreases |ops|
  {
    if ops != [] {
      StepKeepsInv(c, clock, ops[0]);
      StepRefines(c, clock, ops[0]);
      StepMatches(c, clock, ops[0], have, s);
      RunMatches(Apply(c, ops[0]), Clock(clock, ops[0]), ops[1..], Follow(have, Items(c), ops[0], s), s);
    }
  }

  /**
   * What a lookup means: after any history, asking for a source's protocol answers with its
   * followed evidence when that is still live and with nothing otherwise; and never more than
   * 1024 sources are live.
   */
  lemma AnswerIsFirstLiveEvidence(ops: seq<Op>, s: Source, now: nat)
    requires Timely(0, ops) && ClockAfter(0, ops) <= now
    ensures var have := FollowAll(None, [], ops, s);
            Answer(Lookup(Expire(Exec(EMPTY, ops), now), s)) == if LiveHint(have, now) then Some(have.value.protocol) else None
    ensures |LiveSources(Exec(EMPTY, ops), now)| <= MAX_HINTS
  {
    RunMatches(EMPTY, 0, ops, None, s);
    ExpiryIsExact(Exec(EMPTY, ops), ClockAfter(0, ops), now);
    LiveCount(Exec(EMPTY, ops), ClockAfter(0, ops), now);
  }

  /** Clock readings of one loop, in order. */
  predicate Readings(readings: seq<nat>, clock: nat) {
    && (forall i :: 0 <= i < |readings| ==> clock <= readings[i])
    && forall i, j :: 0 <= i < j < |readings| ==> readings[i] <= readings[j]
  }

  /** A front found dead at one reading is dead at every later one. */
  lemma DeadStaysDead(c: Cache, early: nat, late: nat)
    requires FrontExpired(c, early) && early <= late
    ensures Expire(c, late) == Expire(PopOldest(c), late)
  {
  }

  // ----- the cache itself --------------------------------------------------

  class ImitationHints {
    var bySource: map<Source, Hint>
    var order: seq<Source>

    function View(): Cache
      reads this
    {
      Cache(bySource, order)
    }

    constructor ()
      ensures View() == EMPTY
    {
      bySource, order := map[], [];
    }

    method PopFront()
      modifies this
      ensures View() == PopOldest(old(View()))
    {
      if order != [] {
        var source := order[0];
        order := order[1..];
        bySource := bySource - {source};
      }
    }

    /**
     * `expire`, reading the clock at every turn: the map lookup in its guard never misses, and
     * the outcome is that of one expiry at the last reading taken, `now`.
     */
    method ExpireFront(readings: seq<nat>, ghost clock: nat) returns (ghost now: nat)
      requires Inv(View(), clock) && Readings(readings, clock) && |readings| > |order|
      modifies this
      ensures View() == Expire(old(View()), now) && Inv(View(), clock) && now in readings
    {
      now := readings[0];
      var i := 0;
      while order != [] && !Live(bySource[order[0]], readings[i])
        invariant Inv(View(), clock) && i + |order| < |readings|
        invariant now == readings[if i == 0 then 0 else i - 1]
        invariant forall t: nat :: now <= t ==> Expire(View(), t) == Expire(old(View()), t)
        decreases |order|
      {
        now := readings[i];
        ghost var before := View();
        forall t: nat | now <= t ensures Expire(before, t) == Expire(PopOldest(before), t) {
          DeadStaysDead(before, now, t);
        }
        PopFront();
        i := i + 1;
      }
      now := readings[i];
    }

    /** `observe`: expiry reads the clock as often as it needs, the stamp is taken after. */
    method Record(source: Source, seen: Option<Protocol>, readings: seq<nat>, stamp: nat, ghost clock: nat) returns (ghost now: nat)
      requires Inv(View(), clock) && Readings(readings, clock) && |readings| > |order|
      requires forall i :: 0 <= i < |readings| ==> readings[i] <= stamp
      modifies this
      ensures now in readings
      ensures View() == Observe(old(View()), source, seen, now, stamp) && Inv(View(), stamp)
    {
      ghost var before := View();
      now := readings[0];
      StepKeepsInv(before, clock, Observation(source, None, now, stamp));
      if seen.None? {
        return;
      }
      now := ExpireFront(readings, clock);
      StepKeepsInv(before, clock, Observation(source, seen, now, stamp));
      if source in bySource {
        return;
      }
      if |order| == MAX_HINTS {
        PopFront();
      }
      bySource := bySource[source := Hint(seen.value, stamp)];
      order := order + [source];
    }

    method Get(source: Source, readings: seq<nat>, ghost clock: nat) returns (protocol: Option<Protocol>, ghost now: nat)
      requires Inv(View(), clock) && Readings(readings, clock) && |readings| > |order|
      modifies this
      ensures now in readings && View() == Expire(old(View()), now) && Inv(View(), now)
      ensures protocol == Answer(Find(LiveItems(old(Items(View())), now), source))
    {
      ghost var before := View();
      now := ExpireFront(readings, clock);
      ExpiryFilters(before, now);
      FindListed(bySource, order, source);
      protocol := if source in bySource then Some(bySource[source].protocol) else None;
    }

    method Forget(source: Source)
      modifies this
      ensures View() == Discard(old(View()), source)
    {
      if source in bySource {
        bySource := bySource - {source};
        var kept := [];
        var i := 0;
        while i < |order|
          invariant i <= |order|
          invariant kept + Without(order[i..], source) == Without(order, source)
          invariant order == old(order) && bySource == old(bySource) - {source}
        {
          assert order[i..] == [order[i]] + order[i + 1..];
          if order[i] != source {
            kept := kept + [order[i]];
          }
          i := i + 1;
        }
        order := kept;
      }
    }

    method Clear()
      modifies this
      ensures View() == EMPTY
    {
      bySource, order := map[], [];
    }
  }
}
