/**
 * The peer sections of a `set=1` transaction (`api_set_peer` and `commit_peer`,
 * boringtun/src/device/api.rs). The parser streams: it applies a section when the next one
 * starts. Addresses and prefixes are parsed, and updates accepted, by an environment.
 */
module PeerSections {
  import opened Prelude
  import opened Decimals
  import opened AwgConfig
  import opened UapiText

  type Key = seq<Byte>
  type Address = string
  type Prefix = string

  datatype Section = Section(remove: bool, updateOnly: bool, replaceIps: bool, endpoint: Option<Address>,
                             keepalive: Option<Range>, preshared: Option<Key>, allowed: seq<Prefix>)

  const DEFAULT: Section := Section(false, false, false, None, None, None, [])

  datatype Attr =
    | Remove(on: bool)
    | UpdateOnly
    | ReplaceIps(on: bool)
    | Endpoint(addr: Address)
    | Keepalive(range: Range)
    | Preshared(key: Key)
    | AllowedIp(prefix: Prefix)
    | Version

  /** What one line says; a new section's key may turn out unreadable. */
  datatype Command = Fail(code: int) | Set(attr: Attr) | NewPeer(key: Option<Key>)

  // ----- reading lines -----------------------------------------------------

  datatype Env = Env(base64: string -> Option<seq<Byte>>, address: string -> Option<Address>, prefix: string -> Option<Prefix>)

  function ParseBool(v: string): Option<bool> {
    if v == "true" then Some(true) else if v == "false" then Some(false) else None
  }

  function Attribute(a: Option<Attr>): Command { if a.Some? then Set(a.value) else Fail(EINVAL) }

  function Map<A, B>(a: Option<A>, f: A -> B): Option<B> { if a.Some? then Some(f(a.value)) else None }

  function Interpret(env: Env, key: string, v: string): Command {
    match key
    case "remove" => Attribute(Map(ParseBool(v), (on: bool) => Remove(on)))
    case "preshared_key" => Attribute(Map(ParseKey(v, env.base64), (k: Key) => Preshared(k)))
    case "endpoint" => Attribute(Map(env.address(v), (a: Address) => Endpoint(a)))
    case "persistent_keepalive_interval" => Attribute(Map(ParseKeepalive(v), (r: Range) => Keepalive(r)))
    case "replace_allowed_ips" => Attribute(Map(ParseBool(v), (on: bool) => ReplaceIps(on)))
    case "allowed_ip" =>
      if v != "" && v[0] == '-' then Fail(EINVAL) else Attribute(Map(env.prefix(v), (p: Prefix) => AllowedIp(p)))
    case "public_key" => NewPeer(ParseKey(v, env.base64))
    case "protocol_version" => if ParseUnsigned(v, U32) == Some(1) then Set(Version) else Fail(EINVAL)
    case "update_only" => if v == "true" then Set(UpdateOnly) else Fail(EINVAL)
    case _ => Fail(EINVAL)
  }

  function Reader(env: Env): string -> Command {
    (line: string) =>
      match SplitOnce(line, '=')
      case None => Fail(EPROTO)
      case Some((key, v)) => Interpret(env, key, v)
  }

  /** How an attribute is written; addresses and prefixes are their own text here. */
  function NameOf(a: Attr): string {
    match a
    case Remove(_) => "remove"
    case UpdateOnly => "update_only"
    case ReplaceIps(_) => "replace_allowed_ips"
    case Endpoint(_) => "endpoint"
    case Keepalive(_) => "persistent_keepalive_interval"
    case Preshared(_) => "preshared_key"
    case AllowedIp(_) => "allowed_ip"
    case Version => "protocol_version"
  }

  function ValueOf(a: Attr): string {
    match a
    case Remove(on) => if on then "true" else "false"
    case UpdateOnly => "true"
    case ReplaceIps(on) => if on then "true" else "false"
    case Endpoint(addr) => addr
    case Keepalive(range) => RenderRange(range)
    case Preshared(key) => HexOf(key)
    case AllowedIp(prefix) => prefix
    case Version => "1"
  }

  /** Attributes a peer can hold, with addresses and prefixes the environment reads as themselves. */
  predicate Spellable(env: Env, a: Attr) {
    match a
    case Endpoint(addr) => env.address(addr) == Some(addr)
    case Keepalive(range) => range.lo <= range.hi < U16 && (range.lo == 0 ==> range.hi == 0)
    case Preshared(key) => |key| == 32
    case AllowedIp(prefix) => (prefix == "" || prefix[0] != '-') && env.prefix(prefix) == Some(prefix)
    case _ => true
  }

  lemma LongNames()
    ensures Lacks("persistent_keepalive_interval", '=')
    ensures Lacks("replace_allowed_ips", '=')
  {
  }

  lemma NameHasNoEquals(a: Attr)
    ensures Lacks(NameOf(a), '=')
  {
    if a.Keepalive? || a.ReplaceIps? {
      LongNames();
    }
  }

  lemma SwitchIsRead(env: Env, on: bool)
    ensures Interpret(env, "remove", if on then "true" else "false") == Set(Remove(on))
    ensures Interpret(env, "replace_allowed_ips", if on then "true" else "false") == Set(ReplaceIps(on))
  {
  }

  lemma ValueIsRead(env: Env, key: Key, range: Range)
    ensures |key| == 32 ==> Interpret(env, "preshared_key", HexOf(key)) == Set(Preshared(key))
    ensures range.lo <= range.hi < U16 && (range.lo == 0 ==> range.hi == 0) ==>
              Interpret(env, "persistent_keepalive_interval", RenderRange(range)) == Set(Keepalive(range))
  {
    if |key| == 32 {
      KeyRoundTrip(key, env.base64);
    }
    if range.lo <= range.hi < U16 {
      RangeRoundTrip(range);
    }
  }

  lemma VersionIsRead(env: Env)
    ensures Interpret(env, "protocol_version", "1") == Set(Version)
  {
    assert Decimal(1) == "1";
    NumberRoundTrip(1, U32);
  }

  lemma PlaceIsRead(env: Env, text: string)
    ensures env.address(text) == Some(text) ==> Interpret(env, "endpoint", text) == Set(Endpoint(text))
    ensures (text == "" || text[0] != '-') && env.prefix(text) == Some(text) ==>
              Interpret(env, "allowed_ip", text) == Set(AllowedIp(text))
    ensures Interpret(env, "update_only", "true") == Set(UpdateOnly)
  {
  }

  lemma AttributeIsRead(env: Env, a: Attr)
    requires Spellable(env, a)
    ensures Interpret(env, NameOf(a), ValueOf(a)) == Set(a)
  {
    match a
    case Remove(on) => SwitchIsRead(env, on);
    case ReplaceIps(on) => SwitchIsRead(env, on);
    case Keepalive(range) => ValueIsRead(env, [], range);
    case Preshared(key) => ValueIsRead(env, key, One(0));
    case Version => VersionIsRead(env);
    case Endpoint(addr) => PlaceIsRead(env, addr);
    case AllowedIp(prefix) => PlaceIsRead(env, prefix);
    case UpdateOnly => PlaceIsRead(env, "");
  }

  /** Every attribute is read back from the line that spells it, as that attribute and no other. */
  lemma AttributeRoundTrip(env: Env, a: Attr)
    requires Spellable(env, a)
    ensures Reader(env)(NameOf(a) + "=" + ValueOf(a)) == Set(a)
  {
    NameHasNoEquals(a);
    SplitFirst(NameOf(a), '=', ValueOf(a));
    AttributeIsRead(env, a);
  }

  // ----- applying sections -------------------------------------------------

  /** The peers a device has, and every update it has taken, in order. */
  datatype Store = Store(peers: set<Key>, log: seq<(Key, Section)>)

  /** Whether a peer the device does not have can be created, as it stands. */
  type Accepts = (Store, Key, Section) -> bool

  /** `commit_peer`; nothing when the update is refused, which only a creation can be. */
  function Commit(accepts: Accepts, s: Store, key: Key, sec: Section): Option<Store> {
    if sec.updateOnly && key !in s.peers then Some(s)
    else if !sec.remove && key !in s.peers && !accepts(s, key, sec) then None
    else Some(Store(if sec.remove then s.peers - {key} else s.peers + {key}, s.log + [(key, sec)]))
  }

  function With(sec: Section, a: Attr): Section {
    match a
    case Remove(on) => sec.(remove := on)
    case UpdateOnly => sec.(updateOnly := true)
    case ReplaceIps(on) => sec.(replaceIps := on)
    case Endpoint(addr) => sec.(endpoint := Some(addr))
    case Keepalive(range) => sec.(keepalive := Some(range))
    case Preshared(key) => sec.(preshared := Some(key))
    case AllowedIp(prefix) => sec.(allowed := sec.allowed + [prefix])
    case Version => sec
  }

  /** A line of the stream, or one that cannot be read as text. */
  datatype Item = Line(text: string) | Unreadable

  datatype Outcome = Outcome(store: Store, code: int)

  /** The end of the stream, or a blank line, closes the last section. */
  predicate AtEnd(items: seq<Item>) { items == [] || items[0] == Line("") }

  /** `api_set_peer` from a point inside a section. */
  function Stream(read: string -> Command, accepts: Accepts, s: Store, key: Key, sec: Section, items: seq<Item>): Outcome
    decreases |items|
  {
    if AtEnd(items) then
      match Commit(accepts, s, key, sec)
      case None => Outcome(s, EIO)
      case Some(t) => Outcome(t, 0)
    else if items[0].Unreadable? then Outcome(s, 0)
    else
      match read(items[0].text)
      case Fail(code) => Outcome(s, code)
      case Set(a) => Stream(read, accepts, s, key, With(sec, a), items[1..])
      case NewPeer(next) =>
        match Commit(accepts, s, key, sec)
        case None => Outcome(s, EIO)
        case Some(t) =>
          if next.None? then Outcome(t, EINVAL)
          else Stream(read, accepts, t, next.value, DEFAULT, items[1..])
  }

  // ----- the sections of a request -----------------------------------------

  /** How many lines set attributes before the section ends, in whatever way. */
  function BlockLength(read: string -> Command, items: seq<Item>): (n: nat)
    ensures n <= |items|
    ensures forall i :: 0 <= i < n ==> items[i].Line? && read(items[i].text).Set?
  {
    if !AtEnd(items) && items[0].Line? && read(items[0].text).Set? then 1 + BlockLength(read, items[1..]) else 0
  }

  function Attrs(read: string -> Command, items: seq<Item>, n: nat): seq<Attr>
    requires n <= |items| && forall i :: 0 <= i < n ==> items[i].Line? && read(items[i].text).Set?
  {
    seq(n, i requires 0 <= i < n => read(items[i].text).attr)
  }

  /** What the lines of one section say, each on its own: the last value given, every prefix in order. */
  function SectionOf(attrs: seq<Attr>): Section {
    Section(LastRemove(attrs), UpdateOnly in attrs, LastReplace(attrs), LastEndpoint(attrs), LastKeepalive(attrs),
            LastPreshared(attrs), Prefixes(attrs))
  }

  function LastRemove(l: seq<Attr>): bool {
    if l == [] then false else if l[|l| - 1].Remove? then l[|l| - 1].on else LastRemove(l[..|l| - 1])
  }

  function LastReplace(l: seq<Attr>): bool {
    if l == [] then false else if l[|l| - 1].ReplaceIps? then l[|l| - 1].on else LastReplace(l[..|l| - 1])
  }

  function LastEndpoint(l: seq<Attr>): Option<Address> {
    if l == [] then None else if l[|l| - 1].Endpoint? then Some(l[|l| - 1].addr) else LastEndpoint(l[..|l| - 1])
  }

  function LastKeepalive(l: seq<Attr>): Option<Range> {
    if l == [] then None else if l[|l| - 1].Keepalive? then Some(l[|l| - 1].range) else LastKeepalive(l[..|l| - 1])
  }

  function LastPreshared(l: seq<Attr>): Option<Key> {
    if l == [] then None else if l[|l| - 1].Preshared? then Some(l[|l| - 1].key) else LastPreshared(l[..|l| - 1])
  }

  function Prefixes(l: seq<Attr>): seq<Prefix> {
    if l == [] then []
    else Prefixes(l[..|l| - 1]) + if l[|l| - 1].AllowedIp? then [l[|l| - 1].prefix] else []
  }

  /** The sections a request closes, each with its key, and the status its text ends with. */
  datatype Reading = Reading(sections: seq<(Key, Section)>, code: int)

  function Read(read: string -> Command, key: Key, items: seq<Item>): Reading
    decreases |items|
  {
    var n := BlockLength(read, items);
    var section := (key, SectionOf(Attrs(read, items, n)));
    var rest := items[n..];
    if AtEnd(rest) then Reading([section], 0)
    else if rest[0].Unreadable? then Reading([], 0)
    else
      match read(rest[0].text)
      case Fail(code) => Reading([], code)
      case Set(_) => Reading([], 0) // not reached: a setting would belong to the block
      case NewPeer(next) =>
        if next.None? then Reading([section], EINVAL)
        else
          var later := Read(read, next.value, rest[1..]);
          Reading([section] + later.sections, later.code)
  }

  /** Committing sections in order, up to the first that is refused. */
  function CommitAll(accepts: Accepts, s: Store, sections: seq<(Key, Section)>, code: int): Outcome
    decreases |sections|
  {
    if sections == [] then Outcome(s, code)
    else
      match Commit(accepts, s, sections[0].0, sections[0].1)
      case None => Outcome(s, EIO)
      case Some(t) => CommitAll(accepts, t, sections[1..], code)
  }

  lemma WithLast(attrs: seq<Attr>, a: Attr)
    ensures With(SectionOf(attrs), a) == SectionOf(attrs + [a])
  {
    var l := attrs + [a];
    assert l[..|l| - 1] == attrs;
    assert a in l && forall x :: x in attrs ==> x in l;
  }

  lemma BlockEnds(read: string -> Command, items: seq<Item>)
    ensures var rest := items[BlockLength(read, items)..];
            AtEnd(rest) || rest[0].Unreadable? || !read(rest[0].text).Set?
  {
    var n := BlockLength(read, items);
    if n > 0 {
      BlockEnds(read, items[1..]);
      assert items[n..] == items[1..][n - 1..];
    }
  }

  lemma AttrsStep(read: string -> Command, items: seq<Item>, before: seq<Attr>)
    requires BlockLength(read, items) > 0
    ensures BlockLength(read, items[1..]) == BlockLength(read, items) - 1
    ensures before + [read(items[0].text).attr] + Attrs(read, items[1..], BlockLength(read, items) - 1)
            == before + Attrs(read, items, BlockLength(read, items))
  {
  }

  lemma StreamSets(read: string -> Command, accepts: Accepts, s: Store, key: Key, sec: Section, items: seq<Item>)
    requires BlockLength(read, items) > 0
    ensures Stream(read, accepts, s, key, sec, items) ==
            Stream(read, accepts, s, key, With(sec, read(items[0].text).attr), items[1..])
  {
  }

  /** Inside a block the stream only accumulates what the block's lines say. */
  lemma {:induction false} StreamThroughBlock(read: string -> Command, accepts: Accepts, s: Store, key: Key, before: seq<Attr>, items: seq<Item>)
    ensures var n := BlockLength(read, items);
            Stream(read, accepts, s, key, SectionOf(before), items) ==
            Stream(read, accepts, s, key, SectionOf(before + Attrs(read, items, n)), items[n..])
    decreases |items|
  {
    var n := BlockLength(read, items);
    if n == 0 {
      assert before + Attrs(read, items, n) == before && items[n..] == items;
    } else {
      var a := read(items[0].text).attr;
      WithLast(before, a);
      AttrsStep(read, items, before);
      StreamSets(read, accepts, s, key, SectionOf(before), items);
      StreamThroughBlock(read, accepts, s, key, before + [a], items[1..]);
      assert items[1..][n - 1..] == items[n..];
    }
  }

  lemma CommitAllTail(accepts: Accepts, s: Store, section: (Key, Section), later: seq<(Key, Section)>, code: int)
    ensures CommitAll(accepts, s, [section] + later, code) ==
            match Commit(accepts, s, section.0, section.1)
            case None => Outcome(s, EIO)
            case Some(t) => CommitAll(accepts, t, later, code)
  {
    assert ([section] + later)[1..] == later;
  }

  /**
   * Streaming is the same as reading the whole request first, each section from its own lines
   * alone, and then committing the sections that were closed, in order, until one is refused. A
   * section left open by an error, or by a line that is not text, is not committed.
   */
  lemma {:induction false} StreamingIsReading(read: string -> Command, accepts: Accepts, s: Store, key: Key, items: seq<Item>)
    ensures var r := Read(read, key, items);
            Stream(read, accepts, s, key, DEFAULT, items) == CommitAll(accepts, s, r.sections, r.code)
    decreases |items|
  {
    var n := BlockLength(read, items);
    var attrs := Attrs(read, items, n);
    var rest := items[n..];
    assert SectionOf([]) == DEFAULT;
    assert [] + attrs == attrs;
    StreamThroughBlock(read, accepts, s, key, [], items);
    BlockEnds(read, items);
    var section := (key, SectionOf(attrs));
    CommitAllTail(accepts, s, section, [], 0);
    assert [section] + [] == [section];
    if !AtEnd(rest) && rest[0].Line? && read(rest[0].text).NewPeer? {
      var next := read(rest[0].text).key;
      CommitAllTail(accepts, s, section, [], EINVAL);
      if next.Some? {
        var later := Read(read, next.value, rest[1..]);
        CommitAllTail(accepts, s, section, later.sections, later.code);
        var t := Commit(accepts, s, key, section.1);
        if t.Some? {
          StreamingIsReading(read, accepts, t.value, next.value, rest[1..]);
        }
      }
    }
  }

  // ----- what the device takes ---------------------------------------------

  predicate Ignored(s: Store, key: Key, sec: Section) { sec.updateOnly && key !in s.peers }

  /** The updates the sections amount to: all but those ignored, up to the first refused. */
  function Taken(accepts: Accepts, s: Store, sections: seq<(Key, Section)>): seq<(Key, Section)>
    decreases |sections|
  {
    if sections == [] then []
    else
      match Commit(accepts, s, sections[0].0, sections[0].1)
      case None => []
      case Some(t) =>
        (if Ignored(s, sections[0].0, sections[0].1) then [] else [sections[0]]) + Taken(accepts, t, sections[1..])
  }

  /** Each closed section is applied once, in the order of the request, and nothing else is. */
  lemma {:induction false} EachSectionOnce(accepts: Accepts, s: Store, sections: seq<(Key, Section)>, code: int)
    ensures CommitAll(accepts, s, sections, code).store.log == s.log + Taken(accepts, s, sections)
    decreases |sections|
  {
    if sections != [] {
      var t := Commit(accepts, s, sections[0].0, sections[0].1);
      if t.Some? {
        EachSectionOnce(accepts, t.value, sections[1..], code);
      }
    }
  }

  /** When every update is accepted and no section asks to update only, all of them are applied. */
  lemma {:induction false} AllSectionsTaken(accepts: Accepts, s: Store, sections: seq<(Key, Section)>, code: int)
    requires forall t: Store, k: Key, sec: Section :: accepts(t, k, sec)
    requires forall i :: 0 <= i < |sections| ==> !sections[i].1.updateOnly
    ensures CommitAll(accepts, s, sections, code).code == code && Taken(accepts, s, sections) == sections
    decreases |sections|
  {
    if sections != [] {
      var t := Commit(accepts, s, sections[0].0, sections[0].1).value;
      AllSectionsTaken(accepts, t, sections[1..], code);
    }
  }

  /**
   * A request refused midway was refused at a creation: the section of a peer the device did not
   * have and would not take, with every section before it applied and none after.
   */
  lemma {:induction false} RefusalIsACreation(accepts: Accepts, s: Store, sections: seq<(Key, Section)>, code: int) returns (i: nat)
    requires code != EIO && CommitAll(accepts, s, sections, code).code == EIO
    ensures i < |sections|
    ensures var before := CommitAll(accepts, s, sections[..i], 0);
            var (key, sec) := sections[i];
            && before.code == 0
            && key !in before.store.peers && !sec.remove && !sec.updateOnly && !accepts(before.store, key, sec)
            && CommitAll(accepts, s, sections, code).store == before.store
    decreases |sections|
  {
    var t := Commit(accepts, s, sections[0].0, sections[0].1);
    if t.None? {
      i := 0;
    } else {
      var j := RefusalIsACreation(accepts, t.value, sections[1..], code);
      i := j + 1;
      CommitAllTail(accepts, s, sections[0], sections[1..][..j], 0);
      assert sections[..i] == [sections[0]] + sections[1..][..j];
    }
  }

  /** The last of the sections for a key, if there is one. */
  function LastFor(sections: seq<(Key, Section)>, key: Key): Option<Section> {
    if sections == [] then None
    else if sections[|sections| - 1].0 == key then Some(sections[|sections| - 1].1)
    else LastFor(sections[..|sections| - 1], key)
  }

  lemma {:induction false} LastForFirst(first: (Key, Section), rest: seq<(Key, Section)>, key: Key)
    ensures LastFor([first] + rest, key) ==
            if LastFor(rest, key).Some? then LastFor(rest, key) else if first.0 == key then Some(first.1) else None
    decreases |rest|
  {
    var l := [first] + rest;
    if rest == [] {
      assert l[..|l| - 1] == [];
    } else {
      assert l[..|l| - 1] == [first] + rest[..|rest| - 1];
      LastForFirst(first, rest[..|rest| - 1], key);
    }
  }

  /**
   * After a request the device has a peer exactly when the last update it took for that key did
   * not remove it, or, when it took none, when it had the peer before.
   */
  lemma {:induction false} PeersFollowUpdates(accepts: Accepts, s: Store, sections: seq<(Key, Section)>, code: int, key: Key)
    ensures var last := LastFor(Taken(accepts, s, sections), key);
            key in CommitAll(accepts, s, sections, code).store.peers <==> if last.Some? then !last.value.remove else key in s.peers
    decreases |sections|
  {
    if sections != [] {
      var t := Commit(accepts, s, sections[0].0, sections[0].1);
      if t.Some? {
        PeersFollowUpdates(accepts, t.value, sections[1..], code, key);
        LastForFirst(sections[0], Taken(accepts, t.value, sections[1..]), key);
        assert [] + Taken(accepts, t.value, sections[1..]) == Taken(accepts, t.value, sections[1..]);
      }
    }
  }

  /** A peer that is gone does not come back through sections that only update. */
  lemma {:induction false} UpdateOnlyNeverCreates(accepts: Accepts, s: Store, sections: seq<(Key, Section)>, code: int, key: Key)
    requires key !in s.peers
    requires forall i :: 0 <= i < |sections| && sections[i].0 == key ==> sections[i].1.updateOnly
    ensures key !in CommitAll(accepts, s, sections, code).store.peers
    decreases |sections|
  {
    if sections != [] {
      var t := Commit(accepts, s, sections[0].0, sections[0].1);
      if t.Some? {
        UpdateOnlyNeverCreates(accepts, t.value, sections[1..], code, key);
      }
    }
  }

  // ----- the parser itself -------------------------------------------------

  class Device {
    var peers: set<Key>
    var log: seq<(Key, Section)>

    function View(): Store
      reads this
    {
      Store(peers, log)
    }

    constructor ()
      ensures View() == Store({}, [])
    {
      peers, log := {}, [];
    }

    method CommitPeer(accepts: Accepts, key: Key, sec: Section) returns (ok: bool)
      modifies this
      ensures ok == Commit(accepts, old(View()), key, sec).Some?
      ensures View() == if ok then Commit(accepts, old(View()), key, sec).value else old(View())
    {
      if sec.updateOnly && key !in peers {
        return true;
      }
      if !sec.remove && key !in peers && !accepts(View(), key, sec) {
        return false;
      }
      peers := if sec.remove then peers - {key} else peers + {key};
      log := log + [(key, sec)];
      return true;
    }

    method SetPeer(read: string -> Command, accepts: Accepts, publicKey: Key, items: seq<Item>) returns (code: int)
      modifies this
      ensures Outcome(View(), code) == Stream(read, accepts, old(View()), publicKey, DEFAULT, items)
      ensures var r := Read(read, publicKey, items);
              log == old(log) + Taken(accepts, old(View()), r.sections)
    {
      ghost var reading := Read(read, publicKey, items);
      StreamingIsReading(read, accepts, View(), publicKey, items);
      EachSectionOnce(accepts, View(), reading.sections, reading.code);
      var key, sec, i := publicKey, DEFAULT, 0;
      while i < |items| && items[i].Line?
        invariant i <= |items|
        invariant Stream(read, accepts, View(), key, sec, items[i..]) == Stream(read, accepts, old(View()), publicKey, DEFAULT, items)
      {
        var line := items[i].text;
        if line == "" {
          break;
        }
        assert items[i..][1..] == items[i + 1..];
        var command := read(line);
        if command.Fail? {
          return command.code;
        } else if command.Set? {
          sec := With(sec, command.attr);
        } else {
          var ok := CommitPeer(accepts, key, sec);
          if !ok {
            return EIO;
          }
          sec := DEFAULT;
          if command.key.None? {
            return EINVAL;
          }
          key := command.key.value;
        }
        i := i + 1;
      }
      if i < |items| && items[i].Unreadable? {
        return 0;
      }
      var ok := CommitPeer(accepts, key, sec);
      return if ok then 0 else EIO;
    }
  }
}
