/**
 * The interface part of a `set=1` transaction as text (`api_set`, boringtun/src/device/api.rs),
 * and the dump `write_awg_interface_params` produces for `get=1`. The keys that configure other
 * parts of the device are answered by an environment.
 */
module UapiSet {
  import opened Prelude
  import opened Decimals
  import opened AwgConfig
  import opened UapiText

  /** What a base64 key decodes to, and what the device answers to a key outside this model: an errno or nothing. */
  datatype Env = Env(base64: string -> Option<seq<Byte>>, device: (string, string) -> Option<int>)

  // ----- the keys ----------------------------------------------------------

  function SlotName(i: nat): string {
    match i
    case 0 => "jc" case 1 => "jmin" case 2 => "jmax"
    case 3 => "s1" case 4 => "s2" case 5 => "s3" case 6 => "s4"
    case 7 => "h1" case 8 => "h2" case 9 => "h3" case 10 => "h4"
    case 11 => "content_padding_addition"
    case 12 => "rekey_after_time"
    case 13 => "rekey_timeout"
    case 14 => "reject_after_time"
    case 15 => "keepalive_timeout"
    case 16 => "max_handshake_attempts"
    case _ => ""
  }

  datatype Key = SlotKey(i: nat) | ProtectionKey | TrailersKey | CookiesKey | PublicKey | Signature | DeviceKey | Unknown

  function KeyOf(s: string): Key {
    match s
    case "jc" => SlotKey(0) case "jmin" => SlotKey(1) case "jmax" => SlotKey(2)
    case "s1" => SlotKey(3) case "s2" => SlotKey(4) case "s3" => SlotKey(5) case "s4" => SlotKey(6)
    case "h1" => SlotKey(7) case "h2" => SlotKey(8) case "h3" => SlotKey(9) case "h4" => SlotKey(10)
    case "content_padding_addition" => SlotKey(11)
    case "rekey_after_time" => SlotKey(12)
    case "rekey_timeout" => SlotKey(13)
    case "reject_after_time" => SlotKey(14)
    case "keepalive_timeout" => SlotKey(15)
    case "max_handshake_attempts" => SlotKey(16)
    case "header_protection_key" => ProtectionKey
    case "random_trailers" => TrailersKey
    case "disable_cookies" => CookiesKey
    case "public_key" => PublicKey
    case "i1" => Signature case "i2" => Signature case "i3" => Signature case "i4" => Signature case "i5" => Signature
    case "private_key" => DeviceKey case "listen_port" => DeviceKey
    case "fwmark" => DeviceKey case "replace_peers" => DeviceKey
    case _ => Unknown
  }

  lemma KeyOfSize(i: nat)
    requires i < H1
    ensures KeyOf(SlotName(i)) == SlotKey(i)
  {
  }

  lemma KeyOfTag(i: nat)
    requires H1 <= i < PADDING
    ensures KeyOf(SlotName(i)) == SlotKey(i)
  {
  }

  lemma KeyOfRange(i: nat)
    requires PADDING <= i < SLOTS
    ensures KeyOf(SlotName(i)) == SlotKey(i)
  {
  }

  // ----- reading -----------------------------------------------------------

  /** `read_line`, then dropping the line's last character, the newline if there is one. */
  function LineEnd(text: string): (n: nat)
    ensures n <= |text|
  {
    if text == "" || text[0] == '\n' then 0 else LineEnd(text[1..]) + 1
  }

  function Line(text: string): string {
    var n := LineEnd(text);
    if n < |text| then text[..n] else if n == 0 then "" else text[..n - 1]
  }

  function Rest(text: string): string {
    var n := LineEnd(text);
    if n < |text| then text[n + 1..] else ""
  }

  function ParseSlot(i: nat, v: string): Option<Range> {
    if i < H1 then
      match ParseUnsigned(v, U16)
      case None => None
      case Some(n) => Some(One(n))
    else if i < PADDING then ParseTagRange(v)
    else ParseRange(v)
  }

  /** What a line asks: fail with an errno, nothing here, a peer section, or a setting to stage. */
  datatype Command = Fail(code: int) | Pass | Peers | Set(s: Setting)

  function Interpret(env: Env, k: Key, key: string, v: string): Command {
    match k
    case SlotKey(i) =>
      var r := ParseSlot(i, v);
      if r.Some? then Set(Slot(i, r.value)) else Fail(EINVAL)
    case ProtectionKey =>
      var k := ParseKey(v, env.base64);
      if k.Some? then Set(HeaderKey(k.value)) else Fail(EINVAL)
    case TrailersKey =>
      var b := ParseGoBool(v);
      if b.Some? then Set(Trailers(b.value)) else Fail(EINVAL)
    case CookiesKey =>
      var b := ParseGoBool(v);
      if b.Some? then Set(DisableCookies(b.value)) else Fail(EINVAL)
    case PublicKey => if ParseKey(v, env.base64).Some? then Peers else Fail(EINVAL)
    case Signature => Pass
    case DeviceKey =>
      var e := env.device(key, v);
      if e.Some? then Fail(e.value) else Pass
    case Unknown => Fail(EINVAL)
  }

  function ParseLine(env: Env, line: string): Command {
    match SplitOnce(line, '=')
    case None => Fail(EPROTO)
    case Some((key, v)) => Interpret(env, KeyOf(key), key, v)
  }

  /** The line reader of an environment. */
  function Reader(env: Env): string -> Command { (line: string) => ParseLine(env, line) }

  // ----- the transaction ---------------------------------------------------

  /** The device's settings afterwards and the errno; `PeerCode` stands for the peer sections' own. */
  datatype Status = Errno(code: int) | PeerCode

  datatype Outcome = Outcome(config: Config, status: Status)

  function Finish(c: Config, p: Params, mtu: nat, status: Status): Outcome
    requires |c.slots| == SLOTS && |p.slots| == SLOTS
  {
    match Applied(p, c, mtu)
    case Some(d) => Outcome(d, status)
    case None => Outcome(c, Errno(EINVAL))
  }

  function Transaction(read: string -> Command, c: Config, p: Params, text: string, mtu: nat): (o: Outcome)
    requires |c.slots| == SLOTS && |p.slots| == SLOTS
    ensures |o.config.slots| == SLOTS
    decreases |text|
  {
    if Line(text) == "" then Finish(c, p, mtu, Errno(0))
    else
      match read(Line(text))
      case Fail(code) => Outcome(c, Errno(code))
      case Pass => Transaction(read, c, p, Rest(text), mtu)
      case Peers => Finish(c, p, mtu, PeerCode)
      case Set(s) => Transaction(read, c, Stage(p, s), Rest(text), mtu)
  }

  // ----- parsing first, applying once --------------------------------------

  /** How a request's interface part ends: failing on a line, at its blank line, or at a peer. */
  datatype End = Failed(code: int) | Blank | AtPeers

  function SettingsOf(read: string -> Command, text: string): seq<Setting>
    decreases |text|
  {
    if Line(text) == "" then []
    else
      match read(Line(text))
      case Fail(_) => []
      case Pass => SettingsOf(read, Rest(text))
      case Peers => []
      case Set(s) => [s] + SettingsOf(read, Rest(text))
  }

  function EndOf(read: string -> Command, text: string): End
    decreases |text|
  {
    if Line(text) == "" then Blank
    else
      match read(Line(text))
      case Fail(code) => Failed(code)
      case Pass => EndOf(read, Rest(text))
      case Peers => AtPeers
      case Set(_) => EndOf(read, Rest(text))
  }

  /**
   * A transaction is its settings applied together at its end, or not at all: a line that fails
   * anywhere leaves the device's settings as they were, whatever was staged before it.
   */
  lemma {:induction false} TransactionIsAllOrNothing(read: string -> Command, c: Config, p: Params, text: string, mtu: nat)
    requires |c.slots| == SLOTS && |p.slots| == SLOTS
    ensures var staged := StageAll(p, SettingsOf(read, text));
            && |staged.slots| == SLOTS
            && Transaction(read, c, p, text, mtu) ==
               match EndOf(read, text)
               case Failed(code) => Outcome(c, Errno(code))
               case Blank => Finish(c, staged, mtu, Errno(0))
               case AtPeers => Finish(c, staged, mtu, PeerCode)
    decreases |text|
  {
    if Line(text) != "" {
      match read(Line(text))
      case Fail(code) =>
      case Pass => TransactionIsAllOrNothing(read, c, p, Rest(text), mtu);
      case Peers =>
      case Set(s) =>
        TransactionIsAllOrNothing(read, c, Stage(p, s), Rest(text), mtu);
        assert ([s] + SettingsOf(read, Rest(text)))[1..] == SettingsOf(read, Rest(text));
    }
  }

  // ----- the lines outside the AmneziaWG settings --------------------------

  lemma NamedLine(env: Env, name: string, v: string)
    requires Lacks(name, '=')
    ensures ParseLine(env, name + "=" + v) == Interpret(env, KeyOf(name), name, v)
  {
    SplitFirst(name, '=', v);
    assert "=" == ['='];
  }

  /** A peer section starts at a readable public key, and at nothing else. */
  lemma PublicKeyLine(env: Env, v: string)
    ensures ParseLine(env, "public_key" + "=" + v) == if ParseKey(v, env.base64).Some? then Peers else Fail(EINVAL)
  {
    assert KeyOf("public_key") == PublicKey;
    NamedLine(env, "public_key", v);
  }

  /** The five signature packets are accepted and left alone, whatever their value. */
  lemma SignatureLine(env: Env, name: string, v: string)
    requires name == "i1" || name == "i2" || name == "i3" || name == "i4" || name == "i5"
    ensures ParseLine(env, name + "=" + v) == Pass
  {
    assert KeyOf(name) == Signature;
    NamedLine(env, name, v);
  }

  /** The device's own keys are its to answer: its errno ends the request, and silence continues it. */
  lemma DeviceLine(env: Env, name: string, v: string)
    requires name == "private_key" || name == "listen_port" || name == "fwmark" || name == "replace_peers"
    ensures ParseLine(env, name + "=" + v) == match env.device(name, v) case None => Pass case Some(e) => Fail(e)
  {
    assert KeyOf(name) == DeviceKey;
    NamedLine(env, name, v);
  }

  /** The names `api_set` knows. */
  predicate KnownName(name: string) {
    || name in {"jc", "jmin", "jmax", "s1", "s2", "s3", "s4", "h1", "h2", "h3", "h4"}
    || name in {"content_padding_addition", "rekey_after_time", "rekey_timeout", "reject_after_time", "keepalive_timeout"}
    || name in {"max_handshake_attempts", "header_protection_key", "random_trailers", "disable_cookies", "public_key"}
    || name in {"i1", "i2", "i3", "i4", "i5", "private_key", "listen_port", "fwmark", "replace_peers"}
  }

  lemma UnknownName(name: string)
    requires !KnownName(name)
    ensures KeyOf(name) == Unknown
  {
  }

  /** Any other name fails the request. */
  lemma UnknownLine(env: Env, name: string, v: string)
    requires Lacks(name, '=') && !KnownName(name)
    ensures ParseLine(env, name + "=" + v) == Fail(EINVAL)
  {
    UnknownName(name);
    NamedLine(env, name, v);
  }

  /** A line without a value is a protocol error. */
  lemma BareLine(env: Env, line: string)
    requires Lacks(line, '=')
    ensures ParseLine(env, line) == Fail(EPROTO)
  {
    SplitNone(line, '=');
  }

  /** Every setting a reader stages is one its slot can hold. */
  ghost predicate Sound(read: string -> Command) {
    forall line: string :: read(line).Set? ==> GoodSetting(read(line).s)
  }

  lemma InterpretedIsGood(env: Env, k: Key, key: string, v: string)
    requires k.SlotKey? ==> k.i < SLOTS
    ensures Interpret(env, k, key, v).Set? ==> GoodSetting(Interpret(env, k, key, v).s)
  {
  }

  lemma KeyIsASlot(s: string)
    ensures KeyOf(s).SlotKey? ==> KeyOf(s).i < SLOTS
  {
  }

  lemma ReaderIsSound(env: Env)
    ensures Sound(Reader(env))
  {
    forall line: string ensures Reader(env)(line).Set? ==> GoodSetting(Reader(env)(line).s) {
      var parts := SplitOnce(line, '=');
      if parts.Some? {
        KeyIsASlot(parts.value.0);
        InterpretedIsGood(env, KeyOf(parts.value.0), parts.value.0, parts.value.1);
      }
    }
  }

  lemma {:induction false} TransactionKeepsGood(read: string -> Command, c: Config, p: Params, text: string, mtu: nat)
    requires Good(c) && GoodParams(p) && Sound(read)
    ensures Good(Transaction(read, c, p, text, mtu).config)
    decreases |text|
  {
    if Line(text) == "" {
      MergeKeepsGood(p, c, Min(mtu, U16 - 1));
    } else {
      match read(Line(text))
      case Fail(code) =>
      case Pass => TransactionKeepsGood(read, c, p, Rest(text), mtu);
      case Peers => MergeKeepsGood(p, c, Min(mtu, U16 - 1));
      case Set(s) =>
        StageOneKeepsGood(p, s);
        TransactionKeepsGood(read, c, Stage(p, s), Rest(text), mtu);
    }
  }

  lemma StageOneKeepsGood(p: Params, s: Setting)
    requires GoodParams(p) && GoodSetting(s)
    ensures GoodParams(Stage(p, s))
  {
  }

  // ----- writing -----------------------------------------------------------

  function Render(s: Setting): string {
    match s
    case Slot(i, r) => SlotName(i) + "=" + RenderRange(r)
    case HeaderKey(key) => "header_protection_key" + "=" + HexOf(key)
    case Trailers(on) => "random_trailers" + "=" + (if on then "1" else "0")
    case DisableCookies(on) => "disable_cookies" + "=" + (if on then "1" else "0")
  }

  function Lines(l: seq<Setting>): seq<string> { seq(|l|, i requires 0 <= i < |l| => Render(l[i])) }

  function Text(lines: seq<string>): string
    decreases |lines|
  {
    if lines == [] then "" else lines[0] + "\n" + Text(lines[1..])
  }

  /** What `get=1` prints of the interface's AmneziaWG settings. */
  function Dump(c: Config): string
    requires |c.slots| == SLOTS
  {
    Text(Lines(Emit(c)))
  }

  predicate Word(s: string) { forall i :: 0 <= i < |s| ==> s[i] != '=' && s[i] != '\n' }

  lemma ShortNameIsWord(i: nat)
    requires i < PADDING
    ensures Word(SlotName(i))
  {
  }

  lemma PaddingIsWord()
    ensures Word(SlotName(11)) && Word(SlotName(16))
  {
  }

  lemma RekeyIsWord()
    ensures Word(SlotName(12)) && Word(SlotName(13))
  {
  }

  lemma TimeoutIsWord()
    ensures Word(SlotName(14)) && Word(SlotName(15))
  {
  }

  lemma SlotNameIsWord(i: nat)
    requires i < SLOTS
    ensures Word(SlotName(i)) && KeyOf(SlotName(i)) == SlotKey(i)
  {
    if i < H1 {
      ShortNameIsWord(i);
      KeyOfSize(i);
    } else if i < PADDING {
      ShortNameIsWord(i);
      KeyOfTag(i);
    } else {
      KeyOfRange(i);
      if i == 11 || i == 16 {
        PaddingIsWord();
      } else if i == 12 || i == 13 {
        RekeyIsWord();
      } else {
        TimeoutIsWord();
      }
    }
  }

  lemma ValueParses(i: nat, r: Range)
    requires i < SLOTS && Fits(i, r)
    ensures ParseSlot(i, RenderRange(r)) == Some(r)
  {
    if i < H1 {
      NumberRoundTrip(r.lo, U16);
    } else {
      RangeRoundTrip(r);
    }
  }

  lemma RangeIsWord(r: Range)
    ensures Word(RenderRange(r))
  {
    DecimalRoundTrip(r.lo);
    DecimalRoundTrip(r.hi);
  }

  lemma SplitWord(name: string, v: string)
    requires Word(name) && Word(v)
    ensures SplitOnce(name + "=" + v, '=') == Some((name, v)) && Lacks(name + "=" + v, '\n') && name + "=" + v != ""
  {
    SplitFirst(name, '=', v);
  }

  /** The line `name=value` is interpreted by the name's key and the value. */
  lemma LineParses(env: Env, name: string, v: string)
    requires Word(name) && Word(v)
    ensures ParseLine(env, name + "=" + v) == Interpret(env, KeyOf(name), name, v)
    ensures Lacks(name + "=" + v, '\n') && name + "=" + v != ""
  {
    SplitWord(name, v);
  }

  lemma OtherNames()
    ensures Word("header_protection_key") && KeyOf("header_protection_key") == ProtectionKey
    ensures Word("random_trailers") && KeyOf("random_trailers") == TrailersKey
    ensures Word("disable_cookies") && KeyOf("disable_cookies") == CookiesKey
  {
  }

  lemma SlotRoundTrip(env: Env, i: nat, r: Range, name: string)
    requires i < SLOTS && Fits(i, r)
    ensures Interpret(env, SlotKey(i), name, RenderRange(r)) == Set(Slot(i, r))
  {
    ValueParses(i, r);
  }

  /** Every setting is read back from the line that prints it. */
  lemma SettingRoundTrip(env: Env, s: Setting)
    requires GoodSetting(s)
    ensures Reader(env)(Render(s)) == Set(s) && Lacks(Render(s), '\n') && Render(s) != ""
  {
    match s
    case Slot(i, r) =>
      SlotNameIsWord(i);
      RangeIsWord(r);
      LineParses(env, SlotName(i), RenderRange(r));
      SlotRoundTrip(env, i, r, SlotName(i));
    case HeaderKey(key) =>
      OtherNames();
      HexShape(key);
      KeyRoundTrip(key, env.base64);
      LineParses(env, "header_protection_key", HexOf(key));
    case Trailers(on) =>
      OtherNames();
      LineParses(env, "random_trailers", if on then "1" else "0");
    case DisableCookies(on) =>
      OtherNames();
      LineParses(env, "disable_cookies", if on then "1" else "0");
  }

  lemma {:induction false} LineEndAt(line: string, rest: string)
    requires Lacks(line, '\n')
    ensures LineEnd(line + "\n" + rest) == |line|
  {
    var t := line + "\n" + rest;
    if line != "" {
      assert t[1..] == line[1..] + "\n" + rest;
      LineEndAt(line[1..], rest);
    }
  }

  lemma FirstLineOf(line: string, rest: string)
    requires Lacks(line, '\n')
    ensures Line(line + "\n" + rest) == line && Rest(line + "\n" + rest) == rest
  {
    LineEndAt(line, rest);
  }

  lemma {:induction false} NoLineEnd(text: string)
    requires Lacks(text, '\n')
    ensures LineEnd(text) == |text|
  {
    if text != "" {
      NoLineEnd(text[1..]);
    }
  }

  /** A last line without a newline loses its last character instead, and ends the request. */
  lemma UnfinishedLine(text: string)
    requires text != "" && Lacks(text, '\n')
    ensures Line(text) == text[..|text| - 1] && Rest(text) == ""
  {
    NoLineEnd(text);
  }

  lemma TextThen(lines: seq<string>, more: string)
    requires lines != []
    ensures Text(lines) + more == lines[0] + "\n" + (Text(lines[1..]) + more)
  {
  }

  /** Reading a dump stages its settings in order, up to the blank line. */
  lemma {:induction false} DumpIsRead(env: Env, c: Config, p: Params, l: seq<Setting>, mtu: nat)
    requires |c.slots| == SLOTS && |p.slots| == SLOTS && AllGood(l)
    ensures |StageAll(p, l).slots| == SLOTS
    ensures Transaction(Reader(env), c, p, Text(Lines(l)) + "\n", mtu) == Finish(c, StageAll(p, l), mtu, Errno(0))
    decreases |l|
  {
    var read := Reader(env);
    if l == [] {
      assert Text(Lines(l)) + "\n" == "" + "\n" + "";
      FirstLineOf("", "");
    } else {
      var first, rest := Render(l[0]), Text(Lines(l[1..])) + "\n";
      assert GoodSetting(l[0]);
      SettingRoundTrip(env, l[0]);
      assert Lines(l)[1..] == Lines(l[1..]);
      TextThen(Lines(l), "\n");
      FirstLineOf(first, rest);
      DumpIsRead(env, c, Stage(p, l[0]), l[1..], mtu);
      TransactionSets(read, c, p, first + "\n" + rest, mtu, l[0]);
    }
  }

  lemma TransactionSets(read: string -> Command, c: Config, p: Params, text: string, mtu: nat, s: Setting)
    requires |c.slots| == SLOTS && |p.slots| == SLOTS
    requires Line(text) != "" && read(Line(text)) == Set(s)
    ensures Transaction(read, c, p, text, mtu) == Transaction(read, c, Stage(p, s), Rest(text), mtu)
    ensures |Rest(text)| < |text|
  {
  }

  lemma TransactionPasses(read: string -> Command, c: Config, p: Params, text: string, mtu: nat)
    requires |c.slots| == SLOTS && |p.slots| == SLOTS
    requires Line(text) != "" && read(Line(text)) == Pass
    ensures Transaction(read, c, p, text, mtu) == Transaction(read, c, p, Rest(text), mtu)
    ensures |Rest(text)| < |text|
  {
  }

  lemma TransactionEnds(read: string -> Command, c: Config, p: Params, text: string, mtu: nat)
    requires |c.slots| == SLOTS && |p.slots| == SLOTS
    requires Line(text) == "" || read(Line(text)).Fail? || read(Line(text)).Peers?
    ensures Transaction(read, c, p, text, mtu) ==
            if Line(text) == "" then Finish(c, p, mtu, Errno(0))
            else if read(Line(text)).Peers? then Finish(c, p, mtu, PeerCode)
            else Outcome(c, Errno(read(Line(text)).code))
  {
  }

  // ----- any history -------------------------------------------------------

  /** A `set=1` with any text, in any environment, or the monitor noticing a new MTU. */
  datatype Event = SetRequest(env: Env, text: string, mtu: nat) | MtuChange(mtu: nat)

  function After(c: Config, events: seq<Event>): Config
    requires |c.slots| == SLOTS
    decreases |events|
  {
    if events == [] then c
    else
      match events[0]
      case SetRequest(env, text, mtu) =>
        After(Transaction(Reader(env), c, Nothing(), text, mtu).config, events[1..])
      case MtuChange(mtu) => After(c.(mtu := Min(mtu, U16 - 1)), events[1..])
  }

  lemma {:induction false} HistoryIsGood(c: Config, events: seq<Event>)
    requires Good(c)
    ensures Good(After(c, events)) && After(c, events).startup == c.startup
    decreases |events|
  {
    if events != [] {
      match events[0]
      case SetRequest(env, text, mtu) =>
        ReaderIsSound(env);
        TransactionKeepsGood(Reader(env), c, Nothing(), text, mtu);
        TransactionKeepsStartup(Reader(env), c, Nothing(), text, mtu);
        HistoryIsGood(Transaction(Reader(env), c, Nothing(), text, mtu).config, events[1..]);
      case MtuChange(mtu) => HistoryIsGood(c.(mtu := Min(mtu, U16 - 1)), events[1..]);
    }
  }

  /** Imitation and the junk delay have no key: no transaction changes them. */
  lemma {:induction false} TransactionKeepsStartup(read: string -> Command, c: Config, p: Params, text: string, mtu: nat)
    requires |c.slots| == SLOTS && |p.slots| == SLOTS && c.startup.delay <= MAX_JUNK_DELAY
    ensures Transaction(read, c, p, text, mtu).config.startup == c.startup
    decreases |text|
  {
    if Line(text) != "" {
      match read(Line(text))
      case Fail(code) =>
      case Pass => TransactionKeepsStartup(read, c, p, Rest(text), mtu);
      case Peers =>
      case Set(s) => TransactionKeepsStartup(read, c, Stage(p, s), Rest(text), mtu);
    }
  }

  /**
   * Whatever was requested of a device since it started plain, the text it dumps, given to a
   * freshly started one, is accepted and gives that device the same settings, up to the MTU.
   */
  lemma DumpRestoresDevice(startup: Startup, mtu0: nat, events: seq<Event>, env: Env, mtu1: nat, mtu: nat)
    requires startup.delay <= MAX_JUNK_DELAY
    ensures var c := After(Vanilla(startup, mtu0), events);
            && |c.slots| == SLOTS
            && var o := Transaction(Reader(env), Vanilla(startup, mtu1), Nothing(), Dump(c) + "\n", mtu);
               o.status == Errno(0) && SameSettings(o.config, c)
  {
    VanillaIsGood(startup, mtu0);
    HistoryIsGood(Vanilla(startup, mtu0), events);
    var c := After(Vanilla(startup, mtu0), events);
    EmissionIsGood(c);
    DumpIsRead(env, Vanilla(startup, mtu1), Nothing(), Emit(c), mtu);
    ReapplyingRestores(c, mtu, mtu1);
  }

  // ----- the loops ---------------------------------------------------------

  lemma {:induction false} TextConcat(a: seq<string>, b: seq<string>)
    ensures Text(a + b) == Text(a) + Text(b)
    decreases |a|
  {
    if a == [] {
      assert a + b == b;
    } else {
      TextConcat(a[1..], b);
      assert (a + b)[1..] == a[1..] + b;
    }
  }

  lemma LinesConcat(a: seq<Setting>, b: seq<Setting>)
    ensures Lines(a + b) == Lines(a) + Lines(b)
  {
    forall i | 0 <= i < |a + b| ensures Lines(a + b)[i] == (Lines(a) + Lines(b))[i] {
      assert (a + b)[i] == if i < |a| then a[i] else b[i - |a|];
    }
  }

  lemma DumpConcat(a: seq<Setting>, b: seq<Setting>)
    ensures Text(Lines(a + b)) == Text(Lines(a)) + Text(Lines(b))
  {
    LinesConcat(a, b);
    TextConcat(Lines(a), Lines(b));
  }

  lemma OneLine(s: Setting)
    ensures Text(Lines([s])) == Render(s) + "\n"
  {
    assert Lines([s])[1..] == [];
  }

  lemma {:induction false} EmitSplit(v: seq<Range>, i: nat, j: nat, k: nat)
    requires i <= j <= k <= |v|
    ensures EmitSlots(v, i, k) == EmitSlots(v, i, j) + EmitSlots(v, j, k)
    decreases j - i
  {
    if i < j {
      EmitSplit(v, i + 1, j, k);
    }
  }

  method WriteSlots(v: seq<Range>, from: nat, to: nat) returns (out: string)
    requires from <= to <= |v|
    ensures out == Text(Lines(EmitSlots(v, from, to)))
  {
    out := "";
    var i := from;
    while i < to
      invariant from <= i <= to
      invariant out == Text(Lines(EmitSlots(v, from, i)))
    {
      EmitSplit(v, from, i, i + 1);
      DumpConcat(EmitSlots(v, from, i), EmitSlots(v, i, i + 1));
      assert EmitSlots(v, i + 1, i + 1) == [];
      if v[i] != Plain(i) {
        var value := if v[i].lo == v[i].hi then Decimal(v[i].lo) else Decimal(v[i].lo) + "-" + Decimal(v[i].hi);
        OneLine(Slot(i, v[i]));
        out := out + (SlotName(i) + "=" + value + "\n");
      }
      i := i + 1;
    }
  }

  lemma KeyText(c: Config)
    ensures Text(Lines(KeySettings(c))) == if c.key == ZeroKey() then "" else "header_protection_key" + "=" + HexOf(c.key) + "\n"
  {
    if c.key != ZeroKey() {
      OneLine(HeaderKey(c.key));
    }
  }

  lemma SwitchText(c: Config)
    ensures Text(Lines(SwitchSettings(c))) ==
            (if c.trailers then "random_trailers" + "=" + "1" + "\n" else "") +
            if c.cookies then "disable_cookies" + "=" + "1" + "\n" else ""
  {
    OneLine(Trailers(true));
    OneLine(DisableCookies(true));
    DumpConcat(if c.trailers then [Trailers(true)] else [], if c.cookies then [DisableCookies(true)] else []);
  }

  lemma DumpParts(a: seq<Setting>, b: seq<Setting>, c: seq<Setting>, d: seq<Setting>)
    ensures Text(Lines(a + b + c + d)) == Text(Lines(a)) + Text(Lines(b)) + Text(Lines(c)) + Text(Lines(d))
  {
    DumpConcat(a, b);
    DumpConcat(a + b, c);
    DumpConcat(a + b + c, d);
  }

  /** `write_awg_interface_params`. */
  method WriteInterfaceParams(c: Config) returns (out: string)
    requires |c.slots| == SLOTS
    ensures out == Dump(c)
  {
    KeyText(c);
    SwitchText(c);
    DumpParts(EmitSlots(c.slots, 0, H1), KeySettings(c), EmitSlots(c.slots, H1, SLOTS), SwitchSettings(c));
    out := WriteSlots(c.slots, 0, H1);
    var key := "";
    if c.key != ZeroKey() {
      key := "header_protection_key" + "=" + HexOf(c.key) + "\n";
    }
    var ranges := WriteSlots(c.slots, H1, SLOTS);
    var switches := if c.trailers then "random_trailers" + "=" + "1" + "\n" else "";
    switches := switches + if c.cookies then "disable_cookies" + "=" + "1" + "\n" else "";
    out := out + key + ranges + switches;
  }

  /** The device as a transaction sees it. */
  class Device {
    var config: Config

    constructor (startup: Startup, mtu: nat)
      ensures config == Vanilla(startup, mtu)
    {
      config := Vanilla(startup, mtu);
    }

    /** `api_set`: lines are staged until the blank line or the first peer, and applied there. */
    method Set(env: Env, text: string, mtu: nat) returns (status: Status)
      requires |config.slots| == SLOTS
      modifies this
      ensures Outcome(config, status) == Transaction(Reader(env), old(config), Nothing(), text, mtu)
    {
      var read := Reader(env);
      var staged := Nothing();
      var rest := text;
      while true
        invariant config == old(config) && |staged.slots| == SLOTS
        invariant Transaction(read, config, staged, rest, mtu) == Transaction(read, old(config), Nothing(), text, mtu)
        decreases |rest|
      {
        var line := Line(rest);
        if line == "" {
          TransactionEnds(read, config, staged, rest, mtu);
          status := Apply(staged, mtu, Errno(0));
          return;
        }
        var command := read(line);
        match command {
          case Fail(code) =>
            TransactionEnds(read, config, staged, rest, mtu);
            return Errno(code);
          case Pass => TransactionPasses(read, config, staged, rest, mtu);
          case Peers =>
            TransactionEnds(read, config, staged, rest, mtu);
            status := Apply(staged, mtu, PeerCode);
            return;
          case Set(s) =>
            TransactionSets(read, config, staged, rest, mtu, s);
            staged := Stage(staged, s);
        }
        rest := Rest(rest);
      }
    }

    /** `AwgParams::apply`: all of what was staged, or none of it. */
    method Apply(staged: Params, mtu: nat, success: Status) returns (status: Status)
      requires |config.slots| == SLOTS && |staged.slots| == SLOTS
      modifies this
      ensures Outcome(config, status) == Finish(old(config), staged, mtu, success)
    {
      if !staged.seen {
        return success;
      }
      var merged := Merged(staged, config, Min(mtu, U16 - 1));
      if merged.None? {
        return Errno(EINVAL);
      }
      config := merged.value;
      return success;
    }
  }
}
