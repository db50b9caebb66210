/**
 * Whole peer requests as text: sections written out line by line, closed by a blank line, are
 * read back as exactly those sections, and nothing after the blank line matters.
 */
module PeerRequests {
  import opened Prelude
  import opened UapiText
  import opened PeerSections

  function Spelled(a: Attr): string { NameOf(a) + "=" + ValueOf(a) }

  function KeyLine(key: Key): string { "public_key" + "=" + HexOf(key) }

  /** A peer as a request writes it: its key, and its attributes in the order they are given. */
  datatype Entry = Entry(key: Key, attrs: seq<Attr>)

  function AttrLines(attrs: seq<Attr>): seq<Item> {
    seq(|attrs|, i requires 0 <= i < |attrs| => Line(Spelled(attrs[i])))
  }

  /** What follows the key of the first entry, up to and including the blank line. */
  function Written(attrs: seq<Attr>, others: seq<Entry>): seq<Item>
    decreases |others|
  {
    AttrLines(attrs) + if others == [] then [Line("")] else [Line(KeyLine(others[0].key))] + Written(others[0].attrs, others[1..])
  }

  /** Each section on its own: the last value of every attribute, and all its prefixes. */
  function Meant(entries: seq<Entry>): seq<(Key, Section)> {
    seq(|entries|, i requires 0 <= i < |entries| => (entries[i].key, SectionOf(entries[i].attrs)))
  }

  /** The reader gives back what these lines spell. */
  predicate ReadsAttrs(read: string -> Command, attrs: seq<Attr>) {
    forall i :: 0 <= i < |attrs| ==> read(Spelled(attrs[i])) == Set(attrs[i])
  }

  predicate ReadsEntries(read: string -> Command, entries: seq<Entry>) {
    forall i :: 0 <= i < |entries| ==>
      read(KeyLine(entries[i].key)) == NewPeer(Some(entries[i].key)) && ReadsAttrs(read, entries[i].attrs)
  }

  predicate SpellableAll(env: Env, attrs: seq<Attr>) { forall i :: 0 <= i < |attrs| ==> Spellable(env, attrs[i]) }

  lemma KeyIsInterpreted(env: Env, v: string)
    ensures Interpret(env, "public_key", v) == NewPeer(ParseKey(v, env.base64))
  {
  }

  lemma NamedLine(env: Env, name: string, v: string)
    requires Lacks(name, '=')
    ensures Reader(env)(name + "=" + v) == Interpret(env, name, v)
  {
    SplitFirst(name, '=', v);
    assert "=" == ['='];
  }

  lemma KeyIsRead(env: Env, key: Key)
    requires |key| == 32
    ensures Reader(env)(KeyLine(key)) == NewPeer(Some(key))
  {
    KeyIsInterpreted(env, HexOf(key));
    NamedLine(env, "public_key", HexOf(key));
    KeyRoundTrip(key, env.base64);
  }

  lemma AttrsAreRead(env: Env, attrs: seq<Attr>)
    requires SpellableAll(env, attrs)
    ensures ReadsAttrs(Reader(env), attrs)
  {
    forall i | 0 <= i < |attrs| ensures Reader(env)(Spelled(attrs[i])) == Set(attrs[i]) {
      AttributeRoundTrip(env, attrs[i]);
    }
  }

  lemma {:induction false} BlockUpTo(read: string -> Command, items: seq<Item>, n: nat)
    requires n < |items|
    requires forall i :: 0 <= i < n ==> items[i].Line? && items[i].text != "" && read(items[i].text).Set?
    requires items[n].Line? && (items[n].text == "" || !read(items[n].text).Set?)
    ensures BlockLength(read, items) == n
    decreases n
  {
    if n > 0 {
      BlockUpTo(read, items[1..], n - 1);
    }
  }

  lemma SpelledIsNotBlank(a: Attr)
    ensures Spelled(a) != ""
  {
    assert |NameOf(a) + "=" + ValueOf(a)| == |NameOf(a)| + 1 + |ValueOf(a)|;
  }

  /** The attribute lines of a section are its block, whatever line ends it. */
  lemma BlockOf(read: string -> Command, attrs: seq<Attr>, tail: seq<Item>)
    requires ReadsAttrs(read, attrs)
    requires tail != [] && tail[0].Line? && (tail[0].text == "" || !read(tail[0].text).Set?)
    ensures var items := AttrLines(attrs) + tail;
            && BlockLength(read, items) == |attrs|
            && Attrs(read, items, |attrs|) == attrs
            && items[|attrs|..] == tail
  {
    var items := AttrLines(attrs) + tail;
    forall i | 0 <= i < |attrs| ensures items[i].Line? && items[i].text != "" && read(items[i].text) == Set(attrs[i]) {
      assert items[i] == Line(Spelled(attrs[i]));
      SpelledIsNotBlank(attrs[i]);
    }
    BlockUpTo(read, items, |attrs|);
  }

  /** One section, then whatever its last line leads to. */
  lemma ReadFirst(read: string -> Command, key: Key, items: seq<Item>, attrs: seq<Attr>, tail: seq<Item>)
    requires BlockLength(read, items) == |attrs| && Attrs(read, items, |attrs|) == attrs && items[|attrs|..] == tail
    requires tail != [] && tail[0].Line?
    requires tail[0].text == "" || (read(tail[0].text).NewPeer? && read(tail[0].text).key.Some?)
    ensures var section := (key, SectionOf(attrs));
            Read(read, key, items) ==
              if tail[0].text == "" then Reading([section], 0)
              else
                var later := Read(read, read(tail[0].text).key.value, tail[1..]);
                Reading([section] + later.sections, later.code)
  {
  }

  lemma MeantFirst(first: Entry, others: seq<Entry>)
    ensures Meant([first] + others) == [(first.key, SectionOf(first.attrs))] + Meant(others)
  {
  }

  lemma WrittenThen(attrs: seq<Attr>, others: seq<Entry>, after: seq<Item>)
    ensures Written(attrs, others) + after ==
              AttrLines(attrs) + if others == [] then [Line("")] + after
                                 else [Line(KeyLine(others[0].key))] + (Written(others[0].attrs, others[1..]) + after)
  {
  }

  lemma LastIsRead(read: string -> Command, key: Key, attrs: seq<Attr>, after: seq<Item>)
    requires ReadsAttrs(read, attrs)
    ensures Read(read, key, AttrLines(attrs) + ([Line("")] + after)) == Reading([(key, SectionOf(attrs))], 0)
  {
    var tail := [Line("")] + after;
    BlockOf(read, attrs, tail);
    ReadFirst(read, key, AttrLines(attrs) + tail, attrs, tail);
  }

  lemma NextIsRead(read: string -> Command, key: Key, attrs: seq<Attr>, line: string, next: Key, more: seq<Item>)
    requires ReadsAttrs(read, attrs) && line != "" && read(line) == NewPeer(Some(next))
    ensures var later := Read(read, next, more);
            Read(read, key, AttrLines(attrs) + ([Line(line)] + more)) ==
              Reading([(key, SectionOf(attrs))] + later.sections, later.code)
  {
    var tail := [Line(line)] + more;
    assert tail[1..] == more;
    BlockOf(read, attrs, tail);
    ReadFirst(read, key, AttrLines(attrs) + tail, attrs, tail);
  }

  lemma {:induction false} EntriesAreRead(read: string -> Command, first: Entry, others: seq<Entry>, after: seq<Item>)
    requires ReadsAttrs(read, first.attrs) && ReadsEntries(read, others)
    ensures Read(read, first.key, Written(first.attrs, others) + after) == Reading(Meant([first] + others), 0)
    decreases |others|
  {
    WrittenThen(first.attrs, others, after);
    MeantFirst(first, others);
    if others == [] {
      LastIsRead(read, first.key, first.attrs, after);
    } else {
      var next, more := others[0], Written(others[0].attrs, others[1..]) + after;
      KeyLineIsNotBlank(next.key);
      NextIsRead(read, first.key, first.attrs, KeyLine(next.key), next.key, more);
      EntriesAreRead(read, next, others[1..], after);
      assert [next] + others[1..] == others;
    }
  }

  lemma KeyLineIsNotBlank(key: Key)
    ensures KeyLine(key) != ""
  {
    assert |"public_key" + "=" + HexOf(key)| == 11 + |HexOf(key)|;
  }

  /**
   * A request that writes out any peers and closes with a blank line updates the device with
   * exactly those peers' sections in that order, whatever follows the blank line.
   */
  lemma RequestRoundTrip(env: Env, accepts: Accepts, s: Store, first: Entry, others: seq<Entry>, after: seq<Item>)
    requires SpellableAll(env, first.attrs)
    requires forall i :: 0 <= i < |others| ==> |others[i].key| == 32 && SpellableAll(env, others[i].attrs)
    ensures Stream(Reader(env), accepts, s, first.key, DEFAULT, Written(first.attrs, others) + after) ==
              CommitAll(accepts, s, Meant([first] + others), 0)
  {
    var read := Reader(env);
    AttrsAreRead(env, first.attrs);
    forall i | 0 <= i < |others|
      ensures read(KeyLine(others[i].key)) == NewPeer(Some(others[i].key)) && ReadsAttrs(read, others[i].attrs)
    {
      KeyIsRead(env, others[i].key);
      AttrsAreRead(env, others[i].attrs);
    }
    EntriesAreRead(read, first, others, after);
    StreamingIsReading(read, accepts, s, first.key, Written(first.attrs, others) + after);
  }
}
