/** The loops of the generated codec over the library's Writer and Reader, proved to compute what
    module UserEvent says about messages and bytes. */
module UserEventCodec {
  import opened Common
  import opened Wire
  import opened UserEvent

  // --------------------------------------------------------------------- writer

  /** The library's writer: `cur` is what was written since the last fork, `states` what each open
      fork has set aside. */
  class Writer {
    var states: seq<seq<byte>>
    var cur: seq<byte>

    constructor ()
      ensures states == [] && cur == []
    {
      states, cur := [], [];
    }

    method Uint32(n: nat)
      modifies this`cur
      ensures cur == old(cur) + Varint(n)
    {
      cur := cur + Varint(n);
    }

    method Int32Value(i: Int32)
      modifies this`cur
      ensures cur == old(cur) + Varint(Unsigned64(i))
    {
      cur := cur + Varint(Unsigned64(i));
    }

    method String(t: Text)
      modifies this`cur
      ensures cur == old(cur) + WriteText(t)
    {
      cur := cur + WriteText(t);
    }

    method RawBytes(raw: seq<byte>)
      modifies this`cur
      ensures cur == old(cur) + raw
    {
      cur := cur + raw;
    }

    method Fork()
      modifies this
      ensures states == old(states) + [old(cur)] && cur == []
    {
      states, cur := states + [cur], [];
    }

    /** Back to before the last fork, or to nothing if there is none. */
    method Reset()
      modifies this
      ensures if old(states) == [] then states == [] && cur == []
              else states == old(states)[..|old(states)| - 1] && cur == old(states)[|old(states)| - 1]
    {
      if states == [] {
        cur := [];
      } else {
        cur := states[|states| - 1];
        states := states[..|states| - 1];
      }
    }

    /** Ends the last fork: its length, then what was written in it. */
    method Ldelim()
      modifies this
      ensures if old(states) == [] then states == [] && cur == Varint(|old(cur)|) + old(cur)
              else states == old(states)[..|old(states)| - 1]
                   && cur == old(states)[|old(states)| - 1] + Varint(|old(cur)|) + old(cur)
    {
      var body := cur;
      Reset();
      Uint32(|body|);
      if |body| > 0 {
        cur := cur + body;
      }
    }
  }

  // --------------------------------------------------------------------- encode

  lemma {:induction false} WriteEntriesConcat(a: seq<Entry>, b: seq<Entry>)
    ensures WriteEntries(a + b) == WriteEntries(a) + WriteEntries(b)
    decreases a
  {
    hide WriteEntry;
    if a == [] {
      assert a + b == b;
    } else {
      assert (a + b)[1..] == a[1..] + b;
      WriteEntriesConcat(a[1..], b);
      Associative(WriteEntry(a[0]), WriteEntries(a[1..]), WriteEntries(b));
    }
  }

  lemma WriteNone()
    ensures WriteEntries([]) == []
  {
  }

  lemma WriteOne(e: Entry)
    ensures WriteEntries([e]) == WriteEntry(e)
  {
    assert [e][1..] == [];
  }

  lemma WriteMore(a: seq<Entry>, e: Entry)
    ensures WriteEntries(a + [e]) == WriteEntries(a) + WriteEntry(e)
  {
    WriteEntriesConcat(a, [e]);
    WriteOne(e);
  }

  /** One more record behind a prefix. */
  lemma AppendEntry(prefix: seq<byte>, done: seq<Entry>, e: Entry)
    ensures (prefix + WriteEntries(done)) + WriteEntry(e) == prefix + WriteEntries(done + [e])
  {
    WriteMore(done, e);
    Associative(prefix, WriteEntries(done), WriteEntry(e));
  }

  /** A tag byte and a string. */
  method WriteTextField(writer: Writer, e: Entry)
    requires e.Id? || e.Name? || e.TagEntry?
    modifies writer`cur
    ensures writer.cur == old(writer.cur) + WriteEntry(e)
  {
    var tag: byte := if e.Id? then 10 else if e.Name? then 18 else 34;
    writer.Uint32(tag);
    writer.String(e.text);
    Associative(old(writer.cur), [tag], WriteText(e.text));
  }

  method WriteAgeField(writer: Writer, age: Int32)
    modifies writer`cur
    ensures writer.cur == old(writer.cur) + WriteEntry(Age(age))
  {
    writer.Uint32(24);
    writer.Int32Value(age);
    Associative(old(writer.cur), [24], Varint(Unsigned64(age)));
  }

  method EncodeTags(tags: seq<Text>, writer: Writer)
    modifies writer`cur
    ensures writer.cur == old(writer.cur) + WriteEntries(Tags(tags))
  {
    hide WriteEntries, WriteEntry;
    WriteNone();
    assert Tags(tags[..0]) == [];
    for i := 0 to |tags|
      invariant writer.cur == old(writer.cur) + WriteEntries(Tags(tags[..i]))
    {
      AppendEntry(old(writer.cur), Tags(tags[..i]), TagEntry(tags[i]));
      assert Tags(tags[..i + 1]) == Tags(tags[..i]) + [TagEntry(tags[i])];
      WriteTextField(writer, TagEntry(tags[i]));
    }
    assert tags[..|tags|] == tags;
  }

  method EncodeUnknowns(raws: seq<seq<byte>>, writer: Writer)
    modifies writer`cur
    ensures writer.cur == old(writer.cur) + WriteEntries(Unknowns(raws))
  {
    hide WriteEntries;
    WriteNone();
    assert Unknowns(raws[..0]) == [];
    for i := 0 to |raws|
      invariant writer.cur == old(writer.cur) + WriteEntries(Unknowns(raws[..i]))
    {
      AppendEntry(old(writer.cur), Unknowns(raws[..i]), Unknown(raws[i]));
      assert Unknowns(raws[..i + 1]) == Unknowns(raws[..i]) + [Unknown(raws[i])];
      writer.RawBytes(raws[i]);
    }
    assert raws[..|raws|] == raws;
  }

  function OptionalBytes(present: bool, e: Entry): seq<byte> {
    if present then WriteEntry(e) else []
  }

  lemma OptionalEntry(present: bool, e: Entry)
    ensures WriteEntries(if present then [e] else []) == OptionalBytes(present, e)
  {
    WriteOne(e);
  }

  lemma ScalarBytes(m: Message, id: Entry, name: Entry, age: Entry)
    requires id == Id(if m.id.Some? then m.id.value else [])
    requires name == Name(if m.name.Some? then m.name.value else [])
    requires age == Age(if m.age.Some? then m.age.value else 0)
    ensures WriteEntries(Scalars(m)) ==
            OptionalBytes(m.id.Some?, id) + OptionalBytes(m.name.Some?, name) + OptionalBytes(m.age.Some?, age)
  {
    var a := if m.id.Some? then [id] else [];
    var b := if m.name.Some? then [name] else [];
    var c := if m.age.Some? then [age] else [];
    assert Scalars(m) == a + b + c;
    WriteEntriesConcat(a + b, c);
    WriteEntriesConcat(a, b);
    OptionalEntry(m.id.Some?, id);
    OptionalEntry(m.name.Some?, name);
    OptionalEntry(m.age.Some?, age);
  }

  /** A text field that may be absent. */
  method WriteOptionalText(writer: Writer, present: bool, e: Entry)
    requires e.Id? || e.Name?
    modifies writer`cur
    ensures writer.cur == old(writer.cur) + OptionalBytes(present, e)
  {
    if present {
      WriteTextField(writer, e);
    }
  }

  method WriteOptionalAge(writer: Writer, age: Option<Int32>)
    modifies writer`cur
    ensures writer.cur == old(writer.cur) +
                          OptionalBytes(age.Some?, Age(if age.Some? then age.value else 0))
  {
    if age.Some? {
      WriteAgeField(writer, age.value);
    }
  }

  method EncodeScalars(m: Message, writer: Writer)
    modifies writer`cur
    ensures writer.cur == old(writer.cur) + WriteEntries(Scalars(m))
  {
    var id, name := Id(if m.id.Some? then m.id.value else []), Name(if m.name.Some? then m.name.value else []);
    ghost var age := Age(if m.age.Some? then m.age.value else 0);
    ghost var a, b := OptionalBytes(m.id.Some?, id), OptionalBytes(m.name.Some?, name);
    ScalarBytes(m, id, name, age);
    Associative(writer.cur, a, b);
    Associative(writer.cur, a + b, OptionalBytes(m.age.Some?, age));
    WriteOptionalText(writer, m.id.Some?, id);
    WriteOptionalText(writer, m.name.Some?, name);
    WriteOptionalAge(writer, m.age);
  }

  lemma EncodeParts(m: Message, prefix: seq<byte>)
    ensures prefix + WriteEntries(Scalars(m)) + WriteEntries(Tags(m.tags)) + WriteEntries(Unknowns(m.unknowns))
         == prefix + Encode(m)
  {
    var a, b, c := WriteEntries(Scalars(m)), WriteEntries(Tags(m.tags)), WriteEntries(Unknowns(m.unknowns));
    WriteEntriesConcat(Scalars(m), Tags(m.tags));
    WriteEntriesConcat(Scalars(m) + Tags(m.tags), Unknowns(m.unknowns));
    Associative(prefix, a, b);
    Associative(prefix, a + b, c);
  }

  /** UserEvent.encode into a writer. */
  method EncodeTo(m: Message, writer: Writer)
    modifies writer`cur
    ensures writer.cur == old(writer.cur) + Encode(m)
  {
    EncodeParts(m, writer.cur);
    EncodeScalars(m, writer);
    EncodeTags(m.tags, writer);
    EncodeUnknowns(m.unknowns, writer);
  }

  /** UserEvent.encodeDelimited appends the delimited message to the writer, empty or not; but right
      after a fork of the caller's, where it does not fork itself, it ends that fork instead. */
  method EncodeDelimited(m: Message, writer: Writer)
    modifies writer
    ensures old(writer.states) == [] || old(writer.cur) != [] ==>
              writer.states == old(writer.states) && writer.cur == old(writer.cur) + Delimited(m)
    ensures old(writer.states) != [] && old(writer.cur) == [] ==>
              var last := |old(writer.states)| - 1;
              writer.states == old(writer.states)[..last] && writer.cur == old(writer.states)[last] + Delimited(m)
  {
    hide Varint, Encode, WriteEntries;
    if |writer.cur| > 0 {
      writer.Fork();
    }
    EncodeTo(m, writer);
    writer.Ldelim();
  }

  /** A caller that writes messages one after the other into one writer. */
  method EncodeStream(ms: seq<Message>, writer: Writer)
    requires writer.states == [] && writer.cur == []
    modifies writer
    ensures writer.cur == WriteStream(ms)
  {
    for i := 0 to |ms|
      invariant writer.states == [] && writer.cur == WriteStream(ms[..i])
    {
      EncodeDelimited(ms[i], writer);
      assert ms[..i + 1][..i] == ms[..i];
    }
    assert ms[..|ms|] == ms;
  }

  // --------------------------------------------------------------------- reader

  /** The library's reader. A method that meets malformed bytes reports it and the whole decode
      fails. */
  class Reader {
    const buf: seq<byte>
    var pos: nat

    ghost predicate Valid()
      reads this
    {
      pos <= |buf|
    }

    constructor (buf: seq<byte>)
      ensures this.buf == buf && pos == 0 && Valid()
    {
      this.buf := buf;
      pos := 0;
    }

    method ReadTagAt() returns (tag: Option<Tag>)
      requires Valid()
      modifies this`pos
      ensures Valid()
      ensures match ReadTag(buf[old(pos)..]) case Bad => tag.None?
                                         case Got(t, n) => tag == Some(t) && pos == old(pos) + n
    {
      var p := ReadTag(buf[pos..]);
      if p.Bad? {
        return None;
      }
      pos := pos + p.size;
      return Some(p.value);
    }

    method VarintAt() returns (v: Option<nat>)
      requires Valid()
      modifies this`pos
      ensures Valid()
      ensures match ReadVarint(buf[old(pos)..]) case Bad => v.None?
                                            case Got(n, size) => v == Some(n) && pos == old(pos) + size
    {
      var p := ReadVarint(buf[pos..]);
      if p.Bad? {
        return None;
      }
      pos := pos + p.size;
      return Some(p.value);
    }

    method StringAt() returns (t: Option<Text>)
      requires Valid()
      modifies this`pos
      ensures Valid()
      ensures match ReadText(buf[old(pos)..]) case Bad => t.None?
                                          case Got(text, size) => t == Some(text) && pos == old(pos) + size
    {
      var p := ReadText(buf[pos..]);
      if p.Bad? {
        return None;
      }
      pos := pos + p.size;
      return Some(p.value);
    }

    method SkipType(tag: Tag) returns (ok: bool)
      requires Valid()
      modifies this`pos
      ensures Valid()
      ensures match SkipValue(buf[old(pos)..], tag) case None => !ok
                                                case Some(size) => ok && pos == old(pos) + size
    {
      var size := SkipValue(buf[pos..], tag);
      if size.None? {
        return false;
      }
      pos := pos + size.value;
      return true;
    }
  }

  // --------------------------------------------------------------------- decode

  /** One turn of decode's loop: the switch on field number and wire type. */
  method DecodeField(reader: Reader, message: Message) returns (r: Option<Message>)
    requires reader.Valid()
    modifies reader`pos
    ensures reader.Valid()
    ensures match ReadEntry(reader.buf[old(reader.pos)..])
            case Bad => r.None?
            case Got(e, n) => r == Some(Apply(message, e)) && reader.pos == old(reader.pos) + n
  {
    hide ReadEntry, ReadTag, ReadText, ReadVarint, SkipValue, Signed32;
    var start := reader.pos;
    ghost var s := reader.buf[reader.pos..];
    var tag := reader.ReadTagAt();
    if tag.None? {
      ReadEntryBad(s);
      return None;
    }
    ghost var n := ReadTag(s).size;
    assert reader.buf[reader.pos..] == s[n..];
    var field, wireType := tag.value.field, tag.value.wire;
    if IsText(tag.value) {
      ReadEntryText(s, tag.value, n);
    } else if tag.value == Tag(3, 0) {
      ReadEntryAge(s, n);
    } else {
      ReadEntryUnknown(s, tag.value, n);
    }
    if field == 1 && wireType == 2 {
      var value := reader.StringAt();
      if value.None? { return None; }
      return Some(message.(id := if |value.value| > 0 then Some(value.value) else None));
    } else if field == 2 && wireType == 2 {
      var value := reader.StringAt();
      if value.None? { return None; }
      return Some(message.(name := if |value.value| > 0 then Some(value.value) else None));
    } else if field == 3 && wireType == 0 {
      var value := reader.VarintAt();
      if value.None? { return None; }
      var age := Signed32(value.value);
      return Some(message.(age := if age != 0 then Some(age) else None));
    } else if field == 4 && wireType == 2 {
      var value := reader.StringAt();
      if value.None? { return None; }
      return Some(message.(tags := message.tags + [value.value]));
    }
    var ok := reader.SkipType(tag.value);
    if !ok { return None; }
    assert reader.buf[start..reader.pos] == s[..reader.pos - start];
    return Some(message.(unknowns := message.unknowns + [reader.buf[start..reader.pos]]));
  }

  /** decode's loop by positions: the message and the position it ends with. */
  function DecodeLoop(buf: seq<byte>, pos: nat, end: int, message: Message): Option<(Message, nat)>
    requires pos <= |buf|
    decreases |buf| - pos
  {
    if pos >= end then Some((message, pos))
    else match ReadEntry(buf[pos..])
      case Bad => None
      case Got(e, n) => DecodeLoop(buf, pos + n, end, Apply(message, e))
  }

  lemma DecodeLoopEnds(buf: seq<byte>, pos: nat, end: int, message: Message)
    requires end <= pos <= |buf|
    ensures DecodeLoop(buf, pos, end, message) == Some((message, pos))
  {
  }

  lemma DecodeLoopTurn(buf: seq<byte>, pos: nat, end: int, message: Message)
    requires pos <= |buf| && pos < end
    ensures match ReadEntry(buf[pos..])
            case Bad => DecodeLoop(buf, pos, end, message).None?
            case Got(e, n) => DecodeLoop(buf, pos, end, message) == DecodeLoop(buf, pos + n, end, Apply(message, e))
  {
  }

  lemma {:induction false} DecodeLoopIsDecode(buf: seq<byte>, pos: nat, end: int, message: Message)
    requires pos <= |buf|
    ensures DecodeLoop(buf, pos, end, message) ==
            match DecodeUpTo(buf[pos..], end - pos, message) case Bad => None case Got(m, n) => Some((m, pos + n))
    decreases |buf| - pos
  {
    hide ReadEntry;
    if pos < end && ReadEntry(buf[pos..]).Got? {
      var Got(e, n) := ReadEntry(buf[pos..]);
      assert buf[pos..][n..] == buf[pos + n..];
      DecodeLoopIsDecode(buf, pos + n, end, Apply(message, e));
    }
  }

  /** UserEvent.decode of `length` bytes (the rest of the buffer if None) into a target. */
  method DecodeFrom(reader: Reader, length: Option<nat>, target: Message) returns (r: Option<Message>)
    requires reader.Valid()
    modifies reader`pos
    ensures reader.Valid()
    ensures
      var end := if length.Some? then old(reader.pos) + length.value else |reader.buf|;
      match DecodeLoop(reader.buf, old(reader.pos), end, target)
      case None => r.None?
      case Some((m, pos)) => r == Some(m) && reader.pos == pos
  {
    hide ReadEntry;
    var end := if length.None? then |reader.buf| else reader.pos + length.value;
    ghost var goal := DecodeLoop(reader.buf, reader.pos, end, target);
    var message := target;
    while reader.pos < end
      invariant reader.Valid()
      invariant goal == DecodeLoop(reader.buf, reader.pos, end, message)
      decreases |reader.buf| - reader.pos
    {
      DecodeLoopTurn(reader.buf, reader.pos, end, message);
      var next := DecodeField(reader, message);
      if next.None? {
        return None;
      }
      message := next.value;
    }
    DecodeLoopEnds(reader.buf, reader.pos, end, message);
    return Some(message);
  }

  /** decode without a length reads the whole rest, as DecodeInto does. */
  lemma {:induction false} DecodeWhole(s: seq<byte>, target: Message)
    ensures DecodeUpTo(s, |s|, target) ==
            match DecodeInto(s, target) case None => Bad case Some(m) => Got(m, |s|)
    decreases s
  {
    hide ReadEntry;
    if s != [] && ReadEntry(s).Got? {
      DecodeWhole(s[ReadEntry(s).size..], Apply(target, ReadEntry(s).value));
    }
  }

  /** UserEvent.decodeDelimited. */
  method DecodeDelimited(reader: Reader) returns (r: Option<Message>)
    requires reader.Valid()
    modifies reader`pos
    ensures reader.Valid()
    ensures match ReadDelimited(reader.buf[old(reader.pos)..])
            case Bad => r.None?
            case Got(m, n) => r == Some(m) && reader.pos == old(reader.pos) + n
  {
    hide DecodeUpTo, DecodeLoop, ReadVarint;
    ghost var s := reader.buf[reader.pos..];
    var length := reader.VarintAt();
    if length.None? {
      return None;
    }
    var wanted := length.value % TWO_32;
    assert reader.buf[reader.pos..] == s[ReadVarint(s).size..];
    DecodeLoopIsDecode(reader.buf, reader.pos, reader.pos + wanted, Empty());
    r := DecodeFrom(reader, Some(wanted), Empty());
  }

  /** Encoding with the writer and decoding with the reader, end to end. */
  method EncodeThenDecode(m: Message) returns (r: Option<Message>)
    requires WellFormed(m)
    ensures r == Some(Normal(m))
  {
    hide DecodeUpTo, DecodeLoop, DecodeInto, WriteEntries, ReadEntry;
    var writer := new Writer();
    EncodeTo(m, writer);
    var bytes := writer.cur;
    assert bytes == Encode(m);
    var reader := new Reader(bytes);
    assert bytes[0..] == bytes;
    DecodeLoopIsDecode(bytes, 0, |bytes|, Empty());
    DecodeWhole(bytes, Empty());
    DecodeAfterEncode(m);
    r := DecodeFrom(reader, None, Empty());
  }

  lemma StreamTurn(s: seq<byte>, done: seq<Message>, goal: Option<seq<Message>>)
    requires s != []
    requires goal == Continued(done, ReadStream(s))
    ensures ReadDelimited(s).Bad? ==> goal == None
    ensures ReadDelimited(s).Got? ==>
              goal == Continued(done + [ReadDelimited(s).value], ReadStream(s[ReadDelimited(s).size..]))
  {
    hide ReadDelimited;
    if ReadDelimited(s).Got? && ReadStream(s[ReadDelimited(s).size..]).Some? {
      var m, n := ReadDelimited(s).value, ReadDelimited(s).size;
      assert done + ([m] + ReadStream(s[n..]).value) == done + [m] + ReadStream(s[n..]).value;
    }
  }

  function Continued(done: seq<Message>, rest: Option<seq<Message>>): Option<seq<Message>> {
    if rest.None? then None else Some(done + rest.value)
  }

  /** A caller that reads messages until the buffer is used up. */
  method DecodeStream(reader: Reader) returns (r: Option<seq<Message>>)
    requires reader.Valid()
    modifies reader`pos
    ensures r == ReadStream(reader.buf[old(reader.pos)..])
    ensures r.Some? ==> reader.pos == |reader.buf|
  {
    hide ReadDelimited;
    ghost var goal := ReadStream(reader.buf[reader.pos..]);
    var done: seq<Message> := [];
    assert goal.Some? ==> [] + goal.value == goal.value;
    while reader.pos < |reader.buf|
      invariant reader.Valid()
      invariant goal == Continued(done, ReadStream(reader.buf[reader.pos..]))
      decreases |reader.buf| - reader.pos
    {
      ghost var s := reader.buf[reader.pos..];
      StreamTurn(s, done, goal);
      var next := DecodeDelimited(reader);
      if next.None? {
        return None;
      }
      assert reader.buf[reader.pos..] == s[ReadDelimited(s).size..];
      done := done + [next.value];
    }
    assert reader.buf[reader.pos..] == [] && done + [] == done;
    return Some(done);
  }

  /** Any list of messages through one writer and one reader: all of them, in order, and nothing
      left over. */
  method StreamThere(ms: seq<Message>) returns (r: Option<seq<Message>>, left: nat)
    requires forall i :: 0 <= i < |ms| ==> Deliverable(ms[i])
    ensures r == Some(Normals(ms)) && left == 0
  {
    hide ReadStream, WriteStream, Normals;
    var writer := new Writer();
    EncodeStream(ms, writer);
    StreamRoundTrip(ms);
    var reader := new Reader(writer.cur);
    assert reader.buf[0..] == reader.buf;
    r := DecodeStream(reader);
    left := |reader.buf| - reader.pos;
  }
}
