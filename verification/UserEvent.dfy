/** The generated codec of pulsar.example.UserEvent (tests/protobuf_schema/generated): records are
    read one after the other into a message, in which a scalar keeps its last value and tags and
    unknown records accumulate; encoding writes the fields in their own order and the unknown
    records behind them. Module UserEventCodec has the encode and decode loops themselves. */
module UserEvent {
  import opened Common
  import opened Wire

  type Int32 = i: int | -0x8000_0000 <= i < 0x8000_0000

  /** An absent property is None; an own property that is set to its default is not. */
  datatype Message = Message(
    id: Option<Text>, name: Option<Text>, age: Option<Int32>, tags: seq<Text>, unknowns: seq<seq<byte>>)

  function Empty(): Message {
    Message(None, None, None, [], [])
  }

  /** One record of the wire format, as decode sees it. */
  datatype Entry = Id(text: Text) | Name(text: Text) | Age(age: Int32) | TagEntry(text: Text) | Unknown(raw: seq<byte>)

  // -------------------------------------------------------------------- reading

  predicate IsText(tag: Tag) {
    tag.wire == 2 && (tag.field == 1 || tag.field == 2 || tag.field == 4)
  }

  function TextEntry(field: nat, t: Text): Entry {
    if field == 1 then Id(t) else if field == 2 then Name(t) else TagEntry(t)
  }

  /** A record with a known field but another wire type is unknown too. */
  function ReadEntry(s: seq<byte>): (p: Parsed<Entry>)
    ensures p.Got? ==> 0 < p.size <= |s|
  {
    match ReadTag(s)
    case Bad => Bad
    case Got(tag, n) =>
      if IsText(tag) then
        match ReadText(s[n..])
        case Bad => Bad
        case Got(t, m) => Got(TextEntry(tag.field, t), n + m)
      else if tag == Tag(3, 0) then
        match ReadVarint(s[n..])
        case Bad => Bad
        case Got(v, m) => Got(Age(Signed32(v)), n + m)
      else
        match SkipValue(s[n..], tag)
        case None => Bad
        case Some(m) => Got(Unknown(s[..n + m]), n + m)
  }

  /** What one record does to the message. */
  function Apply(m: Message, e: Entry): Message {
    match e
    case Id(t) => m.(id := if t == [] then None else Some(t))
    case Name(t) => m.(name := if t == [] then None else Some(t))
    case Age(a) => m.(age := if a == 0 then None else Some(a))
    case TagEntry(t) => m.(tags := m.tags + [t])
    case Unknown(raw) => m.(unknowns := m.unknowns + [raw])
  }

  /** decode with a length: records are read while fewer bytes have been consumed, and the last one
      may reach beyond. */
  function DecodeUpTo(s: seq<byte>, length: int, target: Message): (p: Parsed<Message>)
    ensures p.Got? ==> p.size <= |s|
    decreases s
  {
    if length <= 0 then Got(target, 0)
    else match ReadEntry(s)
      case Bad => Bad
      case Got(e, n) =>
        match DecodeUpTo(s[n..], length - n, Apply(target, e))
        case Bad => Bad
        case Got(m, r) => Got(m, n + r)
  }

  /** decode of a whole buffer into a message. */
  function DecodeInto(s: seq<byte>, target: Message): Option<Message>
    decreases s
  {
    if s == [] then Some(target)
    else match ReadEntry(s)
      case Bad => None
      case Got(e, n) => DecodeInto(s[n..], Apply(target, e))
  }

  function Decode(s: seq<byte>): Option<Message> {
    DecodeInto(s, Empty())
  }

  // -------------------------------------------------------------------- writing

  function WriteEntry(e: Entry): seq<byte> {
    match e
    case Id(t) => [10] + WriteText(t)
    case Name(t) => [18] + WriteText(t)
    case Age(a) => [24] + Varint(Unsigned64(a))
    case TagEntry(t) => [34] + WriteText(t)
    case Unknown(raw) => raw
  }

  function WriteEntries(es: seq<Entry>): seq<byte> {
    if es == [] then [] else WriteEntry(es[0]) + WriteEntries(es[1..])
  }

  /** The records encode writes, in its order. */
  function Scalars(m: Message): seq<Entry> {
    (if m.id.Some? then [Id(m.id.value)] else [])
    + (if m.name.Some? then [Name(m.name.value)] else [])
    + (if m.age.Some? then [Age(m.age.value)] else [])
  }

  function Tags(tags: seq<Text>): seq<Entry> {
    seq(|tags|, i requires 0 <= i < |tags| => TagEntry(tags[i]))
  }

  function Unknowns(raws: seq<seq<byte>>): seq<Entry> {
    seq(|raws|, i requires 0 <= i < |raws| => Unknown(raws[i]))
  }

  function Entries(m: Message): seq<Entry> {
    Scalars(m) + Tags(m.tags) + Unknowns(m.unknowns)
  }

  function Encode(m: Message): seq<byte> {
    WriteEntries(Entries(m))
  }

  // ------------------------------------------------------- one record, both ways

  /** Bytes that are exactly one record of the unknown kind. */
  predicate IsUnknownRecord(raw: seq<byte>) {
    ReadEntry(raw) == Got(Unknown(raw), |raw|)
  }

  predicate Writable(e: Entry) {
    e.Unknown? ==> IsUnknownRecord(e.raw)
  }

  lemma SmallTag(b: byte, rest: seq<byte>)
    requires 8 <= b < 128
    ensures ReadTag([b] + rest) == Got(Tag(b / 8, b % 8), 1)
  {
  }

  lemma ReadTextEntry(b: byte, t: Text, rest: seq<byte>)
    requires 8 <= b < 128 && IsText(Tag(b / 8, b % 8))
    ensures var s := [b] + WriteText(t) + rest;
            ReadEntry(s) == Got(TextEntry(b / 8, t), |[b] + WriteText(t)|)
  {
    var s := [b] + WriteText(t) + rest;
    assert s == [b] + (WriteText(t) + rest);
    SmallTag(b, WriteText(t) + rest);
    assert s[1..] == WriteText(t) + rest;
    TextRoundTrip(t, rest);
  }

  lemma ReadAgeEntry(a: Int32, rest: seq<byte>)
    ensures var s := [24] + Varint(Unsigned64(a)) + rest;
            ReadEntry(s) == Got(Age(a), |[24] + Varint(Unsigned64(a))|)
  {
    var v := Varint(Unsigned64(a));
    var s := [24] + v + rest;
    assert s == [24] + (v + rest);
    SmallTag(24, v + rest);
    assert s[1..] == v + rest;
    VarintRoundTrip(Unsigned64(a), rest);
    SignedRoundTrip(a);
  }

  lemma LocalText(s: seq<byte>, n: nat, rest: seq<byte>)
    requires n <= |s| && ReadText(s[n..]).Got?
    ensures var k := n + ReadText(s[n..]).size; ReadText((s[..k] + rest)[n..]) == ReadText(s[n..])
  {
    var m := ReadText(s[n..]).size;
    DropOfCut(s, n, n + m, rest);
    TextLocal(s[n..], rest);
  }

  lemma LocalVarint(s: seq<byte>, n: nat, rest: seq<byte>)
    requires n <= |s| && ReadVarint(s[n..]).Got?
    ensures var k := n + ReadVarint(s[n..]).size; ReadVarint((s[..k] + rest)[n..]) == ReadVarint(s[n..])
  {
    var m := ReadVarint(s[n..]).size;
    DropOfCut(s, n, n + m, rest);
    VarintLocal(s[n..], 0, rest);
  }

  lemma LocalSkip(s: seq<byte>, n: nat, tag: Tag, rest: seq<byte>)
    requires n <= |s| && SkipValue(s[n..], tag).Some?
    ensures var k := n + SkipValue(s[n..], tag).value;
            SkipValue((s[..k] + rest)[n..], tag) == SkipValue(s[n..], tag)
  {
    var m := SkipValue(s[n..], tag).value;
    DropOfCut(s, n, n + m, rest);
    SkipValueLocal(s[n..], tag, m, rest);
  }

  /** ReadEntry, case by case, for a tag that has been read. */
  lemma ReadEntryText(s: seq<byte>, tag: Tag, n: nat)
    requires ReadTag(s) == Got(tag, n) && n <= |s| && IsText(tag)
    ensures ReadText(s[n..]).Bad? ==> ReadEntry(s).Bad?
    ensures ReadText(s[n..]).Got? ==>
              ReadEntry(s) == Got(TextEntry(tag.field, ReadText(s[n..]).value), n + ReadText(s[n..]).size)
  {
    hide ReadTag, ReadText, SkipValue, ReadVarint;
  }

  lemma ReadEntryAge(s: seq<byte>, n: nat)
    requires ReadTag(s) == Got(Tag(3, 0), n) && n <= |s|
    ensures ReadVarint(s[n..]).Bad? ==> ReadEntry(s).Bad?
    ensures ReadVarint(s[n..]).Got? ==>
              ReadEntry(s) == Got(Age(Signed32(ReadVarint(s[n..]).value)), n + ReadVarint(s[n..]).size)
  {
    hide ReadTag, ReadText, SkipValue, ReadVarint, Signed32;
  }

  lemma ReadEntryUnknown(s: seq<byte>, tag: Tag, n: nat)
    requires ReadTag(s) == Got(tag, n) && n <= |s| && !IsText(tag) && tag != Tag(3, 0)
    ensures SkipValue(s[n..], tag).None? ==> ReadEntry(s).Bad?
    ensures SkipValue(s[n..], tag).Some? ==>
              var k := n + SkipValue(s[n..], tag).value; ReadEntry(s) == Got(Unknown(s[..k]), k)
  {
    hide ReadTag, ReadText, SkipValue, ReadVarint;
  }

  lemma ReadEntryBad(s: seq<byte>)
    requires ReadTag(s).Bad?
    ensures ReadEntry(s).Bad?
  {
  }

  /** A record is read the same whatever follows it. */
  lemma EntryLocal(s: seq<byte>, rest: seq<byte>)
    requires ReadEntry(s).Got?
    ensures var n := ReadEntry(s).size; ReadEntry(s[..n] + rest) == ReadEntry(s)
  {
    hide ReadEntry, ReadTag, ReadText, SkipValue, ReadVarint, IsText;
    if ReadTag(s).Bad? {
      ReadEntryBad(s);
    } else {
      var tag, n := ReadTag(s).value, ReadTag(s).size;
      if IsText(tag) {
        TextEntryLocal(s, tag, n, rest);
      } else if tag == Tag(3, 0) {
        AgeEntryLocal(s, n, rest);
      } else {
        UnknownEntryLocal(s, tag, n, rest);
      }
    }
  }

  lemma CutTag(s: seq<byte>, tag: Tag, n: nat, k: nat, rest: seq<byte>)
    requires ReadTag(s) == Got(tag, n) && n <= k <= |s|
    ensures ReadTag(s[..k] + rest) == Got(tag, n)
  {
    hide ReadTag;
    KeepOfCut(s, n, k, rest);
    TagLocal(s, s[n..k] + rest);
  }

  lemma TextEntryLocal(s: seq<byte>, tag: Tag, n: nat, rest: seq<byte>)
    requires ReadEntry(s).Got? && ReadTag(s) == Got(tag, n) && n <= |s| && IsText(tag)
    ensures var k := ReadEntry(s).size; ReadEntry(s[..k] + rest) == ReadEntry(s)
  {
    hide ReadEntry, ReadTag, ReadText, IsText;
    ReadEntryText(s, tag, n);
    var k := ReadEntry(s).size;
    CutTag(s, tag, n, k, rest);
    LocalText(s, n, rest);
    ReadEntryText(s[..k] + rest, tag, n);
  }

  lemma AgeEntryLocal(s: seq<byte>, n: nat, rest: seq<byte>)
    requires ReadEntry(s).Got? && ReadTag(s) == Got(Tag(3, 0), n) && n <= |s|
    ensures var k := ReadEntry(s).size; ReadEntry(s[..k] + rest) == ReadEntry(s)
  {
    hide ReadEntry, ReadTag, ReadVarint, Signed32;
    ReadEntryAge(s, n);
    var k := ReadEntry(s).size;
    CutTag(s, Tag(3, 0), n, k, rest);
    LocalVarint(s, n, rest);
    ReadEntryAge(s[..k] + rest, n);
  }

  lemma UnknownEntryLocal(s: seq<byte>, tag: Tag, n: nat, rest: seq<byte>)
    requires ReadEntry(s).Got? && ReadTag(s) == Got(tag, n) && n <= |s| && !IsText(tag) && tag != Tag(3, 0)
    ensures var k := ReadEntry(s).size; ReadEntry(s[..k] + rest) == ReadEntry(s)
  {
    hide ReadEntry, ReadTag, SkipValue, IsText;
    ReadEntryUnknown(s, tag, n);
    var k := ReadEntry(s).size;
    CutTag(s, tag, n, k, rest);
    LocalSkip(s, n, tag, rest);
    ReadEntryUnknown(s[..k] + rest, tag, n);
    assert (s[..k] + rest)[..k] == s[..k];
  }

  /** Writing a record and reading it back, whatever follows. */
  lemma EntryRoundTrip(e: Entry, rest: seq<byte>)
    requires Writable(e)
    ensures WriteEntry(e) != []
    ensures ReadEntry(WriteEntry(e) + rest) == Got(e, |WriteEntry(e)|)
  {
    match e
    case Id(t) => ReadTextEntry(10, t, rest);
    case Name(t) => ReadTextEntry(18, t, rest);
    case Age(a) => ReadAgeEntry(a, rest);
    case TagEntry(t) => ReadTextEntry(34, t, rest);
    case Unknown(raw) =>
      EntryLocal(raw, rest);
      assert raw[..|raw|] == raw;
  }

  /** The field numbers and wire types of the schema. */
  lemma FieldNumbers(t: Text, a: Int32)
    ensures ReadTag(WriteEntry(Id(t))) == Got(Tag(1, 2), 1)
    ensures ReadTag(WriteEntry(Name(t))) == Got(Tag(2, 2), 1)
    ensures ReadTag(WriteEntry(Age(a))) == Got(Tag(3, 0), 1)
    ensures ReadTag(WriteEntry(TagEntry(t))) == Got(Tag(4, 2), 1)
  {
    SmallTag(10, WriteText(t));
    SmallTag(18, WriteText(t));
    SmallTag(24, Varint(Unsigned64(a)));
    SmallTag(34, WriteText(t));
  }

  // ------------------------------------------------------------------- messages

  function ApplyAll(m: Message, es: seq<Entry>): Message
    decreases es
  {
    if es == [] then m else ApplyAll(Apply(m, es[0]), es[1..])
  }

  lemma {:induction false} ApplyAllConcat(m: Message, a: seq<Entry>, b: seq<Entry>)
    ensures ApplyAll(m, a + b) == ApplyAll(ApplyAll(m, a), b)
    decreases a
  {
    if a == [] {
      assert a + b == b;
    } else {
      assert (a + b)[1..] == a[1..] + b;
      ApplyAllConcat(Apply(m, a[0]), a[1..], b);
    }
  }

  /** Decoding what was written applies the records in order. */
  lemma {:induction false} DecodeWritten(es: seq<Entry>, target: Message)
    requires forall i :: 0 <= i < |es| ==> Writable(es[i])
    ensures DecodeInto(WriteEntries(es), target) == Some(ApplyAll(target, es))
    decreases es
  {
    hide ReadEntry, WriteEntry, Apply;
    if es != [] {
      var rest := WriteEntries(es[1..]);
      EntryRoundTrip(es[0], rest);
      var s := WriteEntry(es[0]) + rest;
      assert s[|WriteEntry(es[0])|..] == rest;
      DecodeWritten(es[1..], Apply(target, es[0]));
    }
  }

  /** A message without own properties that are set to their defaults. */
  function Normal(m: Message): Message {
    m.(id := if m.id == Some([]) then None else m.id,
       name := if m.name == Some([]) then None else m.name,
       age := if m.age == Some(0) then None else m.age)
  }

  predicate WellFormed(m: Message) {
    forall i :: 0 <= i < |m.unknowns| ==> IsUnknownRecord(m.unknowns[i])
  }

  lemma {:induction false} ApplyTags(m: Message, tags: seq<Text>)
    ensures ApplyAll(m, Tags(tags)) == m.(tags := m.tags + tags)
    decreases tags
  {
    if tags != [] {
      assert Tags(tags)[1..] == Tags(tags[1..]);
      ApplyTags(Apply(m, TagEntry(tags[0])), tags[1..]);
      assert m.tags + [tags[0]] + tags[1..] == m.tags + tags;
    }
  }

  lemma {:induction false} ApplyUnknowns(m: Message, raws: seq<seq<byte>>)
    ensures ApplyAll(m, Unknowns(raws)) == m.(unknowns := m.unknowns + raws)
    decreases raws
  {
    if raws != [] {
      assert Unknowns(raws)[1..] == Unknowns(raws[1..]);
      ApplyUnknowns(Apply(m, Unknown(raws[0])), raws[1..]);
      assert m.unknowns + [raws[0]] + raws[1..] == m.unknowns + raws;
    }
  }

  lemma ApplyOptional(m: Message, present: bool, e: Entry)
    ensures ApplyAll(m, if present then [e] else []) == if present then Apply(m, e) else m
  {
    assert [e][1..] == [];
  }

  lemma ApplyScalars(m: Message)
    ensures ApplyAll(Empty(), Scalars(m)) == Normal(m).(tags := [], unknowns := [])
  {
    var one := if m.id.Some? then [Id(m.id.value)] else [];
    var two := if m.name.Some? then [Name(m.name.value)] else [];
    var three := if m.age.Some? then [Age(m.age.value)] else [];
    ApplyAllConcat(Empty(), one + two, three);
    ApplyAllConcat(Empty(), one, two);
    ApplyOptional(Empty(), m.id.Some?, if m.id.Some? then Id(m.id.value) else Id([]));
    var a := ApplyAll(Empty(), one);
    ApplyOptional(a, m.name.Some?, if m.name.Some? then Name(m.name.value) else Name([]));
    ApplyOptional(ApplyAll(a, two), m.age.Some?, if m.age.Some? then Age(m.age.value) else Age(0));
  }

  lemma ApplyEntries(m: Message)
    ensures ApplyAll(Empty(), Entries(m)) == Normal(m)
  {
    var scalars, tags, unknowns := Scalars(m), Tags(m.tags), Unknowns(m.unknowns);
    ApplyAllConcat(Empty(), scalars + tags, unknowns);
    ApplyAllConcat(Empty(), scalars, tags);
    ApplyScalars(m);
    ApplyTags(ApplyAll(Empty(), scalars), m.tags);
    ApplyUnknowns(ApplyAll(Empty(), scalars + tags), m.unknowns);
    assert [] + m.tags == m.tags && [] + m.unknowns == m.unknowns;
  }

  lemma EntriesWritable(m: Message, i: nat)
    requires WellFormed(m) && i < |Entries(m)|
    ensures Writable(Entries(m)[i])
  {
    var before := |Scalars(m)| + |m.tags|;
    if i >= before {
      assert Entries(m)[i] == Unknown(m.unknowns[i - before]);
    } else {
      assert Entries(m)[i] == (Scalars(m) + Tags(m.tags))[i];
    }
  }

  lemma DecodeEncoded(m: Message)
    requires WellFormed(m)
    ensures Decode(Encode(m)) == Some(Normal(m))
  {
    forall i | 0 <= i < |Entries(m)| ensures Writable(Entries(m)[i]) {
      EntriesWritable(m, i);
    }
    DecodeWritten(Entries(m), Empty());
    ApplyEntries(m);
  }

  /** What decode leaves in a message can be written again and has no explicit defaults. */
  predicate Decoded(m: Message) {
    WellFormed(m) && Normal(m) == m
  }

  lemma UnknownIsRecord(s: seq<byte>)
    requires ReadEntry(s).Got? && ReadEntry(s).value.Unknown?
    ensures IsUnknownRecord(ReadEntry(s).value.raw)
  {
    var n := ReadEntry(s).size;
    EntryLocal(s, []);
    assert s[..n] + [] == s[..n];
  }

  lemma {:induction false} DecodeKeepsDecoded(s: seq<byte>, target: Message)
    requires Decoded(target) && DecodeInto(s, target).Some?
    ensures Decoded(DecodeInto(s, target).value)
    decreases s
  {
    hide ReadEntry;
    if s != [] {
      var Got(e, n) := ReadEntry(s);
      if e.Unknown? {
        UnknownIsRecord(s);
      }
      DecodeKeepsDecoded(s[n..], Apply(target, e));
    }
  }

  /** Decode after encode gives the message itself up to default values, if and only if each of its
      unknown records, which encode writes as they are, is a record. */
  lemma DecodeAfterEncode(m: Message)
    ensures Decode(Encode(m)) == Some(Normal(m)) <==> WellFormed(m)
  {
    if WellFormed(m) {
      DecodeEncoded(m);
    } else if Decode(Encode(m)).Some? {
      DecodeKeepsDecoded(Encode(m), Empty());
    }
  }

  /** For any bytes that decode, encoding the message and decoding again gives the same message,
      unknown records byte for byte and in order, although the fields may have moved. */
  lemma ReencodeIsFaithful(b: seq<byte>)
    requires Decode(b).Some?
    ensures Decode(Encode(Decode(b).value)) == Decode(b)
  {
    DecodeKeepsDecoded(b, Empty());
    DecodeEncoded(Decode(b).value);
  }

  /** Concatenation is merge: decoding a ++ b is decoding b into what a decoded to. */
  lemma {:induction false} ConcatenationMerges(a: seq<byte>, b: seq<byte>, target: Message)
    requires DecodeInto(a, target).Some?
    ensures DecodeInto(a + b, target) == DecodeInto(b, DecodeInto(a, target).value)
    decreases a
  {
    hide ReadEntry, Apply;
    if a == [] {
      assert a + b == b;
    } else {
      var Got(e, n) := ReadEntry(a);
      EntryLocal(a, a[n..] + b);
      assert a[..n] + (a[n..] + b) == a + b;
      assert (a + b)[n..] == a[n..] + b;
      ConcatenationMerges(a[n..], b, Apply(target, e));
    }
  }

  // ---------------------------------------------------------- unknown records

  /** A record that is none of the message's fields: another number, or another wire type. */
  predicate IsUnknown(r: Record) {
    ValidRecord(r) && !IsText(Tag(r.field, WireType(r.value))) && Tag(r.field, WireType(r.value)) != Tag(3, 0)
  }

  lemma ReadUnknownRecord(r: Record, rest: seq<byte>)
    requires IsUnknown(r)
    ensures WriteRecord(r) != []
    ensures ReadEntry(WriteRecord(r) + rest) == Got(Unknown(WriteRecord(r)), |WriteRecord(r)|)
  {
    hide ReadEntry, ReadTag, SkipValue, ReadText, ReadVarint, WriteRaw, IsText;
    var tag, value := WriteTag(r.field, WireType(r.value)), WriteRaw(r.value, r.field);
    var s := WriteRecord(r) + rest;
    Associative(tag, value, rest);
    TagRoundTrip(r.field, WireType(r.value), value + rest);
    assert s[|tag|..] == value + rest;
    SkipWritten(r.value, r.field, rest);
    ReadEntryUnknown(s, Tag(r.field, WireType(r.value)), |tag|);
    assert s[..|tag| + |value|] == WriteRecord(r);
  }

  lemma {:induction false} UnknownFirst(m: Message, raw: seq<byte>, es: seq<Entry>)
    ensures ApplyAll(m.(unknowns := [raw] + m.unknowns), es)
         == ApplyAll(m, es).(unknowns := [raw] + ApplyAll(m, es).unknowns)
    decreases es
  {
    if es == [] {
    } else {
      var n := Apply(m, es[0]);
      assert Apply(m.(unknowns := [raw] + m.unknowns), es[0]) == n.(unknowns := [raw] + n.unknowns) by {
        if es[0].Unknown? {
          assert [raw] + m.unknowns + [es[0].raw] == [raw] + (m.unknowns + [es[0].raw]);
        }
      }
      UnknownFirst(n, raw, es[1..]);
    }
  }

  /** A record of any wire type that is none of the message's fields, groups included, is kept byte for
      byte, and the rest of the message is read as if it were not there: behind a message, */
  lemma UnknownBehind(m: Message, r: Record)
    requires WellFormed(m) && IsUnknown(r)
    ensures Decode(Encode(m) + WriteRecord(r)) == Some(Normal(m).(unknowns := m.unknowns + [WriteRecord(r)]))
  {
    hide ReadEntry, Encode, WriteRecord, Normal;
    var u := WriteRecord(r);
    DecodeEncoded(m);
    ConcatenationMerges(Encode(m), u, Empty());
    DecodeOneUnknown(r, Normal(m));
    NormalKeepsUnknowns(m);
  }

  /** and before it. */
  lemma UnknownBefore(m: Message, r: Record)
    requires WellFormed(m) && IsUnknown(r)
    ensures Decode(WriteRecord(r) + Encode(m)) == Some(Normal(m).(unknowns := [WriteRecord(r)] + m.unknowns))
  {
    hide ReadEntry, Apply, WriteRecord, Normal, Entries, WriteEntries;
    var u := WriteRecord(r);
    DecodeOneUnknown(r, Empty());
    ConcatenationMerges(u, Encode(m), Empty());
    forall i | 0 <= i < |Entries(m)| ensures Writable(Entries(m)[i]) {
      EntriesWritable(m, i);
    }
    DecodeWritten(Entries(m), Empty().(unknowns := [u]));
    assert [u] + [] == [u] && [] + [u] == [u];
    UnknownFirst(Empty(), u, Entries(m));
    ApplyEntries(m);
    NormalKeepsUnknowns(m);
  }

  lemma NormalKeepsUnknowns(m: Message)
    ensures Normal(m).unknowns == m.unknowns
  {
  }

  lemma DecodeOneUnknown(r: Record, target: Message)
    requires IsUnknown(r)
    ensures DecodeInto(WriteRecord(r), target) == Some(target.(unknowns := target.unknowns + [WriteRecord(r)]))
  {
    hide ReadEntry, WriteRecord;
    var u := WriteRecord(r);
    ReadUnknownRecord(r, []);
    assert u + [] == u && u[|u|..] == [];
  }

  /** An unknown fixed64 in field 5, then the id "a". */
  lemma UnknownFixed64()
    ensures Decode([41, 0, 0, 0, 0, 0, 0, 0, 0, 10, 1, 97])
         == Some(Message(Some([97]), None, None, [], [[41, 0, 0, 0, 0, 0, 0, 0, 0]]))
  {
    var r := Record(5, Eight([0, 0, 0, 0, 0, 0, 0, 0]));
    var m := Message(Some([97]), None, None, [], []);
    EncodedId();
    assert WriteRecord(r) == [41, 0, 0, 0, 0, 0, 0, 0, 0];
    UnknownBefore(m, r);
    assert WriteRecord(r) + Encode(m) == [41, 0, 0, 0, 0, 0, 0, 0, 0, 10, 1, 97];
    assert [WriteRecord(r)] + m.unknowns == [[41, 0, 0, 0, 0, 0, 0, 0, 0]];
  }

  lemma EncodedId()
    ensures Encode(Message(Some([97]), None, None, [], [])) == [10, 1, 97]
  {
    var m := Message(Some([97]), None, None, [], []);
    assert Tags(m.tags) == [] && Unknowns(m.unknowns) == [];
    assert Entries(m) == [Id([97])];
    assert [Id([97])][1..] == [];
    assert WriteEntry(Id([97])) == [10, 1, 97];
  }

  lemma WriteFront(e: Entry, es: seq<Entry>)
    ensures WriteEntries([e] + es) == WriteEntry(e) + WriteEntries(es)
  {
    assert ([e] + es)[1..] == es;
  }

  lemma SmallEntries(b: byte, age: Int32)
    requires b < 128 && 0 <= age < 128
    ensures WriteEntry(Id([b])) == [10, 1, b] && WriteEntry(Name([b])) == [18, 1, b]
    ensures WriteEntry(TagEntry([b])) == [34, 1, b] && WriteEntry(TagEntry([])) == [34, 0]
    ensures WriteEntry(Age(age)) == [24, age]
  {
  }

  /** The bytes of a message with every field, in the order of the schema. */
  lemma EncodedMessage(raw: seq<byte>)
    ensures Encode(Message(Some([97]), Some([98]), Some(5), [[99], []], [raw]))
         == [10, 1, 97, 18, 1, 98, 24, 5, 34, 1, 99, 34, 0] + raw
  {
    hide WriteEntries, WriteEntry;
    var m := Message(Some([97]), Some([98]), Some(5), [[99], []], [raw]);
    var tags := [TagEntry([99]), TagEntry([])];
    assert Tags(m.tags) == tags && Unknowns(m.unknowns) == [Unknown(raw)];
    assert Entries(m) ==
           [Id([97])] + ([Name([98])] + ([Age(5)] + ([TagEntry([99])] + ([TagEntry([])] + [Unknown(raw)]))));
    SmallEntries(97, 5);
    SmallEntries(98, 5);
    SmallEntries(99, 5);
    OnlyUnknown(raw);
    WriteFront(TagEntry([]), [Unknown(raw)]);
    WriteFront(TagEntry([99]), [TagEntry([])] + [Unknown(raw)]);
    WriteFront(Age(5), [TagEntry([99])] + ([TagEntry([])] + [Unknown(raw)]));
    WriteFront(Name([98]), [Age(5)] + ([TagEntry([99])] + ([TagEntry([])] + [Unknown(raw)])));
    WriteFront(Id([97]), [Name([98])] + ([Age(5)] + ([TagEntry([99])] + ([TagEntry([])] + [Unknown(raw)]))));
  }

  lemma OnlyUnknown(raw: seq<byte>)
    ensures WriteEntries([Unknown(raw)]) == raw
  {
    assert [Unknown(raw)][1..] == [];
  }

  // --------------------------------------------------- what decoding amounts to

  /** The records of a buffer. */
  function ReadEntries(s: seq<byte>): Option<seq<Entry>>
    decreases s
  {
    if s == [] then Some([])
    else match ReadEntry(s)
      case Bad => None
      case Got(e, n) =>
        match ReadEntries(s[n..])
        case None => None
        case Some(es) => Some([e] + es)
  }

  lemma {:induction false} DecodeIsApplyAll(s: seq<byte>, target: Message)
    ensures DecodeInto(s, target) ==
            match ReadEntries(s) case None => None case Some(es) => Some(ApplyAll(target, es))
    decreases s
  {
    hide ReadEntry, Apply;
    if s != [] && ReadEntry(s).Got? {
      var Got(e, n) := ReadEntry(s);
      DecodeIsApplyAll(s[n..], Apply(target, e));
    }
  }

  /** The last text of a kind, if it is not empty. */
  function LastText(es: seq<Entry>, id: bool): Option<Text> {
    if es == [] then None
    else
      var e := es[|es| - 1];
      if (if id then e.Id? else e.Name?) then (if e.text == [] then None else Some(e.text))
      else LastText(es[..|es| - 1], id)
  }

  function LastAge(es: seq<Entry>): Option<Int32> {
    if es == [] then None
    else
      var e := es[|es| - 1];
      if e.Age? then (if e.age == 0 then None else Some(e.age)) else LastAge(es[..|es| - 1])
  }

  function AllTags(es: seq<Entry>): seq<Text> {
    if es == [] then []
    else AllTags(es[..|es| - 1]) + if es[|es| - 1].TagEntry? then [es[|es| - 1].text] else []
  }

  function AllUnknowns(es: seq<Entry>): seq<seq<byte>> {
    if es == [] then []
    else AllUnknowns(es[..|es| - 1]) + if es[|es| - 1].Unknown? then [es[|es| - 1].raw] else []
  }

  lemma {:induction false} ApplyAllIsSummary(es: seq<Entry>)
    ensures ApplyAll(Empty(), es) ==
            Message(LastText(es, true), LastText(es, false), LastAge(es), AllTags(es), AllUnknowns(es))
  {
    if es != [] {
      var init, e := es[..|es| - 1], es[|es| - 1];
      assert es == init + [e];
      ApplyAllConcat(Empty(), init, [e]);
      assert [e][1..] == [];
      ApplyAllIsSummary(init);
    }
  }

  /** Last one wins: a buffer decodes exactly if it is a sequence of records, and then each scalar
      is that of its last record (an empty or zero one resets it), and all tags and all unknown
      records are kept in order. */
  lemma LastOneWins(s: seq<byte>)
    ensures Decode(s).Some? <==> ReadEntries(s).Some?
    ensures Decode(s).Some? ==>
              var es := ReadEntries(s).value;
              Decode(s).value ==
              Message(LastText(es, true), LastText(es, false), LastAge(es), AllTags(es), AllUnknowns(es))
  {
    DecodeIsApplyAll(s, Empty());
    if ReadEntries(s).Some? {
      ApplyAllIsSummary(ReadEntries(s).value);
    }
  }

  // --------------------------------------------------------- delimited messages

  function Delimited(m: Message): seq<byte> {
    Varint(|Encode(m)|) + Encode(m)
  }

  /** decodeDelimited: a length, then decode with that length. */
  function ReadDelimited(s: seq<byte>): (p: Parsed<Message>)
    ensures p.Got? ==> 0 < p.size <= |s|
  {
    match ReadVarint(s)
    case Bad => Bad
    case Got(v, n) =>
      match DecodeUpTo(s[n..], v % TWO_32, Empty())
      case Bad => Bad
      case Got(m, r) => Got(m, n + r)
  }

  /** decodeDelimited over and over, to the end of the buffer. */
  function ReadStream(s: seq<byte>): Option<seq<Message>>
    decreases s
  {
    if s == [] then Some([])
    else match ReadDelimited(s)
      case Bad => None
      case Got(m, n) =>
        match ReadStream(s[n..])
        case None => None
        case Some(ms) => Some([m] + ms)
  }

  function WriteStream(ms: seq<Message>): seq<byte> {
    if ms == [] then [] else WriteStream(ms[..|ms| - 1]) + Delimited(ms[|ms| - 1])
  }

  /** A body that decodes is decoded the same with other bytes behind it, and no more is consumed. */
  lemma {:induction false} DecodeBody(body: seq<byte>, rest: seq<byte>, target: Message)
    requires DecodeInto(body, target).Some?
    ensures DecodeUpTo(body + rest, |body|, target) == Got(DecodeInto(body, target).value, |body|)
    decreases body
  {
    hide ReadEntry, Apply;
    if body != [] {
      var Got(e, n) := ReadEntry(body);
      EntryLocal(body, body[n..] + rest);
      assert body[..n] + (body[n..] + rest) == body + rest;
      assert (body + rest)[n..] == body[n..] + rest;
      DecodeBody(body[n..], rest, Apply(target, e));
    }
  }

  /** What decode with a length reads: whole records, up to the first end of a record that is not
      before the length. */
  lemma {:induction false} DecodeUpToReads(s: seq<byte>, length: int, target: Message)
    requires DecodeUpTo(s, length, target).Got?
    ensures var Got(m, n) := DecodeUpTo(s, length, target);
            && length <= n && DecodeInto(s[..n], target) == Some(m)
            && (n > 0 ==> exists k :: 0 <= k < n && k < length && ReadEntry(s[k..]).Got?
                                      && k + ReadEntry(s[k..]).size == n)
    decreases s
  {
    hide ReadEntry, Apply;
    if length <= 0 {
    } else {
      var Got(e, a) := ReadEntry(s);
      var Got(m, r) := DecodeUpTo(s[a..], length - a, Apply(target, e));
      var n := a + r;
      DecodeUpToReads(s[a..], length - a, Apply(target, e));
      EntryLocal(s, s[a..n]);
      assert s[..a] + s[a..n] == s[..n] && s[..n][a..] == s[a..][..r];
      if r == 0 {
        assert s[0..] == s;
      } else {
        var k :| 0 <= k < r && k < length - a && ReadEntry(s[a..][k..]).Got? && k + ReadEntry(s[a..][k..]).size == r;
        assert s[a..][k..] == s[a + k..];
      }
    }
  }

  predicate Deliverable(m: Message) {
    WellFormed(m) && |Encode(m)| < TWO_32
  }

  lemma Associative(a: seq<byte>, b: seq<byte>, c: seq<byte>)
    ensures (a + b) + c == a + (b + c)
  {
  }

  lemma ReadDelimitedParts(s: seq<byte>, v: nat, n: nat, m: Message, r: nat)
    requires ReadVarint(s) == Got(v, n) && v < TWO_32
    requires DecodeUpTo(s[n..], v, Empty()) == Got(m, r)
    ensures ReadDelimited(s) == Got(m, n + r)
  {
    hide DecodeUpTo, ReadVarint;
  }

  lemma BodyRoundTrip(body: seq<byte>, m: Message, rest: seq<byte>)
    requires Decode(body) == Some(m) && |body| < TWO_32
    ensures ReadDelimited(Varint(|body|) + body + rest) == Got(m, |Varint(|body|) + body|)
  {
    hide DecodeUpTo, ReadVarint, ReadDelimited, Varint, DecodeInto;
    var prefix := Varint(|body|);
    var s := prefix + body + rest;
    Associative(prefix, body, rest);
    VarintRoundTrip(|body|, body + rest);
    assert s[|prefix|..] == body + rest;
    DecodeBody(body, rest, Empty());
    ReadDelimitedParts(s, |body|, |prefix|, m, |body|);
  }

  lemma DelimitedRoundTrip(m: Message, rest: seq<byte>)
    requires Deliverable(m)
    ensures ReadDelimited(Delimited(m) + rest) == Got(Normal(m), |Delimited(m)|)
  {
    DecodeEncoded(m);
    BodyRoundTrip(Encode(m), Normal(m), rest);
  }

  lemma {:induction false} WriteStreamFront(m: Message, ms: seq<Message>)
    ensures WriteStream([m] + ms) == Delimited(m) + WriteStream(ms)
    decreases ms
  {
    var all := [m] + ms;
    if ms == [] {
      assert all[..|all| - 1] == [];
    } else {
      var init, last := ms[..|ms| - 1], ms[|ms| - 1];
      assert all[..|all| - 1] == [m] + init && all[|all| - 1] == last;
      WriteStreamFront(m, init);
      Associative(Delimited(m), WriteStream(init), Delimited(last));
    }
  }

  function Normals(ms: seq<Message>): seq<Message> {
    if ms == [] then [] else [Normal(ms[0])] + Normals(ms[1..])
  }

  lemma ReadStreamFront(s: seq<byte>, m: Message, n: nat, ms: seq<Message>)
    requires ReadDelimited(s) == Got(m, n) && ReadStream(s[n..]) == Some(ms)
    ensures ReadStream(s) == Some([m] + ms)
  {
  }

  /** Any list of messages written one after the other with encodeDelimited is read back, up to
      default values, by repeated decodeDelimited, and nothing is left over. */
  lemma {:induction false} StreamRoundTrip(ms: seq<Message>)
    requires forall i :: 0 <= i < |ms| ==> Deliverable(ms[i])
    ensures ReadStream(WriteStream(ms)) == Some(Normals(ms))
    decreases ms
  {
    if ms != [] {
      var first, rest := Delimited(ms[0]), WriteStream(ms[1..]);
      assert ms == [ms[0]] + ms[1..];
      WriteStreamFront(ms[0], ms[1..]);
      DelimitedRoundTrip(ms[0], rest);
      StreamRoundTrip(ms[1..]);
      assert (first + rest)[|first|..] == rest;
      ReadStreamFront(first + rest, Normal(ms[0]), |first|, Normals(ms[1..]));
    }
  }
}
