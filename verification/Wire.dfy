/** The Protocol Buffers wire format, from the encoding specification: sections "Base 128
    Varints", "Message Structure" and "Length-Delimited Records". Every reader here is given the
    rest of the buffer and reports what it found and how many bytes that took; what follows those
    bytes never matters, which is what the `...Local` lemmas say. */
module Wire {
  import opened Common

  type byte = b: int | 0 <= b < 256

  const TWO_32 := 0x1_0000_0000
  const TWO_64 := 0x1_0000_0000_0000_0000

  datatype Parsed<+T> = Bad | Got(value: T, size: nat)

  // -------------------------------------------------------------------- varints

  function Varint(n: nat): (s: seq<byte>)
    ensures s != []
  {
    if n < 128 then [n] else [128 + n % 128] + Varint(n / 128)
  }

  /** A varint of which k bytes have been read already; ten is the most it may have. */
  function VarintFrom(s: seq<byte>, k: nat): (p: Parsed<nat>)
    ensures p.Got? ==> 0 < p.size <= |s|
    decreases s
  {
    if s == [] || k >= 10 then Bad
    else if s[0] < 128 then Got(s[0], 1)
    else match VarintFrom(s[1..], k + 1)
      case Bad => Bad
      case Got(v, size) => Got(s[0] - 128 + 128 * v, size + 1)
  }

  function ReadVarint(s: seq<byte>): (p: Parsed<nat>)
    ensures p.Got? ==> 0 < p.size <= |s|
  {
    VarintFrom(s, 0)
  }

  function Pow128(j: nat): (p: nat)
    ensures p > 0
  {
    if j == 0 then 1 else 128 * Pow128(j - 1)
  }

  lemma {:induction false} VarintRead(n: nat, rest: seq<byte>, k: nat)
    requires k < 10 && n < Pow128(10 - k)
    ensures VarintFrom(Varint(n) + rest, k) == Got(n, |Varint(n)|)
    decreases n
  {
    var s := Varint(n) + rest;
    if n >= 128 {
      assert s[0] == 128 + n % 128;
      assert s[1..] == Varint(n / 128) + rest;
      assert Pow128(10 - k) == 128 * Pow128(9 - k);
      assert n / 128 < Pow128(9 - k);
      assert k < 9;
      VarintRead(n / 128, rest, k + 1);
    }
  }

  /** Up to 64 bits survive being written and read, whatever follows. */
  lemma VarintRoundTrip(n: nat, rest: seq<byte>)
    requires n < TWO_64
    ensures ReadVarint(Varint(n) + rest) == Got(n, |Varint(n)|)
  {
    assert Pow128(0) == 1 && Pow128(1) == 128 && Pow128(2) == 16384;
    assert Pow128(4) == 128 * Pow128(3) && Pow128(3) == 128 * Pow128(2);
    assert Pow128(6) == 128 * Pow128(5) && Pow128(5) == 128 * Pow128(4);
    assert Pow128(8) == 128 * Pow128(7) && Pow128(7) == 128 * Pow128(6);
    assert Pow128(10) == 128 * Pow128(9) && Pow128(9) == 128 * Pow128(8);
    VarintRead(n, rest, 0);
  }

  lemma {:induction false} VarintLocal(s: seq<byte>, k: nat, rest: seq<byte>)
    requires VarintFrom(s, k).Got?
    ensures var n := VarintFrom(s, k).size; VarintFrom(s[..n] + rest, k) == VarintFrom(s, k)
    decreases s
  {
    var n := VarintFrom(s, k).size;
    if s[0] >= 128 {
      VarintLocal(s[1..], k + 1, rest);
      assert (s[..n] + rest)[1..] == s[1..][..n - 1] + rest;
    }
  }

  /** int32: the low 32 bits of a varint, as a signed number. */
  function Signed32(v: nat): (i: int)
    ensures -0x8000_0000 <= i < 0x8000_0000
  {
    var low := v % TWO_32;
    if low < 0x8000_0000 then low else low - TWO_32
  }

  /** A negative int32 is written as the 64-bit two's complement. */
  function Unsigned64(i: int): (v: nat)
    requires -0x8000_0000 <= i < 0x8000_0000
    ensures v < TWO_64
  {
    if i < 0 then i + TWO_64 else i
  }

  lemma SignedRoundTrip(i: int)
    requires -0x8000_0000 <= i < 0x8000_0000
    ensures Signed32(Unsigned64(i)) == i
  {
    if i < 0 {
      assert Unsigned64(i) == (i + TWO_32) + TWO_32 * (TWO_32 - 1);
      assert Unsigned64(i) % TWO_32 == i + TWO_32;
    }
  }

  // ----------------------------------------------------------------- text, tags

  /** A string as its UTF-8 bytes; its length has to fit 32 bits. */
  type Text = t: seq<byte> | |t| < TWO_32

  function WriteText(t: Text): seq<byte> {
    Varint(|t|) + t
  }

  function ReadText(s: seq<byte>): (p: Parsed<Text>)
    ensures p.Got? ==> 0 < p.size <= |s|
  {
    match ReadVarint(s)
    case Bad => Bad
    case Got(v, n) =>
      var length := v % TWO_32;
      if n + length > |s| then Bad else Got(s[n..n + length], n + length)
  }

  lemma TextRoundTrip(t: Text, rest: seq<byte>)
    ensures ReadText(WriteText(t) + rest) == Got(t, |WriteText(t)|)
  {
    var s := WriteText(t) + rest;
    assert s == Varint(|t|) + (t + rest);
    VarintRoundTrip(|t|, t + rest);
    var n := |Varint(|t|)|;
    assert s[n..n + |t|] == t;
  }

  lemma TextLocal(s: seq<byte>, rest: seq<byte>)
    requires ReadText(s).Got?
    ensures var n := ReadText(s).size; ReadText(s[..n] + rest) == ReadText(s)
  {
    var m := ReadVarint(s).size;
    var n := ReadText(s).size;
    VarintLocal(s, 0, s[m..n] + rest);
    assert s[..m] + (s[m..n] + rest) == s[..n] + rest;
    assert (s[..n] + rest)[m..n] == s[m..n];
  }

  datatype Tag = Tag(field: nat, wire: nat)

  /** Field numbers start at one, and a tag fits 32 bits. */
  function ReadTag(s: seq<byte>): (p: Parsed<Tag>)
    ensures p.Got? ==> 0 < p.size <= |s| && p.value.field > 0 && p.value.wire < 8
  {
    match ReadVarint(s)
    case Bad => Bad
    case Got(v, n) => if v >= TWO_32 || v < 8 then Bad else Got(Tag(v / 8, v % 8), n)
  }

  lemma TagLocal(s: seq<byte>, rest: seq<byte>)
    requires ReadTag(s).Got?
    ensures var n := ReadTag(s).size; ReadTag(s[..n] + rest) == ReadTag(s)
  {
    VarintLocal(s, 0, rest);
  }

  // ------------------------------------------------------------- skipping values

  /** The size of the value of a record with this tag: varint, 64 bit, length delimited, group,
      32 bit. A group ends with the end tag of the same field. */
  function SkipValue(s: seq<byte>, tag: Tag): (r: Option<nat>)
    ensures r.Some? ==> r.value <= |s|
    decreases s, 1
  {
    if tag.wire == 0 then
      (if ReadVarint(s).Got? then Some(ReadVarint(s).size) else None)
    else if tag.wire == 1 then
      (if |s| >= 8 then Some(8) else None)
    else if tag.wire == 2 then
      (if ReadText(s).Got? then Some(ReadText(s).size) else None)
    else if tag.wire == 3 then SkipGroup(s, tag.field)
    else if tag.wire == 5 then
      (if |s| >= 4 then Some(4) else None)
    else None
  }

  function SkipGroup(s: seq<byte>, field: nat): (r: Option<nat>)
    ensures r.Some? ==> r.value <= |s|
    decreases s, 0
  {
    match ReadTag(s)
    case Bad => None
    case Got(tag, n) =>
      if tag.wire == 4 then (if tag.field == field then Some(n) else None)
      else match SkipValue(s[n..], tag)
        case None => None
        case Some(m) =>
          match SkipGroup(s[n + m..], field)
          case None => None
          case Some(r) => Some(n + m + r)
  }

  /** Dropping n bytes of a buffer that was cut after `total` bytes and continued differently. */
  lemma DropOfCut(s: seq<byte>, n: nat, total: nat, rest: seq<byte>)
    requires n <= total <= |s|
    ensures (s[..total] + rest)[n..] == s[n..][..total - n] + rest
  {
  }

  lemma KeepOfCut(s: seq<byte>, n: nat, total: nat, rest: seq<byte>)
    requires n <= total <= |s|
    ensures s[..total] + rest == s[..n] + (s[n..total] + rest)
  {
  }

  /** One record inside a group, then the rest of the group. */
  lemma SkipGroupRecord(s: seq<byte>, field: nat, tag: Tag, n: nat, m: nat, r: nat)
    requires ReadTag(s) == Got(tag, n) && tag.wire != 4
    requires SkipValue(s[n..], tag) == Some(m)
    requires SkipGroup(s[n + m..], field) == Some(r)
    ensures SkipGroup(s, field) == Some(n + m + r)
  {
    hide ReadTag, SkipValue;
  }

  lemma SkipGroupEnd(s: seq<byte>, field: nat, tag: Tag, n: nat)
    requires ReadTag(s) == Got(tag, n) && tag.wire == 4
    ensures SkipGroup(s, field) == if tag.field == field then Some(n) else None
  {
    hide ReadTag, SkipValue;
  }

  /** Skipping looks at no more than it skips: it can be cut anywhere after that. */
  lemma {:induction false} SkipValueLocal(s: seq<byte>, tag: Tag, total: nat, rest: seq<byte>)
    requires SkipValue(s, tag).Some? && SkipValue(s, tag).value <= total <= |s|
    ensures SkipValue(s[..total] + rest, tag) == SkipValue(s, tag)
    decreases s, 1
  {
    var n := SkipValue(s, tag).value;
    if tag.wire == 0 {
      KeepOfCut(s, n, total, rest);
      VarintLocal(s, 0, s[n..total] + rest);
    } else if tag.wire == 2 {
      KeepOfCut(s, n, total, rest);
      TextLocal(s, s[n..total] + rest);
    } else if tag.wire == 3 {
      SkipGroupLocal(s, tag.field, total, rest);
    }
  }

  lemma {:induction false} SkipGroupLocal(s: seq<byte>, field: nat, total: nat, rest: seq<byte>)
    requires SkipGroup(s, field).Some? && SkipGroup(s, field).value <= total <= |s|
    ensures SkipGroup(s[..total] + rest, field) == SkipGroup(s, field)
    decreases s, 0
  {
    var Got(tag, n) := ReadTag(s);
    var cut := s[..total] + rest;
    assert ReadTag(cut) == Got(tag, n) by {
      KeepOfCut(s, n, total, rest);
      TagLocal(s, s[n..total] + rest);
    }
    if tag.wire == 4 {
      SkipGroupEnd(s, field, tag, n);
      SkipGroupEnd(cut, field, tag, n);
    } else {
      var m := SkipValue(s[n..], tag).value;
      var r := SkipGroup(s[n + m..], field).value;
      SkipGroupRecord(s, field, tag, n, m, r);
      assert SkipValue(cut[n..], tag) == Some(m) by {
        DropOfCut(s, n, total, rest);
        SkipValueLocal(s[n..], tag, total - n, rest);
      }
      assert SkipGroup(cut[n + m..], field) == Some(r) by {
        DropOfCut(s, n + m, total, rest);
        SkipGroupLocal(s[n + m..], field, total - n - m, rest);
      }
      SkipGroupRecord(cut, field, tag, n, m, r);
    }
  }

  // ------------------------------------------------ values, as a writer makes them

  /** A value of each wire type, by itself. */
  datatype Raw =
    | Varying(v: nat)                // wire type 0
    | Eight(bytes: seq<byte>)        // wire type 1
    | Counted(text: Text)            // wire type 2
    | Group(records: seq<Record>)    // wire types 3 and 4
    | Four(bytes: seq<byte>)         // wire type 5

  datatype Record = Record(field: nat, value: Raw)

  const MAX_FIELD := 0x1fff_ffff

  predicate ValidRaw(v: Raw) {
    match v
    case Varying(n) => n < TWO_64
    case Eight(bytes) => |bytes| == 8
    case Counted(_) => true
    case Group(records) => forall i :: 0 <= i < |records| ==> ValidRecord(records[i])
    case Four(bytes) => |bytes| == 4
  }

  predicate ValidRecord(r: Record) {
    0 < r.field <= MAX_FIELD && ValidRaw(r.value)
  }

  function WireType(v: Raw): nat {
    match v
    case Varying(_) => 0
    case Eight(_) => 1
    case Counted(_) => 2
    case Group(_) => 3
    case Four(_) => 5
  }

  function WriteTag(field: nat, wire: nat): seq<byte> {
    Varint(field * 8 + wire)
  }

  /** A value in field `field`; only a group needs to know. */
  function WriteRaw(v: Raw, field: nat): seq<byte>
    decreases v, 0
  {
    match v
    case Varying(n) => Varint(n)
    case Eight(bytes) => bytes
    case Counted(text) => WriteText(text)
    case Group(records) => WriteRecords(records) + WriteTag(field, 4)
    case Four(bytes) => bytes
  }

  function WriteRecords(records: seq<Record>): seq<byte>
    decreases records, 1
  {
    if records == [] then [] else WriteRecord(records[0]) + WriteRecords(records[1..])
  }

  function WriteRecord(r: Record): seq<byte>
    decreases r, 0
  {
    WriteTag(r.field, WireType(r.value)) + WriteRaw(r.value, r.field)
  }

  lemma TagRoundTrip(field: nat, wire: nat, rest: seq<byte>)
    requires 0 < field <= MAX_FIELD && wire < 8
    ensures ReadTag(WriteTag(field, wire) + rest) == Got(Tag(field, wire), |WriteTag(field, wire)|)
  {
    hide Varint, ReadVarint;
    VarintRoundTrip(field * 8 + wire, rest);
    assert (field * 8 + wire) / 8 == field && (field * 8 + wire) % 8 == wire;
  }

  /** Skipping takes exactly what was written, whatever follows. */
  lemma {:induction false} SkipWritten(v: Raw, field: nat, rest: seq<byte>)
    requires ValidRaw(v) && 0 < field <= MAX_FIELD
    ensures SkipValue(WriteRaw(v, field) + rest, Tag(field, WireType(v))) == Some(|WriteRaw(v, field)|)
    decreases v, 0
  {
    hide ReadVarint, ReadText, WriteText, SkipGroup, Varint;
    match v
    case Varying(n) => VarintRoundTrip(n, rest);
    case Eight(_) =>
    case Counted(text) => TextRoundTrip(text, rest);
    case Group(records) =>
      Regroup(WriteRecords(records), WriteTag(field, 4), rest);
      SkipRecords(records, field, rest);
    case Four(_) =>
  }

  lemma {:induction false} SkipValueOf(r: Record, rest: seq<byte>)
    requires ValidRecord(r)
    ensures SkipValue(WriteRaw(r.value, r.field) + rest, Tag(r.field, WireType(r.value)))
         == Some(|WriteRaw(r.value, r.field)|)
    decreases r, 0
  {
    hide SkipValue, WriteRaw;
    SkipWritten(r.value, r.field, rest);
  }

  lemma Regroup(a: seq<byte>, b: seq<byte>, c: seq<byte>)
    ensures (a + b) + c == a + (b + c)
  {
  }

  lemma {:induction false} SkipRecords(records: seq<Record>, field: nat, rest: seq<byte>)
    requires (forall i :: 0 <= i < |records| ==> ValidRecord(records[i])) && 0 < field <= MAX_FIELD
    ensures SkipGroup(WriteRecords(records) + (WriteTag(field, 4) + rest), field)
         == Some(|WriteRecords(records)| + |WriteTag(field, 4)|)
    decreases records, 1
  {
    hide ReadTag, SkipValue, SkipGroup, WriteTag, WriteRaw;
    var end := WriteTag(field, 4) + rest;
    if records == [] {
      assert WriteRecords(records) + end == end;
      TagRoundTrip(field, 4, rest);
      SkipGroupEnd(end, field, Tag(field, 4), |WriteTag(field, 4)|);
    } else {
      var r, others := records[0], WriteRecords(records[1..]) + end;
      var tag, value := WriteTag(r.field, WireType(r.value)), WriteRaw(r.value, r.field);
      var s := WriteRecords(records) + end;
      FrontOfRecords(tag, value, WriteRecords(records[1..]), end);
      TagRoundTrip(r.field, WireType(r.value), value + others);
      SkipValueOf(r, others);
      SkipRecords(records[1..], field, rest);
      SkipGroupRecord(s, field, Tag(r.field, WireType(r.value)), |tag|, |value|,
                      |WriteRecords(records[1..])| + |WriteTag(field, 4)|);
    }
  }

  lemma FrontOfRecords(tag: seq<byte>, value: seq<byte>, more: seq<byte>, end: seq<byte>)
    ensures var s := (tag + value + more) + end;
            && s == tag + (value + (more + end))
            && s[|tag|..] == value + (more + end)
            && s[|tag| + |value|..] == more + end
  {
  }

  /** Of the wire types that are no value, nothing is skipped. */
  lemma NoSuchValue(s: seq<byte>, field: nat, wire: nat)
    requires wire == 4 || wire == 6 || wire == 7
    ensures SkipValue(s, Tag(field, wire)).None?
  {
  }

  // ------------------------------------------------- what a varint's bytes stand for

  /** Base 128, the least significant digit first. */
  function Base128(s: seq<byte>): nat {
    if s == [] then 0 else s[0] % 128 + 128 * Base128(s[1..])
  }

  /** Every byte but the last one has its continuation bit set. */
  predicate Continued(s: seq<byte>) {
    s != [] && s[|s| - 1] < 128 && forall i :: 0 <= i < |s| - 1 ==> s[i] >= 128
  }

  /** The bytes of a varint are the number in base 128, each but the last with its continuation bit,
      and no more of them than are needed. */
  lemma {:induction false} VarintBytes(n: nat)
    ensures Continued(Varint(n)) && Base128(Varint(n)) == n
    ensures |Varint(n)| > 1 ==> Varint(n)[|Varint(n)| - 1] > 0
    decreases n
  {
    if n < 128 {
      assert Varint(n) == [n] && [n][1..] == [];
    } else {
      var rest := Varint(n / 128);
      VarintBytes(n / 128);
      assert Varint(n) == [128 + n % 128] + rest && Varint(n)[1..] == rest;
      assert Varint(n)[|Varint(n)| - 1] == rest[|rest| - 1];
    }
  }

  /** A varint is read from its bytes, shortest or not, if there are at most ten of them, and from
      nothing else. */
  lemma {:induction false} VarintIsRead(s: seq<byte>, k: nat)
    ensures VarintFrom(s, k).Got? ==>
              var n := VarintFrom(s, k).size;
              n <= |s| && n + k <= 10 && Continued(s[..n]) && VarintFrom(s, k).value == Base128(s[..n])
    ensures VarintFrom(s, k).Bad? ==> forall n :: 0 < n <= |s| && n + k <= 10 ==> !Continued(s[..n])
    decreases s
  {
    if s == [] || k >= 10 {
    } else if s[0] < 128 {
      assert s[..1][1..] == [];
    } else {
      VarintIsRead(s[1..], k + 1);
      match VarintFrom(s[1..], k + 1)
      case Got(_, m) => ContinuedFront(s, m + 1);
      case Bad =>
        forall n | 0 < n <= |s| && n + k <= 10 ensures !Continued(s[..n]) {
          if n > 1 {
            ContinuedFront(s, n);
            assert !Continued(s[1..][..n - 1]);
          }
        }
    }
  }

  lemma ContinuedFront(s: seq<byte>, n: nat)
    requires 1 < n <= |s| && s[0] >= 128
    ensures Continued(s[..n]) <==> Continued(s[1..][..n - 1])
    ensures Base128(s[..n]) == s[0] - 128 + 128 * Base128(s[1..][..n - 1])
  {
    var a, b := s[..n], s[1..][..n - 1];
    assert a[1..] == b;
    assert forall i :: 0 <= i < |b| ==> a[i + 1] == b[i];
  }

  lemma VarintStep(n: nat)
    ensures Varint(n) == if n < 128 then [n] else [128 + n % 128] + Varint(n / 128)
  {
  }

  /** The example of the encoding specification, and its rule for negative int32 values. */
  lemma SpecifiedBytes()
    ensures Varint(150) == [0x96, 0x01]
    ensures Varint(Unsigned64(-1)) == [255, 255, 255, 255, 255, 255, 255, 255, 255, 1]
    ensures Signed32(TWO_64 - 1) == -1
  {
    hide Varint;
    VarintStep(150);
    VarintStep(1);
    VarintStep(0xff);
    VarintStep(0x7fff);
    VarintStep(0x3f_ffff);
    VarintStep(0x1fff_ffff);
    VarintStep(0xf_ffff_ffff);
    VarintStep(0x7ff_ffff_ffff);
    VarintStep(0x3_ffff_ffff_ffff);
    VarintStep(0x1ff_ffff_ffff_ffff);
    VarintStep(TWO_64 - 1);
  }
}
