/** JavaScript values as far as the binding looks at them through Node-API, and the conversions of
    numbers it applies. Reading a property has no side effect here. */
module JsValue {
  import opened Common

  datatype Number = Finite(value: real) | NonFinite

  datatype Kind =
    | Plain
    | Array(items: seq<Value>)
    | Function
    | Buffer(bytes: seq<int>)
    | Binding(auth: Option<nat>)   // wraps a native Authentication, which may hold nothing
    | KeyReader                    // wraps a native CryptoKeyReader

  datatype Value =
    | Undefined
    | Null
    | Boolean(flag: bool)
    | Num(number: Number)
    | Str(text: string)
    | Object(kind: Kind, props: map<string, Value>)
    | Other

  predicate Has(o: Value, name: string) {
    o.Object? && name in o.props
  }

  function Get(o: Value, name: string): Value {
    if Has(o, name) then o.props[name] else Undefined
  }

  predicate IsArray(v: Value) {
    v.Object? && v.kind.Array?
  }

  predicate IsFunction(v: Value) {
    v.Object? && v.kind.Function?
  }

  predicate IsBuffer(v: Value) {
    v.Object? && v.kind.Buffer?
  }

  /** Neither undefined nor null. */
  predicate IsPresent(v: Value) {
    !v.Undefined? && !v.Null?
  }

  // ------------------------------------------------------------------ numbers

  const INT32_SPAN := 0x1_0000_0000
  const INT32_MAX := 0x7fff_ffff
  const INT64_MAX := 0x7fff_ffff_ffff_ffff
  const INT64_MIN := -0x8000_0000_0000_0000

  /** Rounding towards zero. */
  function Trunc(r: real): int {
    if r >= 0.0 then r.Floor else -((-r).Floor)
  }

  /** The conversion of a wider integer to `int`. */
  function Wrap32(x: int): (w: int)
    ensures -INT32_SPAN / 2 <= w <= INT32_MAX
    ensures (x - w) % INT32_SPAN == 0
  {
    (x + INT32_SPAN / 2) % INT32_SPAN - INT32_SPAN / 2
  }

  /** Node-API's int64 conversion: saturating, and zero for NaN and the infinities. */
  function Int64Value(n: Number): (i: int)
    ensures INT64_MIN <= i <= INT64_MAX
    ensures n.Finite? && INT64_MIN <= Trunc(n.value) <= INT64_MAX ==> i == Trunc(n.value)
  {
    match n
    case NonFinite => 0
    case Finite(r) =>
      var t := Trunc(r);
      if t < INT64_MIN then INT64_MIN else if t > INT64_MAX then INT64_MAX else t
  }

  /** Node-API's int32 conversion: the low 32 bits, and zero for NaN and the infinities. */
  function Int32Value(n: Number): (i: int)
    ensures -INT32_SPAN / 2 <= i <= INT32_MAX
    ensures n.Finite? ==> (Trunc(n.value) - i) % INT32_SPAN == 0
    ensures n.NonFinite? ==> i == 0
  {
    match n
    case NonFinite => 0
    case Finite(r) => Wrap32(Trunc(r))
  }

  /** What rounding towards zero means. */
  lemma TruncRounds(r: real)
    ensures r >= 0.0 ==> 0.0 <= Trunc(r) as real <= r < Trunc(r) as real + 1.0
    ensures r <= 0.0 ==> 0.0 >= Trunc(r) as real >= r > Trunc(r) as real - 1.0
  {
  }

  /** Whole numbers that fit are kept. */
  lemma WholeNumbers(i: int)
    ensures Trunc(i as real) == i
    ensures INT64_MIN <= i <= INT64_MAX ==> Int64Value(Finite(i as real)) == i
    ensures -INT32_SPAN / 2 <= i <= INT32_MAX ==> Int32Value(Finite(i as real)) == i && Wrap32(i) == i
  {
  }

  // ------------------------------------------------------------------ strings

  function Utf8Char(c: char): seq<int> {
    var n := c as int;
    if n < 0x80 then [n]
    else if n < 0x800 then [0xC0 + n / 64, 0x80 + n % 64]
    else if n < 0x10000 then [0xE0 + n / 4096, 0x80 + n / 64 % 64, 0x80 + n % 64]
    else [0xF0 + n / 262144, 0x80 + n / 4096 % 64, 0x80 + n / 64 % 64, 0x80 + n % 64]
  }

  /** The bytes of a string. */
  function Utf8(s: string): seq<int> {
    if s == "" then [] else Utf8Char(s[0]) + Utf8(s[1..])
  }

  /** The character at the front of some UTF-8 bytes, and how many bytes it takes. */
  function FirstChar(s: seq<int>): (int, nat)
    requires s != []
  {
    if s[0] < 0x80 || |s| < 2 then (s[0], 1)
    else if s[0] < 0xE0 || |s| < 3 then ((s[0] - 0xC0) * 64 + (s[1] - 0x80), 2)
    else if s[0] < 0xF0 || |s| < 4 then ((s[0] - 0xE0) * 4096 + (s[1] - 0x80) * 64 + (s[2] - 0x80), 3)
    else ((s[0] - 0xF0) * 262144 + (s[1] - 0x80) * 4096 + (s[2] - 0x80) * 64 + (s[3] - 0x80), 4)
  }

  /** The code points of UTF-8 bytes. */
  function CodePoints(s: seq<int>): seq<int>
    decreases |s|
  {
    if s == [] then []
    else
      var (c, n) := FirstChar(s);
      if n > |s| then [c] else [c] + CodePoints(s[n..])
  }

  function Codes(s: string): seq<int> {
    if s == "" then [] else [s[0] as int] + Codes(s[1..])
  }

  lemma Utf8CharBytes(c: char, rest: seq<int>)
    ensures Utf8Char(c) != [] && forall i :: 0 <= i < |Utf8Char(c)| ==> 0 <= Utf8Char(c)[i] < 256
    ensures FirstChar(Utf8Char(c) + rest) == (c as int, |Utf8Char(c)|)
  {
    var n := c as int;
    var s := Utf8Char(c) + rest;
    if n < 0x80 {
      assert Utf8Char(c) == [n] && s[0] == n;
    } else if n < 0x800 {
      assert s[0] == 0xC0 + n / 64 && s[1] == 0x80 + n % 64;
    } else if n < 0x10000 {
      assert s[0] == 0xE0 + n / 4096 && s[1] == 0x80 + n / 64 % 64 && s[2] == 0x80 + n % 64;
      Digits(n);
    } else {
      assert s[0] == 0xF0 + n / 262144 && s[1] == 0x80 + n / 4096 % 64;
      assert s[2] == 0x80 + n / 64 % 64 && s[3] == 0x80 + n % 64;
      Digits(n);
    }
  }

  lemma Digits(n: nat)
    ensures n / 4096 * 4096 + n / 64 % 64 * 64 + n % 64 == n
    ensures n / 262144 * 64 + n / 4096 % 64 == n / 4096
  {
    assert n / 64 == n / 4096 * 64 + n / 64 % 64;
  }

  /** The bytes of a string are its characters in UTF-8: they are read back, whatever they are. */
  lemma {:induction false} Utf8RoundTrip(s: string)
    ensures CodePoints(Utf8(s)) == Codes(s)
    ensures forall i :: 0 <= i < |Utf8(s)| ==> 0 <= Utf8(s)[i] < 256
  {
    hide Utf8Char, FirstChar;
    if s == "" {
    } else {
      Utf8RoundTrip(s[1..]);
      Utf8CharBytes(s[0], Utf8(s[1..]));
      assert Utf8(s)[|Utf8Char(s[0])|..] == Utf8(s[1..]);
    }
  }
}
