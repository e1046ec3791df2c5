/** src/ConsumerConfig.cc, InitConfig, and Consumer::NewInstance up to the subscribe call: which
    configurations are refused, with what error, and what the C++ client is asked for the others.

    InitConfig ends in one of three ways: nothing is wrong, the promise is rejected, or an exception
    leaves it and NewInstance. (The exception of an unknown schemaType is pending until InitConfig's
    next look at the configuration, which comes before the listener is created.) How a reason is
    worded is a parameter, as are the answers of the C++ client and JavaScript's conversion of a
    value to a string. */
module ConsumerConfig {
  import opened Common
  import opened JsValue
  import opened ThreadSafeFunction
  import D = Deferred
  import L = ListenerObjects
  import P = ListenerProtocol
  import Schemas = SchemaInfo

  const MIN_ACK_TIMEOUT_MILLIS := 10000

  type BatchPolicy = (int, int, int)

  datatype Reason =
    | NoTarget
    | NoSubscription
    | AckTimeoutTooSmall
    | NegativeNAckTimeout
    | EmptyBatchPolicy
    | BatchPolicyRefused
    | RangeReversed(index: nat, start: int, end: int)
    | RangeFormat(index: nat)
    | RangeNotObject(index: nat)

  /** What an exception is about. */
  datatype Cause =
    | NoConfig                                 // the argument is undefined or null
    | BadSchema(error: Schemas.SchemaError)
    | UnconvertibleProperty
    | NotAKeyReader                            // cryptoKeyReader wraps no native key reader
    | RangesNotTaken

  /** What InitConfig learns from others: whether the C++ client accepts a batch policy and takes a
      list of sticky ranges, and what JavaScript makes of a value that is converted to a string, if
      it does not throw. */
  datatype Outside = Outside(
    accepts: BatchPolicy -> bool,
    takes: seq<(int, int)> -> bool,
    toText: Value -> Option<string>)

  // ------------------------------------------------------- reading the options

  function StringOption(cfg: Value, name: string): string {
    if Get(cfg, name).Str? then Get(cfg, name).text else ""
  }

  function ArrayOption(o: Value, name: string): seq<Value> {
    if IsArray(Get(o, name)) then Get(o, name).kind.items else []
  }

  /** The strings among some values, in order. */
  function Strings(items: seq<Value>): seq<string> {
    if items == [] then []
    else
      var last := items[|items| - 1];
      Strings(items[..|items| - 1]) + if last.Str? then [last.text] else []
  }

  function Int64Option(o: Value, name: string): Option<int> {
    if Get(o, name).Num? then Some(Int64Value(Get(o, name).number)) else None
  }

  function Batch(policy: Value): BatchPolicy {
    (if Get(policy, "maxNumMessages").Num? then Int32Value(Get(policy, "maxNumMessages").number) else -1,
     if Get(policy, "maxNumBytes").Num? then Wrap32(Int64Value(Get(policy, "maxNumBytes").number))
     else 10 * 1024 * 1024,
     if Get(policy, "timeoutMs").Num? then Wrap32(Int64Value(Get(policy, "timeoutMs").number)) else 100)
  }

  function RangeOf(v: Value): (int, int)
    requires Get(v, "start").Num? && Get(v, "end").Num?
  {
    (Int32Value(Get(v, "start").number), Int32Value(Get(v, "end").number))
  }

  function RangeProblem(v: Value, i: nat): Option<Reason> {
    if !v.Object? then Some(RangeNotObject(i))
    else if !Get(v, "start").Num? || !Get(v, "end").Num? then Some(RangeFormat(i))
    else if RangeOf(v).0 > RangeOf(v).1 then Some(RangeReversed(i, RangeOf(v).0, RangeOf(v).1))
    else None
  }

  predicate GoodRange(v: Value) {
    v.Object? && Get(v, "start").Num? && Get(v, "end").Num? && RangeOf(v).0 <= RangeOf(v).1
  }

  function Ranges(items: seq<Value>): seq<(int, int)>
    requires forall i :: 0 <= i < |items| ==> GoodRange(items[i])
  {
    seq(|items|, i requires 0 <= i < |items| => assert GoodRange(items[i]); RangeOf(items[i]))
  }

  /** The pair a sticky range stands for, by the names of its options. */
  ghost predicate RangeNamed(v: Value, p: (int, int)) {
    && (exists x, y :: Get(v, "start") == Num(x) && Get(v, "end") == Num(y)
                       && p.0 == Int32Value(x) && p.1 == Int32Value(y))
    && p.0 <= p.1
  }

  ghost predicate RangesNamed(items: seq<Value>, ps: seq<(int, int)>) {
    |ps| == |items| && forall i :: 0 <= i < |items| ==> RangeNamed(items[i], ps[i])
  }

  lemma RangesAreNamed(items: seq<Value>)
    requires forall i :: 0 <= i < |items| ==> GoodRange(items[i])
    ensures RangesNamed(items, Ranges(items))
  {
    hide Int32Value;
    forall i | 0 <= i < |items| ensures RangeNamed(items[i], Ranges(items)[i]) {
      assert GoodRange(items[i]);
      assert Get(items[i], "start") == Num(Get(items[i], "start").number);
      assert Get(items[i], "end") == Num(Get(items[i], "end").number);
    }
  }

  /** A batch policy by the names of its options and their defaults. */
  ghost predicate BatchNamed(policy: Value, b: BatchPolicy) {
    && (forall x :: Get(policy, "maxNumMessages") == Num(x) ==> b.0 == Int32Value(x))
    && (!Get(policy, "maxNumMessages").Num? ==> b.0 == -1)
    && (forall x :: Get(policy, "maxNumBytes") == Num(x) ==> b.1 == Wrap32(Int64Value(x)))
    && (!Get(policy, "maxNumBytes").Num? ==> b.1 == 10485760)
    && (forall x :: Get(policy, "timeoutMs") == Num(x) ==> b.2 == Wrap32(Int64Value(x)))
    && (!Get(policy, "timeoutMs").Num? ==> b.2 == 100)
  }

  lemma BatchIsNamed(policy: Value)
    ensures BatchNamed(policy, Batch(policy))
  {
    hide Int32Value, Int64Value, Wrap32;
  }

  // ------------------------------------------------------------- what is wanted

  predicate HasTarget(cfg: Value) {
    || StringOption(cfg, "topic") != ""
    || (exists i :: 0 <= i < |ArrayOption(cfg, "topics")| && ArrayOption(cfg, "topics")[i].Str?)
    || StringOption(cfg, "topicsPattern") != ""
  }

  predicate AckTimeoutFits(cfg: Value) {
    var t := Int64Option(cfg, "ackTimeoutMs");
    t.Some? ==> t.value == 0 || t.value >= MIN_ACK_TIMEOUT_MILLIS
  }

  predicate NAckTimeoutFits(cfg: Value) {
    var t := Int64Option(cfg, "nAckRedeliverTimeoutMs");
    t.Some? ==> t.value >= 0
  }

  predicate SchemaFits(cfg: Value, toText: Value -> Option<string>) {
    var s := Get(cfg, "schema");
    s.Object? ==> Schemas.KnownType(s) && Schemas.PropertiesConvert(s, toText)
  }

  /** Each property is read again under its name as a C string. */
  predicate PropertiesFit(cfg: Value, toText: Value -> Option<string>) {
    var p := Get(cfg, "properties");
    p.Object? ==> forall k :: k in p.props ==> toText(Get(p, CString(k))).Some?
  }

  predicate KeyReaderFits(cfg: Value) {
    var r := Get(cfg, "cryptoKeyReader");
    r.Object? ==> r.kind.KeyReader?
  }

  predicate SomeLimit(p: BatchPolicy) {
    p.0 > 0 || p.1 > 0 || p.2 > 0
  }

  predicate BatchFits(cfg: Value, accepts: BatchPolicy -> bool) {
    var p := Get(cfg, "batchReceivePolicy");
    p.Object? ==> SomeLimit(Batch(p)) && accepts(Batch(p))
  }

  function RangeItems(cfg: Value): seq<Value> {
    ArrayOption(Get(cfg, "keySharedPolicy"), "stickyRanges")
  }

  predicate RangesFit(cfg: Value) {
    forall i :: 0 <= i < |RangeItems(cfg)| ==> GoodRange(RangeItems(cfg)[i])
  }

  predicate GivesRanges(cfg: Value) {
    IsArray(Get(Get(cfg, "keySharedPolicy"), "stickyRanges"))
  }

  predicate RangesTaken(cfg: Value, takes: seq<(int, int)> -> bool) {
    GivesRanges(cfg) && RangesFit(cfg) ==> takes(Ranges(RangeItems(cfg)))
  }

  /** The checks that reject before anything else is read. */
  predicate PassesChecks(cfg: Value) {
    && HasTarget(cfg)
    && StringOption(cfg, "subscription") != ""
    && AckTimeoutFits(cfg)
    && NAckTimeoutFits(cfg)
  }

  /** The configurations that lead to a subscribe call. */
  predicate Acceptable(cfg: Value, o: Outside) {
    && PassesChecks(cfg)
    && SchemaFits(cfg, o.toText)
    && PropertiesFit(cfg, o.toText)
    && KeyReaderFits(cfg)
    && BatchFits(cfg, o.accepts)
    && RangesFit(cfg)
    && RangesTaken(cfg, o.takes)
  }

  /** The configurations on which an exception leaves InitConfig: there is none; or it passes the first
      checks, and its schema or a property cannot be read, its key reader is foreign, or the C++
      client throws at sticky ranges that nothing before them was rejected for. */
  predicate Throws(cfg: Value, o: Outside) {
    || !IsPresent(cfg)
    || (&& PassesChecks(cfg)
        && (|| !SchemaFits(cfg, o.toText)
            || !PropertiesFit(cfg, o.toText)
            || !KeyReaderFits(cfg)
            || (BatchFits(cfg, o.accepts) && RangesFit(cfg) && !RangesTaken(cfg, o.takes))))
  }

  // ---------------------------------------------------------------- the verdict

  datatype Verdict = Accept | Refuse(reason: Reason) | Throw(cause: Cause)

  /** The options that come before the listener is created. */
  function EarlyVerdict(cfg: Value, toText: Value -> Option<string>): Verdict {
    if !IsPresent(cfg) then Throw(NoConfig)
    else if !HasTarget(cfg) then Refuse(NoTarget)
    else if StringOption(cfg, "subscription") == "" then Refuse(NoSubscription)
    else if !AckTimeoutFits(cfg) then Refuse(AckTimeoutTooSmall)
    else if !NAckTimeoutFits(cfg) then Refuse(NegativeNAckTimeout)
    else if !SchemaFits(cfg, toText) then Throw(BadSchema(Schemas.Parse(Get(cfg, "schema"), toText).error))
    else if !PropertiesFit(cfg, toText) then Throw(UnconvertibleProperty)
    else Accept
  }

  function BatchVerdict(cfg: Value, accepts: BatchPolicy -> bool): Verdict {
    var p := Get(cfg, "batchReceivePolicy");
    if !p.Object? then Accept
    else if !SomeLimit(Batch(p)) then Refuse(EmptyBatchPolicy)
    else if !accepts(Batch(p)) then Refuse(BatchPolicyRefused)
    else Accept
  }

  /** The first problem at index k or later. */
  function RangeVerdict(items: seq<Value>, k: nat): Verdict
    decreases |items| - k
  {
    if k >= |items| then Accept
    else if RangeProblem(items[k], k).Some? then Refuse(RangeProblem(items[k], k).value)
    else RangeVerdict(items, k + 1)
  }

  /** The options that come after it. */
  function LateVerdict(cfg: Value, o: Outside): Verdict {
    if !KeyReaderFits(cfg) then Throw(NotAKeyReader)
    else if !BatchVerdict(cfg, o.accepts).Accept? then BatchVerdict(cfg, o.accepts)
    else if !RangeVerdict(RangeItems(cfg), 0).Accept? then RangeVerdict(RangeItems(cfg), 0)
    else if !RangesTaken(cfg, o.takes) then Throw(RangesNotTaken)
    else Accept
  }

  /** How InitConfig ends. */
  function Judge(cfg: Value, o: Outside): Verdict {
    if !EarlyVerdict(cfg, o.toText).Accept? then EarlyVerdict(cfg, o.toText) else LateVerdict(cfg, o)
  }

  /** The deferred after a verdict: rejected once with the reason's text, or left alone. */
  function Told(before: D.Core, v: Verdict, text: Reason -> string): D.Core {
    if v.Refuse? then D.Decide(before, D.Error(text(v.reason))) else before
  }

  lemma {:induction false} RangeVerdictIsFirst(items: seq<Value>, k: nat)
    requires k <= |items|
    ensures RangeVerdict(items, k).Accept? <==> forall i :: k <= i < |items| ==> GoodRange(items[i])
    ensures !RangeVerdict(items, k).Throw?
    ensures RangeVerdict(items, k).Refuse? ==>
              exists i :: k <= i < |items| && RangeProblem(items[i], i) == Some(RangeVerdict(items, k).reason)
                          && forall j :: k <= j < i ==> GoodRange(items[j])
    decreases |items| - k
  {
    if k < |items| {
      RangeVerdictIsFirst(items, k + 1);
      if RangeProblem(items[k], k).None? && RangeVerdict(items, k + 1).Refuse? {
        var i :| k + 1 <= i < |items| && RangeProblem(items[i], i) == Some(RangeVerdict(items, k + 1).reason)
                 && forall j :: k + 1 <= j < i ==> GoodRange(items[j]);
        assert forall j :: k <= j < i ==> GoodRange(items[j]);
      }
    }
  }

  /** InitConfig accepts exactly the acceptable configurations, throws exactly on those that are said
      to throw, and rejects the others. */
  lemma VerdictOfConfiguration(cfg: Value, o: Outside)
    ensures Judge(cfg, o).Accept? <==> Acceptable(cfg, o)
    ensures Judge(cfg, o).Throw? <==> Throws(cfg, o)
    ensures Judge(cfg, o).Refuse? <==> !Acceptable(cfg, o) && !Throws(cfg, o)
  {
    RangeVerdictIsFirst(RangeItems(cfg), 0);
  }

  /** Each reason is given for its own problem, and only if nothing before it was in the way. */
  lemma ReasonsInOrder(cfg: Value, o: Outside)
    ensures
      var v := Judge(cfg, o);
      var checked := PassesChecks(cfg) && SchemaFits(cfg, o.toText) && PropertiesFit(cfg, o.toText);
      && (v == Refuse(NoTarget) <==> IsPresent(cfg) && !HasTarget(cfg))
      && (v == Refuse(NoSubscription) <==> HasTarget(cfg) && StringOption(cfg, "subscription") == "")
      && (v == Refuse(AckTimeoutTooSmall) <==>
            HasTarget(cfg) && StringOption(cfg, "subscription") != "" && !AckTimeoutFits(cfg))
      && (v == Refuse(NegativeNAckTimeout) <==>
            HasTarget(cfg) && StringOption(cfg, "subscription") != "" && AckTimeoutFits(cfg) && !NAckTimeoutFits(cfg))
      && (v == Throw(NoConfig) <==> !IsPresent(cfg))
      && ((v.Throw? && v.cause.BadSchema?) <==> PassesChecks(cfg) && !SchemaFits(cfg, o.toText))
      && (v == Throw(UnconvertibleProperty) <==>
            PassesChecks(cfg) && SchemaFits(cfg, o.toText) && !PropertiesFit(cfg, o.toText))
      && (v == Throw(NotAKeyReader) <==> checked && !KeyReaderFits(cfg))
      && (v == Refuse(EmptyBatchPolicy) || v == Refuse(BatchPolicyRefused) <==>
            checked && KeyReaderFits(cfg) && !BatchFits(cfg, o.accepts))
      && (v == Throw(RangesNotTaken) <==>
            checked && KeyReaderFits(cfg) && BatchFits(cfg, o.accepts) && RangesFit(cfg) && !RangesTaken(cfg, o.takes))
  {
    RangeVerdictIsFirst(RangeItems(cfg), 0);
    OnlyRangeReasons(RangeItems(cfg), 0);
  }

  lemma {:induction false} OnlyRangeReasons(items: seq<Value>, k: nat)
    ensures var v := RangeVerdict(items, k);
            v.Refuse? ==> v.reason.RangeReversed? || v.reason.RangeFormat? || v.reason.RangeNotObject?
    decreases |items| - k
  {
    if k >= |items| {
    } else {
      OnlyRangeReasons(items, k + 1);
    }
  }

  /** A refused sticky range is the first bad one, and the error names its index. */
  lemma RefusedRangeIsFirst(cfg: Value, o: Outside)
    requires EarlyVerdict(cfg, o.toText).Accept? && KeyReaderFits(cfg)
    requires BatchVerdict(cfg, o.accepts).Accept? && !RangesFit(cfg)
    ensures
      var items := RangeItems(cfg);
      exists i :: 0 <= i < |items| && !GoodRange(items[i]) && (forall j :: 0 <= j < i ==> GoodRange(items[j]))
                  && Judge(cfg, o) == Refuse(RangeProblem(items[i], i).value)
  {
    RangeVerdictIsFirst(RangeItems(cfg), 0);
    var items := RangeItems(cfg);
    var i :| 0 <= i < |items| && RangeProblem(items[i], i) == Some(RangeVerdict(items, 0).reason)
             && forall j :: 0 <= j < i ==> GoodRange(items[j]);
    assert !GoodRange(items[i]);
  }

  /** subscribe() and subscribe(null) throw. */
  lemma MissingConfigThrows(o: Outside)
    ensures Throws(Undefined, o) && Throws(Null, o)
  {
  }

  /** A configuration with a target, a subscription and one more option. */
  function WithOption(name: string, v: Value): Value {
    Object(Plain, map["topic" := Str("t"), "subscription" := Str("s"), name := v])
  }

  /** A key reader that is a plain object throws, although everything before it is in order. */
  lemma ForeignKeyReaderThrows(o: Outside)
    ensures var cfg := WithOption("cryptoKeyReader", Object(Plain, map[]));
            EarlyVerdict(cfg, o.toText).Accept? && Judge(cfg, o) == Throw(NotAKeyReader)
  {
    var cfg := WithOption("cryptoKeyReader", Object(Plain, map[]));
    assert Get(cfg, "cryptoKeyReader") == Object(Plain, map[]) && Get(cfg, "topic") == Str("t");
    assert Get(cfg, "subscription") == Str("s") && Get(cfg, "schema") == Undefined;
    assert Get(cfg, "properties") == Undefined;
  }

  /** A property that JavaScript cannot convert to a string, such as a symbol, throws. */
  lemma SymbolPropertyThrows(o: Outside)
    requires o.toText(Other).None?
    ensures Judge(WithOption("properties", Object(Plain, map["a" := Other])), o) == Throw(UnconvertibleProperty)
  {
    var p := Object(Plain, map["a" := Other]);
    var cfg := WithOption("properties", p);
    assert Get(cfg, "properties") == p && Get(cfg, "topic") == Str("t");
    assert Get(cfg, "subscription") == Str("s") && Get(cfg, "schema") == Undefined;
    assert "a" in p.props && CString("a") == "a" && Get(p, "a") == Other;
  }

  lemma {:induction false} StringsMembers(items: seq<Value>, t: string)
    ensures t in Strings(items) <==> Str(t) in items
  {
    if items != [] {
      StringsMembers(items[..|items| - 1], t);
      assert items == items[..|items| - 1] + [items[|items| - 1]];
    }
  }

  lemma {:induction false} StringsConcat(a: seq<Value>, b: seq<Value>)
    ensures Strings(a + b) == Strings(a) + Strings(b)
  {
    if b == [] {
      assert a + b == a;
    } else {
      assert (a + b)[..|a + b| - 1] == a + b[..|b| - 1];
      StringsConcat(a, b[..|b| - 1]);
    }
  }

  lemma StringsNone(items: seq<Value>)
    ensures Strings(items) == [] <==> forall i :: 0 <= i < |items| ==> !items[i].Str?
  {
    hide Strings;
    if Strings(items) == [] {
      forall i | 0 <= i < |items| ensures !items[i].Str? {
        if items[i].Str? {
          StringsMembers(items, items[i].text);
        }
      }
    } else {
      var t := Strings(items)[0];
      StringsMembers(items, t);
      var i :| 0 <= i < |items| && items[i] == Str(t);
    }
  }

  // ------------------------------------------------------------------ the object

  /** What of the C++ configuration matters here. */
  datatype Native = Native(
    ackTimeout: Option<int>,
    nAckDelay: Option<int>,
    batchPolicy: Option<BatchPolicy>,
    stickyRanges: Option<seq<(int, int)>>)

  /** What the C++ configuration is given, by the names of the options. */
  ghost predicate NativeNamed(cfg: Value, n: Native) {
    && (forall x :: Get(cfg, "ackTimeoutMs") == Num(x) ==> n.ackTimeout == Some(Int64Value(x)))
    && (!Get(cfg, "ackTimeoutMs").Num? ==> n.ackTimeout.None?)
    && (forall x :: Get(cfg, "nAckRedeliverTimeoutMs") == Num(x) ==> n.nAckDelay == Some(Int64Value(x)))
    && (!Get(cfg, "nAckRedeliverTimeoutMs").Num? ==> n.nAckDelay.None?)
    && (Get(cfg, "batchReceivePolicy").Object? ==>
          n.batchPolicy.Some? && BatchNamed(Get(cfg, "batchReceivePolicy"), n.batchPolicy.value))
    && (!Get(cfg, "batchReceivePolicy").Object? ==> n.batchPolicy.None?)
    && var ranges := Get(Get(cfg, "keySharedPolicy"), "stickyRanges");
       && (IsArray(ranges) ==> n.stickyRanges.Some? && RangesNamed(ranges.kind.items, n.stickyRanges.value))
       && (!IsArray(ranges) ==> n.stickyRanges.None?)
  }

  lemma NativeIsNamed(cfg: Value, n: Native)
    requires RangesFit(cfg)
    requires n.ackTimeout == Int64Option(cfg, "ackTimeoutMs")
    requires n.nAckDelay == Int64Option(cfg, "nAckRedeliverTimeoutMs")
    requires var p := Get(cfg, "batchReceivePolicy");
             n.batchPolicy == if p.Object? then Some(Batch(p)) else None
    requires n.stickyRanges == if GivesRanges(cfg) then Some(Ranges(RangeItems(cfg))) else None
    ensures NativeNamed(cfg, n)
  {
    hide RangeNamed, BatchNamed, Batch, Ranges, GoodRange, Int64Value, RangesNamed;
    BatchIsNamed(Get(cfg, "batchReceivePolicy"));
    RangesAreNamed(RangeItems(cfg));
  }

  class ConsumerConfig {
    var topic: string
    var topics: seq<string>
    var topicsPattern: string
    var subscription: string
    var ackTimeoutMs: int
    var nAckRedeliverTimeoutMs: int
    var listener: L.ListenerRecord?
    var native: Native

    constructor ()
      ensures topic == "" && topics == [] && topicsPattern == "" && subscription == ""
      ensures ackTimeoutMs == 0 && nAckRedeliverTimeoutMs == 60000 && listener == null
      ensures native == Native(None, None, None, None)
    {
      topic, topics, topicsPattern, subscription := "", [], "", "";
      ackTimeoutMs, nAckRedeliverTimeoutMs, listener := 0, 60000, null;
      native := Native(None, None, None, None);
    }

    /** The result of an accepted configuration. */
    ghost predicate Holds(cfg: Value)
      reads this
    {
      && topic == StringOption(cfg, "topic")
      && topics == Strings(ArrayOption(cfg, "topics"))
      && topicsPattern == StringOption(cfg, "topicsPattern")
      && subscription == StringOption(cfg, "subscription")
      && native.ackTimeout == Int64Option(cfg, "ackTimeoutMs")
      && ackTimeoutMs == (if native.ackTimeout.Some? then native.ackTimeout.value else 0)
      && native.nAckDelay == Int64Option(cfg, "nAckRedeliverTimeoutMs")
      && nAckRedeliverTimeoutMs == (if native.nAckDelay.Some? then native.nAckDelay.value else 60000)
    }

    method ReadTopics(items: seq<Value>)
      requires topics == []
      modifies this`topics
      ensures topics == Strings(items)
    {
      for i := 0 to |items|
        invariant topics == Strings(items[..i])
      {
        assert items[..i + 1][..i] == items[..i];
        if items[i].Str? {
          topics := topics + [items[i].text];
        }
      }
      assert items[..|items|] == items;
    }

    method ReadTarget(cfg: Value) returns (problem: Option<Reason>)
      requires topic == "" && topics == [] && topicsPattern == "" && subscription == ""
      modifies this`topic, this`topics, this`topicsPattern, this`subscription
      ensures problem == if !HasTarget(cfg) then Some(NoTarget)
                         else if StringOption(cfg, "subscription") == "" then Some(NoSubscription)
                         else None
      ensures topic == StringOption(cfg, "topic") && topicsPattern == StringOption(cfg, "topicsPattern")
      ensures topics == Strings(ArrayOption(cfg, "topics"))
      ensures HasTarget(cfg) ==> subscription == StringOption(cfg, "subscription")
    {
      if Get(cfg, "topic").Str? {
        topic := Get(cfg, "topic").text;
      }
      if IsArray(Get(cfg, "topics")) {
        ReadTopics(Get(cfg, "topics").kind.items);
      }
      if Get(cfg, "topicsPattern").Str? {
        topicsPattern := Get(cfg, "topicsPattern").text;
      }
      StringsNone(ArrayOption(cfg, "topics"));
      if topic == "" && |topics| == 0 && topicsPattern == "" {
        return Some(NoTarget);
      }
      if Get(cfg, "subscription").Str? {
        subscription := Get(cfg, "subscription").text;
      }
      if subscription == "" {
        return Some(NoSubscription);
      }
      return None;
    }

    method ReadTimeouts(cfg: Value) returns (problem: Option<Reason>)
      requires ackTimeoutMs == 0 && nAckRedeliverTimeoutMs == 60000
      requires native == Native(None, None, None, None)
      modifies this`ackTimeoutMs, this`nAckRedeliverTimeoutMs, this`native
      ensures problem == if !AckTimeoutFits(cfg) then Some(AckTimeoutTooSmall)
                         else if !NAckTimeoutFits(cfg) then Some(NegativeNAckTimeout)
                         else None
      ensures problem.None? ==>
                && native == Native(Int64Option(cfg, "ackTimeoutMs"),
                                    Int64Option(cfg, "nAckRedeliverTimeoutMs"), None, None)
                && ackTimeoutMs == (if native.ackTimeout.Some? then native.ackTimeout.value else 0)
                && nAckRedeliverTimeoutMs == (if native.nAckDelay.Some? then native.nAckDelay.value else 60000)
    {
      if Get(cfg, "ackTimeoutMs").Num? {
        ackTimeoutMs := Int64Value(Get(cfg, "ackTimeoutMs").number);
        if ackTimeoutMs != 0 && ackTimeoutMs < MIN_ACK_TIMEOUT_MILLIS {
          return Some(AckTimeoutTooSmall);
        }
        native := native.(ackTimeout := Some(ackTimeoutMs));
      }
      if Get(cfg, "nAckRedeliverTimeoutMs").Num? {
        nAckRedeliverTimeoutMs := Int64Value(Get(cfg, "nAckRedeliverTimeoutMs").number);
        if nAckRedeliverTimeoutMs < 0 {
          return Some(NegativeNAckTimeout);
        }
        native := native.(nAckDelay := Some(nAckRedeliverTimeoutMs));
      }
      return None;
    }

    method ReadBatchPolicy(cfg: Value, accepts: BatchPolicy -> bool) returns (problem: Option<Reason>)
      modifies this`native
      ensures BatchVerdict(cfg, accepts) == if problem.Some? then Refuse(problem.value) else Accept
      ensures problem.None? && Get(cfg, "batchReceivePolicy").Object? ==>
                native == old(native).(batchPolicy := Some(Batch(Get(cfg, "batchReceivePolicy"))))
      ensures problem.None? && Get(cfg, "batchReceivePolicy").Object? ==>
                native.batchPolicy.Some? && BatchNamed(Get(cfg, "batchReceivePolicy"), native.batchPolicy.value)
      ensures problem.Some? || !Get(cfg, "batchReceivePolicy").Object? ==> native == old(native)
    {
      BatchIsNamed(Get(cfg, "batchReceivePolicy"));
      var policy := Get(cfg, "batchReceivePolicy");
      if policy.Object? {
        var maxNumMessages, maxNumBytes, timeoutMs := -1, 10 * 1024 * 1024, 100;
        if Get(policy, "maxNumMessages").Num? {
          maxNumMessages := Int32Value(Get(policy, "maxNumMessages").number);
        }
        if Get(policy, "maxNumBytes").Num? {
          maxNumBytes := Wrap32(Int64Value(Get(policy, "maxNumBytes").number));
        }
        if Get(policy, "timeoutMs").Num? {
          timeoutMs := Wrap32(Int64Value(Get(policy, "timeoutMs").number));
        }
        if maxNumMessages <= 0 && maxNumBytes <= 0 && timeoutMs <= 0 {
          return Some(EmptyBatchPolicy);
        }
        if !accepts((maxNumMessages, maxNumBytes, timeoutMs)) {
          return Some(BatchPolicyRefused);
        }
        native := native.(batchPolicy := Some((maxNumMessages, maxNumBytes, timeoutMs)));
      }
      return None;
    }

    /** The loop over the sticky ranges, and what the C++ client makes of them. */
    method ReadRanges(items: seq<Value>, takes: seq<(int, int)> -> bool) returns (verdict: Verdict)
      modifies this`native
      ensures verdict == if !RangeVerdict(items, 0).Accept? then RangeVerdict(items, 0)
                         else if (forall i :: 0 <= i < |items| ==> GoodRange(items[i])) && !takes(Ranges(items)) then
                           Throw(RangesNotTaken)
                         else Accept
      ensures verdict.Accept? ==> (forall i :: 0 <= i < |items| ==> GoodRange(items[i]))
                                  && native == old(native).(stickyRanges := Some(Ranges(items)))
      ensures verdict.Accept? ==> native.stickyRanges.Some? && RangesNamed(items, native.stickyRanges.value)
      ensures !verdict.Accept? ==> native == old(native)
    {
      var ranges: seq<(int, int)> := [];
      RangeVerdictIsFirst(items, 0);
      for i := 0 to |items|
        invariant forall j :: 0 <= j < i ==> GoodRange(items[j])
        invariant RangeVerdict(items, 0) == RangeVerdict(items, i)
        invariant ranges == Ranges(items[..i])
      {
        if !items[i].Object? {
          return Refuse(RangeNotObject(i));
        }
        if !(Get(items[i], "start").Num? && Get(items[i], "end").Num?) {
          return Refuse(RangeFormat(i));
        }
        var start := Int32Value(Get(items[i], "start").number);
        var end := Int32Value(Get(items[i], "end").number);
        if start > end {
          return Refuse(RangeReversed(i, start, end));
        }
        ranges := ranges + [(start, end)];
        assert Ranges(items[..i + 1]) == Ranges(items[..i]) + [RangeOf(items[i])];
      }
      assert items[..|items|] == items;
      if !takes(ranges) {
        return Throw(RangesNotTaken);
      }
      RangesAreNamed(items);
      native := native.(stickyRanges := Some(ranges));
      return Accept;
    }

    /** The loop over the properties, up to the first that cannot be converted. */
    method ReadProperties(cfg: Value, toText: Value -> Option<string>) returns (threw: bool)
      ensures threw <==> !PropertiesFit(cfg, toText)
    {
      var p := Get(cfg, "properties");
      if !p.Object? {
        return false;
      }
      var rest := p.props.Keys;
      while rest != {}
        invariant rest <= p.props.Keys
        invariant forall k :: k in p.props && k !in rest ==> toText(Get(p, CString(k))).Some?
        decreases rest
      {
        var k :| k in rest;
        if toText(Get(p, CString(k))).None? {
          return true;
        }
        rest := rest - {k};
      }
      return false;
    }

    /** The options before the listener. */
    method InitEarly(deferred: D.ThreadSafeDeferred, cfg: Value, toText: Value -> Option<string>,
                     text: Reason -> string)
      returns (verdict: Verdict)
      requires deferred.fate == D.Unresolved
      requires topic == "" && topics == [] && topicsPattern == "" && subscription == ""
      requires ackTimeoutMs == 0 && nAckRedeliverTimeoutMs == 60000
      requires native == Native(None, None, None, None)
      modifies this, deferred
      ensures verdict == EarlyVerdict(cfg, toText)
      ensures deferred.View() == Told(old(deferred.View()), verdict, text)
      ensures listener == old(listener) && deferred.settled == old(deferred.settled)
      ensures verdict.Accept? ==> Holds(cfg) && native.batchPolicy.None? && native.stickyRanges.None?
    {
      if !IsPresent(cfg) {
        return Throw(NoConfig);
      }
      var problem := ReadTarget(cfg);
      if problem.Some? {
        var _ := deferred.Reject(text(problem.value));
        return Refuse(problem.value);
      }
      problem := ReadTimeouts(cfg);
      if problem.Some? {
        var _ := deferred.Reject(text(problem.value));
        return Refuse(problem.value);
      }
      if Get(cfg, "schema").Object? {
        var schemaInfo := new Schemas.SchemaInfo(Get(cfg, "schema"), toText);
        if schemaInfo.error.Some? {
          return Throw(BadSchema(schemaInfo.error.value));
        }
      }
      var threw := ReadProperties(cfg, toText);
      if threw {
        return Throw(UnconvertibleProperty);
      }
      return Accept;
    }

    /** The options after the listener. */
    method InitLate(deferred: D.ThreadSafeDeferred, cfg: Value, o: Outside, text: Reason -> string)
      returns (verdict: Verdict)
      requires deferred.fate == D.Unresolved
      requires native.batchPolicy.None? && native.stickyRanges.None?
      modifies this`native, deferred
      ensures verdict == LateVerdict(cfg, o)
      ensures deferred.View() == Told(old(deferred.View()), verdict, text)
      ensures deferred.settled == old(deferred.settled)
      ensures native.ackTimeout == old(native.ackTimeout) && native.nAckDelay == old(native.nAckDelay)
      ensures verdict.Accept? ==> RangesFit(cfg)
      ensures verdict.Accept? ==>
                var p := Get(cfg, "batchReceivePolicy");
                && native.batchPolicy == (if p.Object? then Some(Batch(p)) else None)
                && native.stickyRanges == (if GivesRanges(cfg) then Some(Ranges(RangeItems(cfg))) else None)
    {
      if Get(cfg, "cryptoKeyReader").Object? && !Get(cfg, "cryptoKeyReader").kind.KeyReader? {
        return Throw(NotAKeyReader);
      }
      var problem := ReadBatchPolicy(cfg, o.accepts);
      if problem.Some? {
        var _ := deferred.Reject(text(problem.value));
        return Refuse(problem.value);
      }
      RangeVerdictIsFirst(RangeItems(cfg), 0);
      if GivesRanges(cfg) {
        var ranges := ReadRanges(Get(Get(cfg, "keySharedPolicy"), "stickyRanges").kind.items, o.takes);
        if ranges.Refuse? {
          var _ := deferred.Reject(text(ranges.reason));
        }
        return ranges;
      }
      return Accept;
    }

    /** InitConfig. Whatever it finds, the deferred is rejected at most once and nothing follows the
        rejection; an exception leaves it as it was; the listener's token exists exactly if its option
        was reached. */
    method InitConfig(deferred: D.ThreadSafeDeferred, cfg: Value, o: Outside, text: Reason -> string)
      returns (verdict: Verdict)
      requires deferred.fate == D.Unresolved
      requires topic == "" && topics == [] && topicsPattern == "" && subscription == ""
      requires ackTimeoutMs == 0 && nAckRedeliverTimeoutMs == 60000 && listener == null
      requires native == Native(None, None, None, None)
      modifies this, deferred
      ensures verdict == Judge(cfg, o)
      ensures deferred.View() == Told(old(deferred.View()), verdict, text)
      ensures deferred.settled == old(deferred.settled)
      ensures listener != null <==> EarlyVerdict(cfg, o.toText).Accept? && IsFunction(Get(cfg, "listener"))
      ensures listener != null ==>
                fresh(listener) && listener.callback == Create(1, 1) && listener.consumerSets == 0
      ensures verdict.Accept? ==> Holds(cfg) && RangesFit(cfg) && NativeNamed(cfg, native)
      ensures verdict.Accept? ==>
                var p := Get(cfg, "batchReceivePolicy");
                && native.batchPolicy == (if p.Object? then Some(Batch(p)) else None)
                && native.stickyRanges == (if GivesRanges(cfg) then Some(Ranges(RangeItems(cfg))) else None)
    {
      hide EarlyVerdict, LateVerdict, Batch, NativeNamed, RangesFit;
      verdict := InitEarly(deferred, cfg, o.toText, text);
      if !verdict.Accept? {
        return;
      }
      if IsFunction(Get(cfg, "listener")) {
        listener := new L.ListenerRecord();
      }
      verdict := InitLate(deferred, cfg, o, text);
      if verdict.Accept? {
        NativeIsNamed(cfg, native);
      }
    }

    /** The listener field as the protocol sees it. */
    ghost predicate Shows(s: P.State)
      reads this, listener
    {
      && (listener != null <==> s.configListener)
      && (listener != null ==> listener.Shows(s))
    }

    /** Hands the record to the caller, as the subscribe callback hands it to its lambda. */
    method GetListenerCallback(ghost s: P.State) returns (cb: L.ListenerRecord?)
      requires Shows(s) && P.Enabled(s, P.SubscribeSucceeds)
      modifies this
      ensures cb == old(listener)
      ensures Shows(P.Next(s, P.SubscribeSucceeds))
      ensures cb != null <==> P.Next(s, P.SubscribeSucceeds).lambda
      ensures cb != null ==> cb.Shows(P.Next(s, P.SubscribeSucceeds))
    {
      cb := listener;
      listener := null;
    }

    /** ~ConsumerConfig, run for the last shared pointer, gives back the token it still owns. */
    method Destroy(ghost s: P.State, ghost main: bool)
      requires Shows(s) && if main then !s.otherConfig else !s.mainConfig
      modifies this, listener
      ensures Shows(P.DropConfig(s, main))
      ensures old(listener) != null ==> old(listener).Shows(P.DropConfig(s, main))
    {
      if listener != null {
        listener.callback := Release(listener.callback).1;
        listener := null;
      }
    }
  }

  // ----------------------------------------------------------- the subscribe call

  datatype Route = Pattern(pattern: string) | Several(topics: seq<string>) | Single(topic: string)

  /** The target a configuration asks for: a pattern wins over topics, topics over a topic. */
  function Target(cfg: Value): Route {
    if StringOption(cfg, "topicsPattern") != "" then Pattern(StringOption(cfg, "topicsPattern"))
    else if Strings(ArrayOption(cfg, "topics")) != [] then Several(Strings(ArrayOption(cfg, "topics")))
    else Single(StringOption(cfg, "topic"))
  }

  function CStrings(ts: seq<string>): seq<string> {
    seq(|ts|, i requires 0 <= i < |ts| => CString(ts[i]))
  }

  /** What the C client is given of a target. */
  function HandedOver(r: Route): Route {
    match r
    case Pattern(p) => Pattern(CString(p))
    case Several(ts) => Several(CStrings(ts))
    case Single(t) => Single(CString(t))
  }

  /** The option that decides the route is given. */
  predicate Given(r: Route) {
    match r
    case Pattern(t) => t != ""
    case Several(ts) => ts != []
    case Single(t) => t != ""
  }

  /** And none of its strings is empty. */
  predicate NoneEmpty(r: Route) {
    Given(r) && (r.Several? ==> forall i :: 0 <= i < |r.topics| ==> r.topics[i] != "")
  }

  /** A string of which something is left when it is handed over as a C string. */
  predicate Begins(t: string) {
    t != "" && t[0] != '\0'
  }

  /** Every string of the option that decides the route begins with something else than a NUL. */
  predicate TargetBegins(cfg: Value) {
    if StringOption(cfg, "topicsPattern") != "" then Begins(StringOption(cfg, "topicsPattern"))
    else if exists i :: 0 <= i < |ArrayOption(cfg, "topics")| && ArrayOption(cfg, "topics")[i].Str? then
      forall i :: 0 <= i < |ArrayOption(cfg, "topics")| && ArrayOption(cfg, "topics")[i].Str? ==>
        Begins(ArrayOption(cfg, "topics")[i].text)
    else Begins(StringOption(cfg, "topic"))
  }

  lemma EveryTopicBegins(items: seq<Value>)
    ensures (forall k :: 0 <= k < |Strings(items)| ==> Begins(Strings(items)[k]))
        <==> (forall i :: 0 <= i < |items| && items[i].Str? ==> Begins(items[i].text))
  {
    hide Begins, Strings;
    var ts := Strings(items);
    if forall k :: 0 <= k < |ts| ==> Begins(ts[k]) {
      forall i | 0 <= i < |items| && items[i].Str? ensures Begins(items[i].text) {
        StringsMembers(items, items[i].text);
        var k :| 0 <= k < |ts| && ts[k] == items[i].text;
      }
    }
    if forall i :: 0 <= i < |items| && items[i].Str? ==> Begins(items[i].text) {
      forall k | 0 <= k < |ts| ensures Begins(ts[k]) {
        StringsMembers(items, ts[k]);
        var i :| 0 <= i < |items| && items[i] == Str(ts[k]);
      }
    }
  }

  lemma CStringBegins(t: string)
    ensures CString(t) != "" <==> Begins(t)
  {
  }

  lemma CStringsBegin(ts: seq<string>)
    ensures NoneEmpty(Several(CStrings(ts))) <==> ts != [] && forall i :: 0 <= i < |ts| ==> Begins(ts[i])
  {
    hide CString, Begins;
    forall i | 0 <= i < |ts| ensures CStrings(ts)[i] != "" <==> Begins(ts[i]) {
      CStringBegins(ts[i]);
    }
  }

  /** The C client is given non-empty strings only, if and only if in the option that decides the
      route each string, and the subscription, has something before its first NUL. A topic list with
      an empty string, for one, is accepted and handed over with it. */
  lemma HandedOverNonEmpty(cfg: Value)
    ensures NoneEmpty(HandedOver(Target(cfg))) <==> TargetBegins(cfg)
    ensures CString(StringOption(cfg, "subscription")) != "" <==> Begins(StringOption(cfg, "subscription"))
  {
    hide Strings, CString, Begins, CStrings, StringOption, ArrayOption;
    var items := ArrayOption(cfg, "topics");
    CStringBegins(StringOption(cfg, "subscription"));
    CStringBegins(StringOption(cfg, "topicsPattern"));
    CStringBegins(StringOption(cfg, "topic"));
    StringsNone(items);
    EveryTopicBegins(items);
    CStringsBegin(Strings(items));
  }

  /** And it is asked for exactly what the configuration says, if and only if none of those strings
      contains a NUL. */
  lemma HandedOverWhole(cfg: Value)
    ensures HandedOver(Target(cfg)) == Target(cfg) <==>
              (Target(cfg).Several? ==> forall i :: 0 <= i < |Target(cfg).topics| ==> NoNul(Target(cfg).topics[i]))
              && (Target(cfg).Pattern? ==> NoNul(Target(cfg).pattern))
              && (Target(cfg).Single? ==> NoNul(Target(cfg).topic))
  {
    if Target(cfg).Several? {
      var ts := Target(cfg).topics;
      assert forall i :: 0 <= i < |ts| ==> CStrings(ts)[i] == CString(ts[i]);
      if CStrings(ts) == ts {
        assert forall i :: 0 <= i < |ts| ==> NoNul(CStrings(ts)[i]);
      }
    }
  }

  /** A topic that begins with a NUL is accepted and reaches the C client as an empty topic. */
  lemma EmptyTopicIsSubscribed(o: Outside)
    ensures
      var cfg := Object(Plain, map["topic" := Str("\0x"), "subscription" := Str("s")]);
      Acceptable(cfg, o) && HandedOver(Target(cfg)) == Single("")
  {
    var cfg := Object(Plain, map["topic" := Str("\0x"), "subscription" := Str("s")]);
    assert Get(cfg, "subscription") == Str("s") && Get(cfg, "topic") == Str("\0x");
    assert Target(cfg) == Single("\0x");
  }

  /** So does an empty string among the topics. */
  lemma EmptyTopicInList(o: Outside)
    ensures
      var cfg := Object(Plain, map["topics" := Object(Array([Str("")]), map[]), "subscription" := Str("s")]);
      Acceptable(cfg, o) && HandedOver(Target(cfg)) == Several([""])
  {
    var cfg := Object(Plain, map["topics" := Object(Array([Str("")]), map[]), "subscription" := Str("s")]);
    assert ArrayOption(cfg, "topics") == [Str("")] && Get(cfg, "subscription") == Str("s");
    assert ArrayOption(cfg, "topics")[0].Str?;
    assert [Str("")][..0] == [];
    assert Strings([Str("")]) == [""];
  }

  /** const char **cTopics, filled in a loop with C strings. */
  method CopyTopics(topics: seq<string>) returns (cTopics: array<string>)
    ensures fresh(cTopics) && cTopics[..] == CStrings(topics)
  {
    cTopics := new string[|topics|](_ => "");
    for i := 0 to |topics|
      invariant cTopics[..i] == CStrings(topics)[..i]
    {
      cTopics[i] := CString(topics[i]);
    }
  }

  lemma AcceptableTarget(cfg: Value, o: Outside)
    requires Acceptable(cfg, o)
    ensures Given(Target(cfg))
  {
    StringsNone(ArrayOption(cfg, "topics"));
  }

  lemma TimeoutsFit(config: ConsumerConfig, cfg: Value, o: Outside)
    requires config.Holds(cfg) && Acceptable(cfg, o)
    ensures config.ackTimeoutMs == 0 || config.ackTimeoutMs >= MIN_ACK_TIMEOUT_MILLIS
    ensures config.nAckRedeliverTimeoutMs >= 0
  {
  }

  /** NewInstance, with the record of the listener option if InitConfig got that far.

      A subscribe call is issued if and only if the configuration is acceptable, on the one route it
      asks for, with its strings as C strings. An exception leaves NewInstance if and only if InitConfig
      throws; then nobody has told the deferred anything, and nobody will. Otherwise the promise is
      rejected once. Without a call the listener's token has been given back on return. */
  method NewInstance(cfg: Value, o: Outside, text: Reason -> string)
    returns (call: Option<(Route, string)>, threw: bool, config: ConsumerConfig, deferred: D.ThreadSafeDeferred,
             ghost record: L.ListenerRecord?)
    ensures call.Some? <==> Acceptable(cfg, o)
    ensures threw <==> Throws(cfg, o)
    ensures call.Some? ==> call.value == (HandedOver(Target(cfg)), CString(StringOption(cfg, "subscription")))
                           && Given(Target(cfg))
                           && config.Holds(cfg) && NativeNamed(cfg, config.native) && deferred.View() == D.Fresh()
                           && (config.ackTimeoutMs == 0 || config.ackTimeoutMs >= MIN_ACK_TIMEOUT_MILLIS)
                           && config.nAckRedeliverTimeoutMs >= 0
    ensures call.Some? ==> (NoneEmpty(call.value.0) <==> TargetBegins(cfg))
    ensures threw ==> deferred.View() == D.Fresh()
    ensures call.None? && !threw ==>
              Judge(cfg, o).Refuse? && deferred.View() == Told(D.Fresh(), Judge(cfg, o), text)
    ensures deferred.settled == []
    ensures record != null <==> EarlyVerdict(cfg, o.toText).Accept? && IsFunction(Get(cfg, "listener"))
    ensures call.Some? ==> config.listener == record && (record != null ==> record.callback == Create(1, 1))
    ensures call.None? ==> config.listener == null && (record != null ==> CanClose(record.callback))
  {
    hide StringOption, ArrayOption, Strings, CString, CStrings, TargetBegins, NoneEmpty, Given, EarlyVerdict;
    hide Judge, Acceptable, Throws, NativeNamed, RangesFit, Batch, Ranges;
    deferred := new D.ThreadSafeDeferred.New();
    config := new ConsumerConfig();
    var verdict := config.InitConfig(deferred, cfg, o, text);
    record := config.listener;
    VerdictOfConfiguration(cfg, o);
    threw := verdict.Throw?;
    var done := deferred.IsDone();
    if threw || done {
      ghost var configured := P.AfterConfigure(P.Init(0), config.listener != null);
      config.Destroy(if threw then P.AfterThrowConfig(configured) else P.AfterRefuseConfig(configured), true);
      call := None;
      return;
    }
    AcceptableTarget(cfg, o);
    HandedOverNonEmpty(cfg);
    TimeoutsFit(config, cfg, o);
    if config.topicsPattern != "" {
      call := Some((Pattern(CString(config.topicsPattern)), CString(config.subscription)));
    } else if |config.topics| > 0 {
      var cTopics := CopyTopics(config.topics);
      call := Some((Several(cTopics[..]), CString(config.subscription)));
    } else {
      call := Some((Single(CString(config.topic)), CString(config.subscription)));
    }
  }
}
