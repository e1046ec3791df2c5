/** What InitConfig makes of each option, by its name and for all its values: a configuration with a
    target and a subscription, and one option more. */
module ConsumerOptions {
  import opened Common
  import opened JsValue
  import opened ConsumerConfig
  import Schemas = SchemaInfo

  function Int(i: int): Value {
    Num(Finite(i as real))
  }

  predicate Fits64(i: int) {
    INT64_MIN <= i <= INT64_MAX
  }

  predicate Fits32(i: int) {
    -INT32_SPAN / 2 <= i <= INT32_MAX
  }

  /** The basic configuration is accepted. */
  lemma BasicOptions(name: string, v: Value)
    requires name != "topic" && name != "subscription" && name != "topics" && name != "topicsPattern"
    ensures var cfg := WithOption(name, v);
            && cfg.Object? && HasTarget(cfg) && StringOption(cfg, "subscription") == "s"
            && Get(cfg, name) == v
            && forall other :: other != name && other != "topic" && other != "subscription" ==>
                 Get(cfg, other) == Undefined
  {
  }

  lemma EarlyOption(name: string, v: Value, o: Outside)
    requires name == "ackTimeoutMs" || name == "nAckRedeliverTimeoutMs" || name == "schema"
    ensures Judge(WithOption(name, v), o) == EarlyVerdict(WithOption(name, v), o.toText)
  {
    hide WithOption, HasTarget, EarlyVerdict;
    BasicOptions(name, v);
  }

  lemma LateOption(name: string, v: Value, o: Outside)
    requires name == "batchReceivePolicy" || name == "keySharedPolicy"
    ensures var cfg := WithOption(name, v);
            && Judge(cfg, o) == LateVerdict(cfg, o) && KeyReaderFits(cfg)
            && Get(cfg, name) == v
            && (name == "batchReceivePolicy" ==> RangeItems(cfg) == [] && !GivesRanges(cfg))
            && (name == "keySharedPolicy" ==> Get(cfg, "batchReceivePolicy") == Undefined)
  {
    hide WithOption, HasTarget, LateVerdict;
    BasicOptions(name, v);
  }

  /** An ack timeout has to be 0 or at least 10000. */
  lemma AckTimeoutOption(n: int, o: Outside)
    requires Fits64(n)
    ensures Judge(WithOption("ackTimeoutMs", Int(n)), o) ==
            if n == 0 || n >= 10000 then Accept else Refuse(AckTimeoutTooSmall)
  {
    hide LateVerdict, Judge;
    EarlyOption("ackTimeoutMs", Int(n), o);
    BasicOptions("ackTimeoutMs", Int(n));
    WholeNumbers(n);
  }

  /** A redelivery delay must not be negative. */
  lemma RedeliveryOption(n: int, o: Outside)
    requires Fits64(n)
    ensures Judge(WithOption("nAckRedeliverTimeoutMs", Int(n)), o) ==
            if n >= 0 then Accept else Refuse(NegativeNAckTimeout)
  {
    hide LateVerdict, Judge;
    EarlyOption("nAckRedeliverTimeoutMs", Int(n), o);
    BasicOptions("nAckRedeliverTimeoutMs", Int(n));
    WholeNumbers(n);
  }

  function Policy(messages: int, bytes: int, timeout: int): Value {
    Object(Plain, map["maxNumMessages" := Int(messages), "maxNumBytes" := Int(bytes), "timeoutMs" := Int(timeout)])
  }

  /** A batch policy needs a positive limit; the C++ client is asked for exactly these three. */
  lemma BatchOption(messages: int, bytes: int, timeout: int, o: Outside)
    requires Fits32(messages) && Fits32(bytes) && Fits32(timeout)
    ensures Judge(WithOption("batchReceivePolicy", Policy(messages, bytes, timeout)), o) ==
            if messages <= 0 && bytes <= 0 && timeout <= 0 then Refuse(EmptyBatchPolicy)
            else if !o.accepts((messages, bytes, timeout)) then Refuse(BatchPolicyRefused)
            else Accept
  {
    hide Judge, EarlyVerdict, WithOption, Batch, KeyReaderFits;
    LateOption("batchReceivePolicy", Policy(messages, bytes, timeout), o);
    BatchOf(messages, bytes, timeout);
  }

  lemma BatchOf(messages: int, bytes: int, timeout: int)
    requires Fits32(messages) && Fits32(bytes) && Fits32(timeout)
    ensures Batch(Policy(messages, bytes, timeout)) == (messages, bytes, timeout)
  {
    var p := Policy(messages, bytes, timeout);
    assert Get(p, "maxNumMessages") == Int(messages) && Get(p, "maxNumBytes") == Int(bytes);
    assert Get(p, "timeoutMs") == Int(timeout);
    WholeNumbers(messages);
    WholeNumbers(bytes);
    WholeNumbers(timeout);
  }

  /** Without limits of its own a policy has the defaults. */
  lemma DefaultBatchOption(o: Outside)
    ensures Judge(WithOption("batchReceivePolicy", Object(Plain, map[])), o) ==
            if o.accepts((-1, 10485760, 100)) then Accept else Refuse(BatchPolicyRefused)
  {
    hide Judge, EarlyVerdict, WithOption, KeyReaderFits;
    LateOption("batchReceivePolicy", Object(Plain, map[]), o);
    assert Batch(Object(Plain, map[])) == (-1, 10485760, 100);
  }

  function Range(start: int, end: int): Value {
    Object(Plain, map["start" := Int(start), "end" := Int(end)])
  }

  function KeyShared(ranges: seq<Value>): Value {
    Object(Plain, map["stickyRanges" := Object(Array(ranges), map[])])
  }

  lemma RangeOptions(start: int, end: int)
    requires Fits32(start) && Fits32(end)
    ensures RangeProblem(Range(start, end), 0) ==
            if start > end then Some(RangeReversed(0, start, end)) else None
    ensures Get(Range(start, end), "start").Num? && Get(Range(start, end), "end").Num?
    ensures RangeOf(Range(start, end)) == (start, end)
  {
    var r := Range(start, end);
    assert Get(r, "start") == Int(start) && Get(r, "end") == Int(end);
    WholeNumbers(start);
    WholeNumbers(end);
  }

  /** A sticky range from start to end is refused if it is reversed; otherwise the C++ client is given
      exactly this pair. */
  lemma StickyRangeOption(start: int, end: int, o: Outside)
    requires Fits32(start) && Fits32(end)
    ensures Judge(WithOption("keySharedPolicy", KeyShared([Range(start, end)])), o) ==
            if start > end then Refuse(RangeReversed(0, start, end))
            else if !o.takes([(start, end)]) then Throw(RangesNotTaken)
            else Accept
  {
    hide Range, Judge, EarlyVerdict, WithOption, KeyReaderFits, RangeVerdict, RangesFit, Ranges;
    var ranges := [Range(start, end)];
    var cfg := WithOption("keySharedPolicy", KeyShared(ranges));
    LateOption("keySharedPolicy", KeyShared(ranges), o);
    assert Get(KeyShared(ranges), "stickyRanges") == Object(Array(ranges), map[]);
    assert RangeItems(cfg) == ranges;
    RangeOptions(start, end);
    assert IsRange(Range(start, end)) by { RangeIsObject(start, end); }
    OneRange(cfg, Range(start, end), (start, end));
  }

  predicate IsRange(v: Value) {
    v.Object? && Get(v, "start").Num? && Get(v, "end").Num?
  }

  lemma RangeIsObject(start: int, end: int)
    ensures IsRange(Range(start, end))
  {
    var r := Range(start, end);
    assert Get(r, "start") == Int(start) && Get(r, "end") == Int(end);
  }

  lemma OneRange(cfg: Value, r: Value, p: (int, int))
    requires RangeItems(cfg) == [r] && IsRange(r) && RangeOf(r) == p
    ensures RangesFit(cfg) <==> p.0 <= p.1
    ensures RangesFit(cfg) ==> Ranges(RangeItems(cfg)) == [p]
    ensures RangeVerdict(RangeItems(cfg), 0) == if p.0 > p.1 then Refuse(RangeReversed(0, p.0, p.1)) else Accept
  {
    assert RangeItems(cfg)[0] == r;
    assert RangeVerdict([r], 1) == Accept;
  }

  /** A list of objects with two numbers each is refused exactly if some start exceeds its end. */
  lemma RangesRefusedIff(items: seq<Value>)
    requires forall i :: 0 <= i < |items| ==> IsRange(items[i])
    ensures RangeVerdict(items, 0).Refuse? <==>
            exists i :: 0 <= i < |items| && IsRange(items[i]) &&
              Int32Value(Get(items[i], "start").number) > Int32Value(Get(items[i], "end").number)
  {
    hide Int32Value;
    RangeVerdictIsFirst(items, 0);
    if RangeVerdict(items, 0).Accept? {
      assert forall i :: 0 <= i < |items| ==> GoodRange(items[i]);
    } else {
      var i :| 0 <= i < |items| && RangeProblem(items[i], i) == Some(RangeVerdict(items, 0).reason);
      assert IsRange(items[i]);
    }
  }

  /** A schema type is known if and only if it is in the table. */
  lemma SchemaOption(name: string, o: Outside)
    ensures var schema := Object(Plain, map["schemaType" := Str(name)]);
            Judge(WithOption("schema", schema), o) ==
            if exists i :: 0 <= i < |Schemas.SCHEMA_TYPE| && Schemas.SCHEMA_TYPE[i].0 == name then Accept
            else Throw(BadSchema(Schemas.UnknownType(name)))
  {
    hide Schemas.Find, Schemas.FindFrom, Judge, LateVerdict;
    var schema := Object(Plain, map["schemaType" := Str(name)]);
    EarlyOption("schema", schema, o);
    BasicOptions("schema", schema);
    assert Get(schema, "schemaType") == Str(name) && Get(schema, "properties") == Undefined;
    FoundIff(name);
  }

  lemma FoundIff(name: string)
    ensures Schemas.Find(name).Some? <==>
            exists i :: 0 <= i < |Schemas.SCHEMA_TYPE| && Schemas.SCHEMA_TYPE[i].0 == name
  {
    hide Schemas.FindFrom;
    if Schemas.Find(name).Some? {
      Schemas.FoundInTable(name, 0);
    }
    if i :| 0 <= i < |Schemas.SCHEMA_TYPE| && Schemas.SCHEMA_TYPE[i].0 == name {
      Schemas.FindEntry(0, i);
    }
  }

  // -------------------------------------------------------------------- targets

  function Texts(ts: seq<string>): seq<Value> {
    seq(|ts|, i requires 0 <= i < |ts| => Str(ts[i]))
  }

  function Targets(pattern: string, topics: seq<string>, topic: string, subscription: string): Value {
    Object(Plain, map["topicsPattern" := Str(pattern), "topics" := Object(Array(Texts(topics)), map[]),
                      "topic" := Str(topic), "subscription" := Str(subscription)])
  }

  lemma {:induction false} StringsOfTexts(ts: seq<string>)
    ensures Strings(Texts(ts)) == ts
  {
    if ts == [] {
    } else {
      var init := ts[..|ts| - 1];
      assert Texts(ts)[..|Texts(ts)| - 1] == Texts(init);
      StringsOfTexts(init);
    }
  }

  /** A pattern that is not empty wins over topics, topics over a topic; with none of them, and without
      a subscription, the configuration is refused. */
  lemma TargetOptions(pattern: string, topics: seq<string>, topic: string, subscription: string, o: Outside)
    ensures var cfg := Targets(pattern, topics, topic, subscription);
            && Judge(cfg, o) == (if pattern == "" && topics == [] && topic == "" then Refuse(NoTarget)
                                 else if subscription == "" then Refuse(NoSubscription)
                                 else Accept)
            && Target(cfg) == (if pattern != "" then Pattern(pattern)
                               else if topics != [] then Several(topics)
                               else Single(topic))
            && StringOption(cfg, "subscription") == subscription
  {
    hide Strings;
    var cfg := Targets(pattern, topics, topic, subscription);
    assert Get(cfg, "topicsPattern") == Str(pattern) && Get(cfg, "topic") == Str(topic);
    assert Get(cfg, "subscription") == Str(subscription);
    assert ArrayOption(cfg, "topics") == Texts(topics);
    StringsOfTexts(topics);
    assert topics != [] ==> Texts(topics)[0].Str?;
    assert forall name :: name != "topicsPattern" && name != "topics" && name != "topic" && name != "subscription" ==>
        Get(cfg, name) == Undefined;
    assert Get(cfg, "keySharedPolicy") == Undefined && Get(cfg, "batchReceivePolicy") == Undefined;
    assert RangeItems(cfg) == [];
  }
}
