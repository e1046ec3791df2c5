/** src/SchemaInfo.cc: reading a schema from a JavaScript object, and building the object that
    getSchemaInfo returns. Names, keys and values are text; schema data is bytes. */
module SchemaInfo {
  import opened Common
  import opened JsValue

  datatype Schema = Schema(schemaType: int, name: string, schema: seq<int>, properties: map<string, string>)

  /** SCHEMA_TYPE, in the order a std::map keeps its keys. */
  const SCHEMA_TYPE: seq<(string, int)> := [
    ("AutoConsume", -3), ("AutoPublish", -4), ("Avro", 4), ("Boolean", 5), ("Bytes", -1),
    ("Float32", 10), ("Float64", 11), ("Int16", 7), ("Int32", 8), ("Int64", 9), ("Int8", 6),
    ("Json", 2), ("KeyValue", 15), ("None", 0), ("Protobuf", 3), ("ProtobufNative", 20),
    ("String", 1)]

  /** The first entry from k on with this name. */
  function FindFrom(name: string, k: nat): Option<int>
    decreases |SCHEMA_TYPE| - k
  {
    if k >= |SCHEMA_TYPE| then None
    else if SCHEMA_TYPE[k].0 == name then Some(SCHEMA_TYPE[k].1)
    else FindFrom(name, k + 1)
  }

  function Find(name: string): Option<int> {
    FindFrom(name, 0)
  }

  /** The entries have different names and different types, so either determines the other. */
  lemma TableIsInjective(i: nat, j: nat)
    requires i < |SCHEMA_TYPE| && j < |SCHEMA_TYPE| && i != j
    ensures SCHEMA_TYPE[i].1 != SCHEMA_TYPE[j].1
    ensures SCHEMA_TYPE[i].0 != SCHEMA_TYPE[j].0
  {
    assert |SCHEMA_TYPE| == 17;
  }

  lemma {:induction false} FindEntry(k: nat, i: nat)
    requires k <= i < |SCHEMA_TYPE|
    ensures FindFrom(SCHEMA_TYPE[i].0, k) == Some(SCHEMA_TYPE[i].1)
    decreases i - k
  {
    if k < i {
      TableIsInjective(k, i);
      FindEntry(k + 1, i);
    }
  }

  /** The name of a schema type is the one name the constructor reads back as that type; a type
      without a name is one no name leads to. */
  method GetSchemaTypeName(schemaType: int) returns (name: Option<string>)
    ensures name.Some? ==> Find(name.value) == Some(schemaType)
    ensures name.None? ==> forall i :: 0 <= i < |SCHEMA_TYPE| ==> SCHEMA_TYPE[i].1 != schemaType
  {
    for k := 0 to |SCHEMA_TYPE|
      invariant forall i :: 0 <= i < k ==> SCHEMA_TYPE[i].1 != schemaType
    {
      if SCHEMA_TYPE[k].1 == schemaType {
        FindEntry(0, k);
        return Some(SCHEMA_TYPE[k].0);
      }
    }
    return None;
  }

  // ------------------------------------------------------- reading an object

  /** JavaScript's own conversion to a string, which may throw; only strings are known to be kept. */
  ghost predicate KeepsStrings(toText: Value -> Option<string>) {
    forall t: string :: toText(Str(t)) == Some(t)
  }

  /** Every property can be converted. */
  predicate Convertible(props: map<string, Value>, toText: Value -> Option<string>) {
    forall k :: k in props ==> toText(props[k]).Some?
  }

  function PropertyMap(props: map<string, Value>, toText: Value -> Option<string>): map<string, string>
    requires Convertible(props, toText)
  {
    map k | k in props :: toText(props[k]).value
  }

  /** The exceptions of the constructor. */
  datatype SchemaError = UnknownType(name: string) | Unconvertible

  predicate KnownType(o: Value) {
    Get(o, "schemaType").Str? ==> Find(Get(o, "schemaType").text).Some?
  }

  predicate PropertiesConvert(o: Value, toText: Value -> Option<string>) {
    Get(o, "properties").Object? ==> Convertible(Get(o, "properties").props, toText)
  }

  /** The SchemaInfo constructor: an unknown schemaType throws, and so does a property that cannot be
      converted. */
  function Parse(o: Value, toText: Value -> Option<string>): (r: Result<Schema, SchemaError>)
    ensures r.Success? <==> KnownType(o) && PropertiesConvert(o, toText)
  {
    var t := Get(o, "schemaType");
    var n := Get(o, "name");
    var d := Get(o, "schema");
    var p := Get(o, "properties");
    if !KnownType(o) then Failure(UnknownType(t.text))
    else if !PropertiesConvert(o, toText) then Failure(Unconvertible)
    else Success(Schema(
      if t.Str? then Find(t.text).value else -1,
      if n.Str? then n.text else if t.Str? then t.text else "BYTES",
      if d.Str? then Utf8(d.text) else if IsBuffer(d) then d.kind.bytes else [],
      if p.Object? then PropertyMap(p.props, toText) else map[]))
  }

  /** The fields of a schema by the options they come from. */
  lemma SchemaByOption(o: Value, toText: Value -> Option<string>)
    requires Parse(o, toText).Success?
    ensures
      var s := Parse(o, toText).value;
      && (forall t :: Get(o, "schemaType") == Str(t) ==> Find(t) == Some(s.schemaType))
      && (!Get(o, "schemaType").Str? ==> s.schemaType == -1)
      && (forall n :: Get(o, "name") == Str(n) ==> s.name == n)
      && (!Get(o, "name").Str? ==> forall t :: Get(o, "schemaType") == Str(t) ==> s.name == t)
      && (!Get(o, "name").Str? && !Get(o, "schemaType").Str? ==> s.name == "BYTES")
      && (forall t :: Get(o, "schema") == Str(t) ==> CodePoints(s.schema) == Codes(t))
      && (IsBuffer(Get(o, "schema")) ==> s.schema == Get(o, "schema").kind.bytes)
      && (!Get(o, "schema").Str? && !IsBuffer(Get(o, "schema")) ==> s.schema == [])
      && (!Get(o, "properties").Object? ==> s.properties == map[])
      && (Get(o, "properties").Object? ==>
            && s.properties.Keys == Get(o, "properties").props.Keys
            && forall k :: k in s.properties ==> toText(Get(o, "properties").props[k]) == Some(s.properties[k]))
  {
    hide Find, Utf8, CodePoints, Codes;
    if Get(o, "schema").Str? {
      Utf8RoundTrip(Get(o, "schema").text);
    }
  }

  class SchemaInfo {
    var schemaType: int
    var name: string
    var schema: seq<int>
    var properties: map<string, string>
    var error: Option<SchemaError>   // what was thrown, if anything

    ghost function View(): Result<Schema, SchemaError>
      reads this
    {
      if error.Some? then Failure(error.value) else Success(Schema(schemaType, name, schema, properties))
    }

    constructor (schemaInfo: Value, toText: Value -> Option<string>)
      ensures View() == Parse(schemaInfo, toText)
    {
      schemaType, name, schema, properties, error := -1, "BYTES", [], map[], None;
      new;
      var t := Get(schemaInfo, "schemaType");
      if t.Str? {
        var it := Find(t.text);
        if it.None? {
          error := Some(UnknownType(t.text));
          return;
        }
        name := t.text;
        schemaType := it.value;
      }
      if Get(schemaInfo, "name").Str? {
        name := Get(schemaInfo, "name").text;
      }
      var d := Get(schemaInfo, "schema");
      if d.Str? {
        schema := Utf8(d.text);
      } else if IsBuffer(d) {
        schema := d.kind.bytes;
      }
      var p := Get(schemaInfo, "properties");
      if p.Object? {
        var threw := ReadProperties(p.props, toText);
        if threw {
          error := Some(Unconvertible);
        }
      }
    }

    /** The loop over the names of the property object, in whatever order they come, up to the first
        value that cannot be converted. */
    method ReadProperties(props: map<string, Value>, toText: Value -> Option<string>) returns (threw: bool)
      requires properties == map[]
      modifies this`properties
      ensures threw <==> !Convertible(props, toText)
      ensures !threw ==> properties == PropertyMap(props, toText)
    {
      var rest := props.Keys;
      while rest != {}
        invariant rest <= props.Keys
        invariant forall k :: k in props && k !in rest ==> toText(props[k]).Some?
        invariant properties == map k | k in props && k !in rest :: toText(props[k]).value
        decreases rest
      {
        var key :| key in rest;
        var value := toText(props[key]);
        if value.None? {
          return true;
        }
        rest := rest - {key};
        properties := properties[key := value.value];
      }
      return false;
    }
  }

  // ------------------------------------------------------ building an object

  /** The own properties that defining every pair one after the other can leave behind. */
  ghost predicate DefinedFrom(props: map<string, Value>, pairs: map<string, string>) {
    && (forall k :: k in pairs ==> CString(k) in props)
    && (forall c :: c in props ==> exists k :: k in pairs && CString(k) == c && props[c] == Str(pairs[k]))
  }

  /** What NewObject builds. */
  ghost predicate IsObjectFor(o: Value, typeName: string, info: Schema) {
    && o.Object?
    && Get(o, "schemaType") == Str(typeName)
    && Get(o, "name") == Str(info.name)
    && Get(o, "schema") == Object(Buffer(info.schema), map[])
    && Get(o, "properties").Object?
    && DefinedFrom(Get(o, "properties").props, info.properties)
  }

  method NewObject(typeName: string, info: Schema) returns (o: Value)
    ensures IsObjectFor(o, typeName, info)
  {
    var props := DefineProperties(info.properties);
    o := Object(Plain, map[
      "schemaType" := Str(typeName), "name" := Str(info.name),
      "schema" := Object(Buffer(info.schema), map[]), "properties" := Object(Plain, props)]);
  }

  method DefineProperties(pairs: map<string, string>) returns (props: map<string, Value>)
    ensures DefinedFrom(props, pairs)
  {
    props := map[];
    var rest := pairs.Keys;
    while rest != {}
      invariant rest <= pairs.Keys
      invariant forall k :: k in pairs && k !in rest ==> CString(k) in props
      invariant forall c :: c in props ==> exists k :: k in pairs && CString(k) == c && props[c] == Str(pairs[k])
      decreases rest
    {
      var k :| k in rest;
      rest := rest - {k};
      ghost var before := props;
      props := props[CString(k) := Str(pairs[k])];
      forall c | c in props ensures exists k' :: k' in pairs && CString(k') == c && props[c] == Str(pairs[k']) {
        if c != CString(k) {
          assert c in before && props[c] == before[c];
        }
      }
    }
  }

  // --------------------------------------------------------------- round trip

  predicate PlainKeys(m: map<string, string>) {
    forall k :: k in m ==> NoNul(k)
  }

  lemma PlainKeysAreKept(props: map<string, Value>, pairs: map<string, string>)
    requires DefinedFrom(props, pairs) && PlainKeys(pairs)
    ensures props.Keys == pairs.Keys && forall k :: k in pairs ==> props[k] == Str(pairs[k])
  {
    hide CString, NoNul;
    forall c | c in props ensures c in pairs && props[c] == Str(pairs[c]) {
      var k :| k in pairs && CString(k) == c && props[c] == Str(pairs[k]);
      assert NoNul(k);
    }
    forall k | k in pairs ensures k in props {
      assert NoNul(k) && CString(k) in props;
    }
  }

  lemma PlainKeysSurvive(props: map<string, Value>, pairs: map<string, string>, toText: Value -> Option<string>)
    requires KeepsStrings(toText) && DefinedFrom(props, pairs) && PlainKeys(pairs)
    ensures Convertible(props, toText) && PropertyMap(props, toText) == pairs
  {
    hide DefinedFrom, PlainKeys, CString, NoNul;
    PlainKeysAreKept(props, pairs);
  }

  lemma NulKeyIsAbsent(props: map<string, Value>, pairs: map<string, string>, k: string)
    requires DefinedFrom(props, pairs) && !NoNul(k)
    ensures k !in props
  {
    assert forall k' :: CString(k') != k;
  }

  lemma BuiltConverts(props: map<string, Value>, pairs: map<string, string>, toText: Value -> Option<string>)
    requires KeepsStrings(toText) && DefinedFrom(props, pairs)
    ensures Convertible(props, toText)
  {
    forall c | c in props ensures toText(props[c]).Some? {
      var k :| k in pairs && CString(k) == c && props[c] == Str(pairs[k]);
    }
  }

  lemma PropertiesRoundTrip(props: map<string, Value>, pairs: map<string, string>, toText: Value -> Option<string>)
    requires KeepsStrings(toText) && DefinedFrom(props, pairs)
    ensures Convertible(props, toText)
    ensures PropertyMap(props, toText) == pairs <==> PlainKeys(pairs)
  {
    BuiltConverts(props, pairs, toText);
    if PlainKeys(pairs) {
      PlainKeysSurvive(props, pairs, toText);
    } else {
      var k :| k in pairs && !NoNul(k);
      NulKeyIsAbsent(props, pairs, k);
      assert k !in PropertyMap(props, toText);
    }
  }

  /** Reading back what NewObject builds returns the same schema, for every supported type and any
      bytes, if and only if no property key contains a NUL. */
  lemma SchemaRoundTrip(o: Value, typeName: string, info: Schema, toText: Value -> Option<string>)
    requires KeepsStrings(toText) && IsObjectFor(o, typeName, info)
    requires Find(typeName) == Some(info.schemaType)
    ensures Parse(o, toText) == Success(info) <==> PlainKeys(info.properties)
  {
    PropertiesRoundTrip(Get(o, "properties").props, info.properties, toText);
  }

  /** A key with a NUL in it is cut short on the way. */
  lemma NulKeyIsLost(toText: Value -> Option<string>, o: Value)
    requires KeepsStrings(toText)
    requires IsObjectFor(o, "Bytes", Schema(-1, "n", [], map["a\0b" := "v"]))
    ensures Parse(o, toText) != Success(Schema(-1, "n", [], map["a\0b" := "v"]))
  {
    FindEntry(0, 4);
    var info := Schema(-1, "n", [], map["a\0b" := "v"]);
    assert "a\0b" in info.properties && "a\0b"[1] == '\0';
    SchemaRoundTrip(o, "Bytes", info, toText);
  }

  /** Client::GetSchemaInfo's callback: an object for a type that has a name, a rejection for the
      others (None). */
  method DeliverSchemaInfo(info: Schema) returns (o: Option<Value>, typeName: string)
    ensures o.None? <==> forall i :: 0 <= i < |SCHEMA_TYPE| ==> SCHEMA_TYPE[i].1 != info.schemaType
    ensures o.Some? ==> IsObjectFor(o.value, typeName, info) && Find(typeName) == Some(info.schemaType)
  {
    var schemaTypeName := GetSchemaTypeName(info.schemaType);
    if schemaTypeName.None? {
      return None, "";
    }
    typeName := schemaTypeName.value;
    var obj := NewObject(typeName, info);
    o := Some(obj);
    FoundInTable(typeName, 0);
  }

  lemma {:induction false} FoundInTable(name: string, k: nat)
    requires k <= |SCHEMA_TYPE| && FindFrom(name, k).Some?
    ensures exists i :: k <= i < |SCHEMA_TYPE| && SCHEMA_TYPE[i] == (name, FindFrom(name, k).value)
    decreases |SCHEMA_TYPE| - k
  {
    if SCHEMA_TYPE[k].0 != name {
      FoundInTable(name, k + 1);
    }
  }
}
