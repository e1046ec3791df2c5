/** src/Client.cc:83-259: the serviceUrlProvider option of a client, turned into the configuration
    of an automatic cluster failover. Errors are values that say what their text says: which field
    they name, and what is wrong with it. */
module Failover {
  import opened Common
  import opened JsValue

  const UINT32_MAX := 0xffff_ffff

  type Auth = nat

  datatype ServiceInfo = ServiceInfo(url: string, auth: Auth, tls: Option<string>)

  datatype Thresholds = Thresholds(checkIntervalMs: int, failover: int, switchBack: int)

  datatype Provider = Provider(primary: ServiceInfo, secondary: seq<ServiceInfo>, numbers: Thresholds)

  datatype Field = Primary | Secondary(index: nat)

  datatype Problem = EmptyUrl | NotAService | NoServiceUrl | AuthNotObject | TlsNotString

  datatype Error =
    | ProviderNotObject
    | PrimaryMissing
    | SecondaryMissing
    | SecondaryEmpty
    | BadService(field: Field, problem: Problem)
    | BadAuthentication            // the same text for every field
    | BadNumber(name: string)

  // ---------------------------------------------------------------- one service

  /** The authentication a service brings itself, if any. */
  function OwnAuth(v: Value): Option<Value> {
    if v.Object? && IsPresent(Get(v, "authentication")) then Some(Get(v, "authentication")) else None
  }

  /** An authentication object that wraps a native authentication. */
  predicate GoodAuth(a: Value) {
    Get(a, "binding").Object? && Get(a, "binding").kind.Binding? && Get(a, "binding").kind.auth.Some?
  }

  predicate GoodUrl(v: Value) {
    v.Str? && v.text != ""
  }

  /** The services that can be used. */
  predicate GoodService(v: Value) {
    || GoodUrl(v)
    || (&& v.Object?
        && GoodUrl(Get(v, "serviceUrl"))
        && (OwnAuth(v).Some? ==> OwnAuth(v).value.Object? && GoodAuth(OwnAuth(v).value))
        && (IsPresent(Get(v, "tlsTrustCertsFilePath")) ==> Get(v, "tlsTrustCertsFilePath").Str?))
  }

  /** What a usable service stands for: the defaults unless it overrides them. */
  function Info(v: Value, auth: Auth, tls: Option<string>): ServiceInfo
    requires GoodService(v)
  {
    if v.Str? then ServiceInfo(v.text, auth, tls)
    else ServiceInfo(
      Get(v, "serviceUrl").text,
      if OwnAuth(v).Some? then Get(OwnAuth(v).value, "binding").kind.auth.value else auth,
      if IsPresent(Get(v, "tlsTrustCertsFilePath")) then Some(Get(v, "tlsTrustCertsFilePath").text) else tls)
  }

  /** What a service says, option by option, with the defaults for what it does not say. */
  ghost predicate Describes(info: ServiceInfo, v: Value, auth: Auth, tls: Option<string>) {
    && (forall u :: v == Str(u) ==> info == ServiceInfo(u, auth, tls))
    && (v.Object? ==>
          && Get(v, "serviceUrl") == Str(info.url)
          && (if !IsPresent(Get(v, "authentication")) then info.auth == auth
              else Get(Get(v, "authentication"), "binding").Object?
                   && Get(Get(v, "authentication"), "binding").kind == Binding(Some(info.auth)))
          && (if !IsPresent(Get(v, "tlsTrustCertsFilePath")) then info.tls == tls
              else info.tls.Some? && Get(v, "tlsTrustCertsFilePath") == Str(info.tls.value)))
  }

  lemma InfoDescribes(v: Value, auth: Auth, tls: Option<string>)
    requires GoodService(v)
    ensures Describes(Info(v, auth, tls), v, auth, tls)
  {
  }

  /** The references a usable service needs kept alive. */
  function Kept(v: Value): seq<Value> {
    if OwnAuth(v).Some? then [Get(OwnAuth(v).value, "binding")] else []
  }

  /** The case in which the error does not come from the service itself but from its
      authentication object. */
  predicate BlamesAuth(v: Value) {
    v.Object? && GoodUrl(Get(v, "serviceUrl")) && OwnAuth(v).Some? && OwnAuth(v).value.Object?
    && !GoodAuth(OwnAuth(v).value)
  }

  /** std::vector<Napi::ObjectReference>. */
  class AuthRefs {
    var refs: seq<Value>

    constructor ()
      ensures refs == []
    {
      refs := [];
    }
  }

  method BuildAuthenticationPtr(authObject: Value, authRefs: AuthRefs) returns (r: Result<Auth, Error>)
    modifies authRefs
    ensures r.Success? <==> GoodAuth(authObject)
    ensures r.Success? ==> r.value == Get(authObject, "binding").kind.auth.value
                           && authRefs.refs == old(authRefs.refs) + [Get(authObject, "binding")]
    ensures r.Failure? ==> r.error == BadAuthentication && old(authRefs.refs) <= authRefs.refs
  {
    var binding := Get(authObject, "binding");
    if !binding.Object? {
      return Failure(BadAuthentication);
    }
    authRefs.refs := authRefs.refs + [binding];
    if !binding.kind.Binding? || binding.kind.auth.None? {
      return Failure(BadAuthentication);
    }
    return Success(binding.kind.auth.value);
  }

  /** What is wrong with a service, and nothing that is looked at before it. */
  predicate IsProblem(v: Value, p: Problem) {
    var urlGiven := v.Object? && GoodUrl(Get(v, "serviceUrl"));
    var auth := Get(v, "authentication");
    match p
    case EmptyUrl => v == Str("")
    case NotAService => !v.Str? && !v.Object?
    case NoServiceUrl => v.Object? && !GoodUrl(Get(v, "serviceUrl"))
    case AuthNotObject => urlGiven && IsPresent(auth) && !auth.Object?
    case TlsNotString =>
      && urlGiven && (IsPresent(auth) ==> auth.Object? && GoodAuth(auth))
      && IsPresent(Get(v, "tlsTrustCertsFilePath")) && !Get(v, "tlsTrustCertsFilePath").Str?
  }

  method BuildServiceInfo(value: Value, field: Field, authRefs: AuthRefs, auth: Auth, tls: Option<string>)
    returns (r: Result<ServiceInfo, Error>)
    modifies authRefs
    ensures r.Success? <==> GoodService(value)
    ensures r.Success? ==> r.value == Info(value, auth, tls) && authRefs.refs == old(authRefs.refs) + Kept(value)
    ensures r.Success? ==> Describes(r.value, value, auth, tls)
    ensures r.Failure? && r.error.BadService? ==> IsProblem(value, r.error.problem)
    ensures r.Failure? ==> old(authRefs.refs) <= authRefs.refs
    ensures r.Failure? ==> if BlamesAuth(value) then r.error == BadAuthentication
                           else r.error.BadService? && r.error.field == field
  {
    if GoodService(value) {
      InfoDescribes(value, auth, tls);
    }
    if value.Str? {
      if value.text == "" {
        return Failure(BadService(field, EmptyUrl));
      }
      return Success(ServiceInfo(value.text, auth, tls));
    }
    if !value.Object? {
      return Failure(BadService(field, NotAService));
    }
    if !Get(value, "serviceUrl").Str? || Get(value, "serviceUrl").text == "" {
      return Failure(BadService(field, NoServiceUrl));
    }
    var authentication, tlsTrustCertsFilePath := auth, tls;
    if IsPresent(Get(value, "authentication")) {
      if !Get(value, "authentication").Object? {
        return Failure(BadService(field, AuthNotObject));
      }
      var own := BuildAuthenticationPtr(Get(value, "authentication"), authRefs);
      if own.Failure? {
        return Failure(own.error);
      }
      authentication := own.value;
    }
    if IsPresent(Get(value, "tlsTrustCertsFilePath")) {
      if !Get(value, "tlsTrustCertsFilePath").Str? {
        return Failure(BadService(field, TlsNotString));
      }
      tlsTrustCertsFilePath := Some(Get(value, "tlsTrustCertsFilePath").text);
    }
    return Success(ServiceInfo(Get(value, "serviceUrl").text, authentication, tlsTrustCertsFilePath));
  }

  // -------------------------------------------------------------------- numbers

  /** Absent, or a number that truncates into 1 .. 2^32 - 1. */
  predicate GoodNumber(config: Value, name: string) {
    var v := Get(config, name);
    IsPresent(v) ==> v.Num? && 0 < Int64Value(v.number) <= UINT32_MAX
  }

  function NumberOr(config: Value, name: string, default: int): int
    requires GoodNumber(config, name)
  {
    if IsPresent(Get(config, name)) then Int64Value(Get(config, name).number) else default
  }

  /** The given number, truncated, or what was there before. */
  ghost predicate SetsNumber(config: Value, name: string, before: int, after: int) {
    && (!IsPresent(Get(config, name)) ==> after == before)
    && (IsPresent(Get(config, name)) ==>
          exists r :: Get(config, name) == Num(Finite(r)) && after == Trunc(r) && 0 < after <= UINT32_MAX)
  }

  lemma GoodNumberIsTruncated(config: Value, name: string, default: int)
    requires GoodNumber(config, name)
    ensures SetsNumber(config, name, default, NumberOr(config, name, default))
  {
    if IsPresent(Get(config, name)) {
      assert Get(config, name).number.Finite?;
      assert Get(config, name) == Num(Finite(Get(config, name).number.value));
    }
  }

  method SetPositiveUint32(config: Value, name: string, target: int) returns (r: Result<int, Error>)
    ensures r.Success? <==> GoodNumber(config, name)
    ensures r.Success? ==> SetsNumber(config, name, target, r.value)
    ensures r.Success? ==> r.value == NumberOr(config, name, target)
    ensures r.Failure? ==> r.error == BadNumber(name)
  {
    if GoodNumber(config, name) {
      GoodNumberIsTruncated(config, name, target);
    }
    if !IsPresent(Get(config, name)) {
      return Success(target);
    }
    if !Get(config, name).Num? {
      return Failure(BadNumber(name));
    }
    var value := Int64Value(Get(config, name).number);
    if value <= 0 || value > UINT32_MAX {
      return Failure(BadNumber(name));
    }
    return Success(value);
  }

  // ------------------------------------------------------------------- provider

  predicate AllGood(items: seq<Value>) {
    forall i :: 0 <= i < |items| ==> GoodService(items[i])
  }

  function Items(config: Value): seq<Value> {
    if IsArray(Get(config, "secondary")) then Get(config, "secondary").kind.items else []
  }

  predicate GoodNumbers(config: Value) {
    GoodNumber(config, "checkIntervalMs") && GoodNumber(config, "failoverThreshold")
    && GoodNumber(config, "switchBackThreshold")
  }

  /** The provider options that can be used. */
  predicate GoodProvider(config: Value) {
    && config.Object?
    && GoodService(Get(config, "primary"))
    && Items(config) != [] && AllGood(Items(config))
    && GoodNumbers(config)
  }

  function Infos(items: seq<Value>, auth: Auth, tls: Option<string>): seq<ServiceInfo>
    requires AllGood(items)
  {
    seq(|items|, i requires 0 <= i < |items| => assert GoodService(items[i]); Info(items[i], auth, tls))
  }

  function AllKept(items: seq<Value>): seq<Value> {
    if items == [] then [] else AllKept(items[..|items| - 1]) + Kept(items[|items| - 1])
  }

  /** The loop over the secondaries: all of them in order, or the error of the first bad one. */
  method BuildSecondaries(items: seq<Value>, authRefs: AuthRefs, auth: Auth, tls: Option<string>)
    returns (r: Result<seq<ServiceInfo>, Error>)
    modifies authRefs
    ensures r.Success? <==> AllGood(items)
    ensures r.Success? ==> r.value == Infos(items, auth, tls) && authRefs.refs == old(authRefs.refs) + AllKept(items)
    ensures r.Failure? ==>
              exists i :: 0 <= i < |items| && AllGood(items[..i]) && !GoodService(items[i])
                          && if BlamesAuth(items[i]) then r.error == BadAuthentication
                             else r.error.BadService? && r.error.field == Secondary(i)
    ensures old(authRefs.refs) <= authRefs.refs
  {
    hide GoodService, Info, BlamesAuth, Kept;
    var secondary: seq<ServiceInfo> := [];
    for i := 0 to |items|
      invariant AllGood(items[..i])
      invariant secondary == Infos(items[..i], auth, tls)
      invariant authRefs.refs == old(authRefs.refs) + AllKept(items[..i])
    {
      var serviceInfo := BuildServiceInfo(items[i], Secondary(i), authRefs, auth, tls);
      if serviceInfo.Failure? {
        return Failure(serviceInfo.error);
      }
      assert items[..i + 1][..i] == items[..i];
      assert forall j :: 0 <= j < i ==> items[..i + 1][j] == items[..i][j];
      secondary := secondary + [serviceInfo.value];
    }
    assert items[..|items|] == items;
    return Success(secondary);
  }

  /** Each number comes from the option of its own name. */
  ghost predicate SetsNumbers(config: Value, before: Thresholds, after: Thresholds) {
    && SetsNumber(config, "checkIntervalMs", before.checkIntervalMs, after.checkIntervalMs)
    && SetsNumber(config, "failoverThreshold", before.failover, after.failover)
    && SetsNumber(config, "switchBackThreshold", before.switchBack, after.switchBack)
  }

  method BuildNumbers(config: Value, defaults: Thresholds) returns (r: Result<Thresholds, Error>)
    ensures r.Success? <==> GoodNumbers(config)
    ensures r.Success? ==>
              r.value == Thresholds(NumberOr(config, "checkIntervalMs", defaults.checkIntervalMs),
                                    NumberOr(config, "failoverThreshold", defaults.failover),
                                    NumberOr(config, "switchBackThreshold", defaults.switchBack))
    ensures r.Success? ==> SetsNumbers(config, defaults, r.value)
    ensures r.Failure? ==> r.error.BadNumber?
  {
    var checkIntervalMs := SetPositiveUint32(config, "checkIntervalMs", defaults.checkIntervalMs);
    if checkIntervalMs.Failure? {
      return Failure(checkIntervalMs.error);
    }
    var failover := SetPositiveUint32(config, "failoverThreshold", defaults.failover);
    if failover.Failure? {
      return Failure(failover.error);
    }
    var switchBack := SetPositiveUint32(config, "switchBackThreshold", defaults.switchBack);
    if switchBack.Failure? {
      return Failure(switchBack.error);
    }
    return Success(Thresholds(checkIntervalMs.value, failover.value, switchBack.value));
  }

  /** Whether an error's text names the secondary at index i. */
  predicate Names(e: Error, i: nat) {
    e.BadService? && e.field == Secondary(i)
  }

  /** Index i is the first secondary that cannot be used. */
  predicate FirstBad(items: seq<Value>, i: nat) {
    i < |items| && !GoodService(items[i]) && AllGood(items[..i])
  }

  /** A provider is built if and only if its options are usable; then the secondaries keep their
      order and every authentication that overrides the default is retained. If the primary is fine
      and a secondary is not, the error names the first bad one, if and only if that one is not
      bad because of its authentication object alone. */
  method BuildServiceInfoProvider(config: Value, authRefs: AuthRefs, auth: Auth, tls: Option<string>,
                                  defaults: Thresholds)
    returns (r: Result<Provider, Error>)
    modifies authRefs
    ensures r.Success? <==> GoodProvider(config)
    ensures r.Success? ==>
              && r.value.primary == Info(Get(config, "primary"), auth, tls)
              && r.value.secondary == Infos(Items(config), auth, tls)
              && r.value.numbers == Thresholds(NumberOr(config, "checkIntervalMs", defaults.checkIntervalMs),
                                               NumberOr(config, "failoverThreshold", defaults.failover),
                                               NumberOr(config, "switchBackThreshold", defaults.switchBack))
              && authRefs.refs == old(authRefs.refs) + Kept(Get(config, "primary")) + AllKept(Items(config))
    ensures r.Success? ==>
              && Describes(r.value.primary, Get(config, "primary"), auth, tls)
              && |r.value.secondary| == |Get(config, "secondary").kind.items|
              && (forall i :: 0 <= i < |r.value.secondary| ==>
                    Describes(r.value.secondary[i], Get(config, "secondary").kind.items[i], auth, tls))
              && SetsNumbers(config, defaults, r.value.numbers)
    ensures r == Failure(ProviderNotObject) <==> !config.Object?
    ensures r == Failure(PrimaryMissing) <==> config.Object? && !IsPresent(Get(config, "primary"))
    ensures r == Failure(SecondaryMissing) <==>
              config.Object? && GoodService(Get(config, "primary")) && !IsArray(Get(config, "secondary"))
    ensures r == Failure(SecondaryEmpty) <==>
              config.Object? && GoodService(Get(config, "primary")) && IsArray(Get(config, "secondary"))
              && Items(config) == []
    ensures (r.Failure? && r.error.BadNumber?) <==>
              config.Object? && GoodService(Get(config, "primary")) && Items(config) != []
              && AllGood(Items(config)) && !GoodNumbers(config)
    ensures config.Object? && GoodService(Get(config, "primary")) ==>
              forall i: nat :: FirstBad(Items(config), i) ==>
                r.Failure? && (Names(r.error, i) <==> !BlamesAuth(Items(config)[i]))
  {
    if !config.Object? {
      return Failure(ProviderNotObject);
    }
    if !IsPresent(Get(config, "primary")) {
      return Failure(PrimaryMissing);
    }
    var primary := BuildServiceInfo(Get(config, "primary"), Primary, authRefs, auth, tls);
    if primary.Failure? {
      return Failure(primary.error);
    }
    if !IsArray(Get(config, "secondary")) {
      return Failure(SecondaryMissing);
    }
    var items := Get(config, "secondary").kind.items;
    if |items| == 0 {
      return Failure(SecondaryEmpty);
    }
    var secondary := BuildSecondaries(items, authRefs, auth, tls);
    if secondary.Failure? {
      ghost var k :| 0 <= k < |items| && AllGood(items[..k]) && !GoodService(items[k])
                     && if BlamesAuth(items[k]) then secondary.error == BadAuthentication
                        else secondary.error.BadService? && secondary.error.field == Secondary(k);
      forall i: nat | FirstBad(items, i) ensures i == k {
        FirstBadIsUnique(items, i, k);
      }
      return Failure(secondary.error);
    }
    assert forall i: nat :: !FirstBad(items, i);
    var numbers := BuildNumbers(config, defaults);
    if numbers.Failure? {
      return Failure(numbers.error);
    }
    DescribesAll(items, auth, tls);
    return Success(Provider(primary.value, secondary.value, numbers.value));
  }

  lemma DescribesAll(items: seq<Value>, auth: Auth, tls: Option<string>)
    requires AllGood(items)
    ensures forall i :: 0 <= i < |items| ==> Describes(Infos(items, auth, tls)[i], items[i], auth, tls)
  {
    hide GoodService, Info, Describes;
    forall i | 0 <= i < |items| ensures Describes(Infos(items, auth, tls)[i], items[i], auth, tls) {
      assert GoodService(items[i]);
      InfoDescribes(items[i], auth, tls);
    }
  }

  lemma FirstBadIsUnique(items: seq<Value>, i: nat, k: nat)
    requires FirstBad(items, i) && FirstBad(items, k)
    ensures i == k
  {
    assert forall j :: 0 <= j < i ==> GoodService(items[..i][j]);
    assert forall j :: 0 <= j < k ==> GoodService(items[..k][j]);
  }

  /** A secondary whose authentication object wraps no native authentication is refused without
      saying which secondary it was. */
  lemma UnnamedSecondary()
    ensures
      var badAuth := Object(Plain, map["binding" := Object(Binding(None), map[])]);
      var service := Object(Plain, map["serviceUrl" := Str("u"), "authentication" := badAuth]);
      FirstBad([service], 0) && BlamesAuth(service)
  {
    var badAuth := Object(Plain, map["binding" := Object(Binding(None), map[])]);
    var service := Object(Plain, map["serviceUrl" := Str("u"), "authentication" := badAuth]);
    assert Get(badAuth, "binding") == Object(Binding(None), map[]);
    assert OwnAuth(service) == Some(badAuth);
    assert !GoodAuth(badAuth);
    assert !GoodService([service][0]);
  }

  /** Each service of a built provider uses the default authentication or one whose binding is
      retained. */
  lemma {:induction false} OverridesAreRetained(items: seq<Value>, i: nat, auth: Auth, tls: Option<string>)
    requires AllGood(items) && i < |items|
    ensures var info := Info(items[i], auth, tls);
            if OwnAuth(items[i]).None? then info.auth == auth
            else exists b :: b in AllKept(items) && b.Object? && b.kind == Binding(Some(info.auth))
  {
    if OwnAuth(items[i]).Some? {
      var b := Get(OwnAuth(items[i]).value, "binding");
      assert GoodService(items[i]);
      assert b in Kept(items[i]);
      KeptIsIn(items, i, b);
      assert b.kind == Binding(Some(Info(items[i], auth, tls).auth));
    }
  }

  lemma {:induction false} KeptIsIn(items: seq<Value>, i: nat, b: Value)
    requires i < |items| && b in Kept(items[i])
    ensures b in AllKept(items)
  {
    if i < |items| - 1 {
      KeptIsIn(items[..|items| - 1], i, b);
    }
  }
}
