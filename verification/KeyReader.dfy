/** src/CryptoKeyReader.cc: the encryption library asks for a key from whatever thread it runs on;
    on the main thread the JavaScript object is asked directly, elsewhere the question is queued
    and its thread waits. */
module KeyReader {
  import opened Common
  import opened ThreadSafeFunction

  type Metadata = map<string, string>

  datatype ResultCode = ResultOk | ResultCryptoError

  datatype KeyInfo = KeyInfo(key: seq<int>, metadata: Metadata)

  /** The entries of a std::map<std::string, std::string>, in its order. */
  type Pairs = seq<(string, string)>

  /** The metadata property of a result: not an object, or one whose names are listed with the text
      that reading each of them gives, or one of which some property cannot be read as text. */
  datatype MetadataProperty = NoObject | Entries(pairs: Pairs) | Unreadable

  /** What the JavaScript method returned: `key` is present if it is a Buffer. */
  datatype KeyObject = KeyObject(key: Option<seq<int>>, metadata: MetadataProperty)

  datatype Reply = Throws | ReturnsNoObject | Returns(obj: KeyObject)

  /** A property of the reader object: a function is a table of its answers. */
  datatype Property =
    | NotAFunction
    | Function(answers: map<(string, Metadata), Reply>, otherwise: Reply)

  /** The JavaScript object as it is at some moment; `empty` if the reference is. */
  datatype Js = Js(empty: bool, properties: map<string, Property>)

  // ------------------------------------------------------------ one question

  /** Setting a property of a plain object: the name ends at a NUL, and "__proto__" goes to the
      prototype and is lost. */
  function SetProperty(m: Metadata, k: string, v: string): Metadata {
    if CString(k) == "__proto__" then m else m[CString(k) := v]
  }

  /** The metadata as the JavaScript function sees it. */
  function Visible(pairs: Pairs): Metadata {
    if pairs == [] then map[]
    else SetProperty(Visible(pairs[..|pairs| - 1]), pairs[|pairs| - 1].0, pairs[|pairs| - 1].1)
  }

  predicate PlainName(k: string) {
    k != "__proto__" && NoNul(k)
  }

  function MapOf(pairs: Pairs): Metadata {
    if pairs == [] then map[]
    else MapOf(pairs[..|pairs| - 1])[pairs[|pairs| - 1].0 := pairs[|pairs| - 1].1]
  }

  predicate Distinct(pairs: Pairs) {
    forall i, j :: 0 <= i < j < |pairs| ==> pairs[i].0 != pairs[j].0
  }

  predicate HasName(pairs: Pairs, k: string) {
    exists i :: 0 <= i < |pairs| && pairs[i].0 == k
  }

  lemma {:induction false} MapOfNames(pairs: Pairs, k: string)
    ensures k in MapOf(pairs) <==> HasName(pairs, k)
  {
    if pairs != [] {
      var n := |pairs| - 1;
      MapOfNames(pairs[..n], k);
      if HasName(pairs[..n], k) {
        var i :| 0 <= i < n && pairs[..n][i].0 == k;
        assert pairs[i].0 == k;
      } else if i :| 0 <= i < |pairs| && pairs[i].0 == k {
        assert i == n || pairs[..n][i].0 == k;
      }
    }
  }

  lemma {:induction false} PlainMetadataIsVisible(pairs: Pairs)
    requires forall i :: 0 <= i < |pairs| ==> PlainName(pairs[i].0)
    ensures Visible(pairs) == MapOf(pairs)
  {
    if pairs != [] {
      PlainMetadataIsVisible(pairs[..|pairs| - 1]);
    }
  }

  lemma {:induction false} OtherNamesAreLost(pairs: Pairs, k: string)
    requires !PlainName(k)
    ensures k !in Visible(pairs)
  {
    if pairs != [] {
      OtherNamesAreLost(pairs[..|pairs| - 1], k);
    }
  }

  /** JavaScript is shown the metadata the library gave if and only if every name is plain. */
  lemma MetadataIsShownIffPlain(pairs: Pairs)
    ensures Visible(pairs) == MapOf(pairs) <==> forall i :: 0 <= i < |pairs| ==> PlainName(pairs[i].0)
  {
    if forall i :: 0 <= i < |pairs| ==> PlainName(pairs[i].0) {
      PlainMetadataIsVisible(pairs);
    } else {
      var i :| 0 <= i < |pairs| && !PlainName(pairs[i].0);
      OtherNamesAreLost(pairs, pairs[i].0);
      MapOfNames(pairs, pairs[i].0);
    }
  }

  /** An instance of metadata that JavaScript is not shown. */
  lemma ProtoIsLost()
    ensures Visible([("__proto__", "v")]) == map[] && MapOf([("__proto__", "v")]) == map["__proto__" := "v"]
  {
    var pairs := [("__proto__", "v")];
    assert pairs[..0] == [];
    assert NoNul("__proto__");
  }

  /** With distinct names, the property loop keeps every property and adds none. */
  lemma {:induction false} MapOfKeepsProperties(pairs: Pairs, i: nat)
    requires Distinct(pairs) && i < |pairs|
    ensures pairs[i].0 in MapOf(pairs) && MapOf(pairs)[pairs[i].0] == pairs[i].1
  {
    var n := |pairs| - 1;
    if i < n {
      MapOfKeepsProperties(pairs[..n], i);
      assert pairs[..n][i] == pairs[i];
    }
  }

  // ------------------------------------------ what an answer means, by itself

  /** A map of exactly the listed names, each with the value it is listed with last. */
  ghost predicate ListedAs(pairs: Pairs, m: Metadata) {
    && (forall k :: k in m <==> HasName(pairs, k))
    && (forall i :: 0 <= i < |pairs| && (forall j :: i < j < |pairs| ==> pairs[j].0 != pairs[i].0) ==>
          pairs[i].0 in m && m[pairs[i].0] == pairs[i].1)
  }

  /** The names that reach JavaScript: up to the first NUL, and not "__proto__". */
  function ShownNames(pairs: Pairs): Pairs {
    if pairs == [] then []
    else
      var last := pairs[|pairs| - 1];
      ShownNames(pairs[..|pairs| - 1]) + if CString(last.0) == "__proto__" then [] else [(CString(last.0), last.1)]
  }

  /** The key info after an object was returned: its key and its metadata where it has them, what was
      there before where it does not. */
  ghost predicate Received(obj: KeyObject, before: KeyInfo, after: KeyInfo) {
    && (obj.key.Some? ==> after.key == obj.key.value)
    && (obj.key.None? ==> after.key == before.key)
    && (obj.metadata.Entries? ==> ListedAs(obj.metadata.pairs, after.metadata))
    && (!obj.metadata.Entries? ==> after.metadata == before.metadata)
  }

  predicate Callable(js: Js, name: string) {
    !js.empty && name in js.properties && js.properties[name].Function?
  }

  /** The function answers, when it is called with this key name and the metadata shown, like so. */
  ghost predicate Replies(p: Property, keyName: string, shown: Metadata, reply: Reply)
    requires p.Function?
  {
    && ((keyName, shown) in p.answers ==> reply == p.answers[(keyName, shown)])
    && ((keyName, shown) !in p.answers ==> reply == p.otherwise)
  }

  /** Code and key info are those of asking the object once: it is called exactly if it has the method,
      with the key name and the metadata as it is shown; the result is Ok exactly if it then returns an
      object that can be read; and the key info is what was received. */
  ghost predicate AnswerFits(js: Js, name: string, keyName: string, metadata: Pairs,
                             before: KeyInfo, code: ResultCode, after: KeyInfo) {
    if !Callable(js, name) then code == ResultCryptoError && after == before
    else exists shown, reply ::
      && ListedAs(ShownNames(metadata), shown)
      && Replies(js.properties[name], keyName, shown, reply)
      && (code == ResultOk <==> reply.Returns? && !reply.obj.metadata.Unreadable?)
      && (reply.Returns? ==> Received(reply.obj, before, after))
      && (!reply.Returns? ==> after == before)
  }

  lemma {:induction false} LastIsKept(pairs: Pairs, i: nat)
    requires i < |pairs| && forall j :: i < j < |pairs| ==> pairs[j].0 != pairs[i].0
    ensures pairs[i].0 in MapOf(pairs) && MapOf(pairs)[pairs[i].0] == pairs[i].1
  {
    var n := |pairs| - 1;
    if i == n {
    } else {
      assert pairs[n].0 != pairs[i].0 && pairs[..n][i] == pairs[i];
      LastIsKept(pairs[..n], i);
    }
  }

  lemma MapOfIsListed(pairs: Pairs)
    ensures ListedAs(pairs, MapOf(pairs))
  {
    hide MapOf, HasName;
    forall k ensures k in MapOf(pairs) <==> HasName(pairs, k) {
      MapOfNames(pairs, k);
    }
    forall i | 0 <= i < |pairs| && (forall j :: i < j < |pairs| ==> pairs[j].0 != pairs[i].0)
      ensures pairs[i].0 in MapOf(pairs) && MapOf(pairs)[pairs[i].0] == pairs[i].1
    {
      LastIsKept(pairs, i);
    }
  }

  lemma {:induction false} VisibleIsShown(pairs: Pairs)
    ensures Visible(pairs) == MapOf(ShownNames(pairs))
  {
    if pairs == [] {
    } else {
      var init := pairs[..|pairs| - 1];
      VisibleIsShown(init);
      var last := pairs[|pairs| - 1];
      if CString(last.0) != "__proto__" {
        assert ShownNames(pairs)[..|ShownNames(pairs)| - 1] == ShownNames(init);
      } else {
        assert ShownNames(pairs) == ShownNames(init);
      }
    }
  }

  /** The key info after parsing; an exception halfway leaves the key that was set before it. */
  function ParseKeyInfo(obj: KeyObject, info: KeyInfo): KeyInfo {
    KeyInfo(
      if obj.key.Some? then obj.key.value else info.key,
      if obj.metadata.Entries? then MapOf(obj.metadata.pairs) else info.metadata)
  }

  function Ask(p: Property, keyName: string, metadata: Metadata): Reply
    requires p.Function?
  {
    if (keyName, metadata) in p.answers then p.answers[(keyName, metadata)] else p.otherwise
  }

  /** callJsMethod as a function of the moment it runs. */
  function CallJs(js: Js, name: string, keyName: string, metadata: Pairs, info: KeyInfo)
    : (ResultCode, KeyInfo)
  {
    if js.empty || name !in js.properties || !js.properties[name].Function? then (ResultCryptoError, info)
    else match Ask(js.properties[name], keyName, Visible(metadata))
      case Returns(obj) =>
        (if obj.metadata.Unreadable? then ResultCryptoError else ResultOk, ParseKeyInfo(obj, info))
      case _ => (ResultCryptoError, info)
  }

  lemma ParseReceives(obj: KeyObject, info: KeyInfo)
    ensures Received(obj, info, ParseKeyInfo(obj, info))
  {
    hide ListedAs;
    if obj.metadata.Entries? {
      MapOfIsListed(obj.metadata.pairs);
    }
  }

  /** callJsMethod does what an answer means. */
  lemma CallFits(js: Js, name: string, keyName: string, metadata: Pairs, info: KeyInfo)
    ensures var (code, after) := CallJs(js, name, keyName, metadata, info);
            AnswerFits(js, name, keyName, metadata, info, code, after)
  {
    hide ListedAs, Received, Visible, MapOf, ShownNames;
    if Callable(js, name) {
      var shown := Visible(metadata);
      var reply := Ask(js.properties[name], keyName, shown);
      VisibleIsShown(metadata);
      MapOfIsListed(ShownNames(metadata));
      assert Replies(js.properties[name], keyName, shown, reply);
      if reply.Returns? {
        ParseReceives(reply.obj, info);
      }
    }
  }

  /** A list determines its map, so that an answer that fits is the only one. */
  lemma ListedAsUnique(pairs: Pairs, a: Metadata, b: Metadata)
    requires ListedAs(pairs, a) && ListedAs(pairs, b)
    ensures a == b
  {
    forall k | k in a ensures k in b && a[k] == b[k] {
      var i := LastOf(pairs, k);
    }
    assert a.Keys == b.Keys;
  }

  lemma {:induction false} LastOf(pairs: Pairs, k: string) returns (i: nat)
    requires HasName(pairs, k)
    ensures i < |pairs| && pairs[i].0 == k && forall j :: i < j < |pairs| ==> pairs[j].0 != k
  {
    var n := |pairs| - 1;
    if pairs[n].0 == k {
      i := n;
    } else {
      var w :| 0 <= w < |pairs| && pairs[w].0 == k;
      assert pairs[..n][w].0 == k;
      i := LastOf(pairs[..n], k);
    }
  }

  /** The caller's EncryptionKeyInfo, filled in place. */
  class EncryptionKeyInfo {
    var key: seq<int>
    var metadata: Metadata

    ghost function View(): KeyInfo
      reads this
    {
      KeyInfo(key, metadata)
    }

    constructor (key: seq<int>, metadata: Metadata)
      ensures View() == KeyInfo(key, metadata)
    {
      this.key, this.metadata := key, metadata;
    }
  }

  method ParseEncryptionKeyInfo(obj: KeyObject, info: EncryptionKeyInfo) returns (threw: bool)
    modifies info
    ensures threw <==> obj.metadata.Unreadable?
    ensures info.View() == ParseKeyInfo(obj, old(info.View()))
    ensures Received(obj, old(info.View()), info.View())
  {
    ParseReceives(obj, info.View());
    threw := false;
    if obj.key.Some? {
      info.key := obj.key.value;
    }
    if obj.metadata.Unreadable? {
      return true;
    }
    if obj.metadata.Entries? {
      var keys := obj.metadata.pairs;
      var metadata: Metadata := map[];
      for i := 0 to |keys|
        invariant metadata == MapOf(keys[..i])
      {
        assert keys[..i + 1][..i] == keys[..i];
        metadata := metadata[keys[i].0 := keys[i].1];
      }
      assert keys[..|keys|] == keys;
      info.metadata := metadata;
    }
  }

  method CallJsMethod(js: Js, name: string, keyName: string, metadata: Pairs, info: EncryptionKeyInfo)
    returns (r: ResultCode)
    modifies info
    ensures (r, info.View()) == CallJs(js, name, keyName, metadata, old(info.View()))
    ensures AnswerFits(js, name, keyName, metadata, old(info.View()), r, info.View())
  {
    CallFits(js, name, keyName, metadata, info.View());
    if js.empty || name !in js.properties {
      return ResultCryptoError;
    }
    var funcVal := js.properties[name];
    if !funcVal.Function? {
      return ResultCryptoError;
    }
    var metadataObj: Metadata := map[];
    for i := 0 to |metadata|
      invariant metadataObj == Visible(metadata[..i])
    {
      assert metadata[..i + 1][..i] == metadata[..i];
      metadataObj := SetProperty(metadataObj, metadata[i].0, metadata[i].1);
    }
    assert metadata[..|metadata|] == metadata;
    var result := Ask(funcVal, keyName, metadataObj);
    if result.Returns? {
      var threw := ParseEncryptionKeyInfo(result.obj, info);
      return if threw then ResultCryptoError else ResultOk;
    }
    return ResultCryptoError;
  }

  // ----------------------------------------------------- any number of threads

  datatype Stage =
    | Asked                                  // executeCallback was entered
    | Queued                                 // native: waiting for the future
    | Answered(code: ResultCode)             // native: the promise is set
    | Returned(code: ResultCode, refused: bool)  // the frame is gone; refused: queueing failed

  /** One executeCallback and its stack frame. `given` is the key info at the call, `info` the
      referenced one; `from` and `at` say which state of the JavaScript object was current when the
      call began and when it was answered. */
  datatype Request = Request(
    thread: nat, name: string, keyName: string, metadata: Pairs, given: KeyInfo,
    info: KeyInfo, stage: Stage, from: nat, at: nat)

  /** Thread 0 is the main thread. `script` lists the states of the JavaScript object so far. */
  datatype State = State(script: seq<Js>, tsfn: Tsfn<nat>, requests: seq<Request>, fault: bool)

  datatype Step =
    | Change(js: Js)
    | Execute(thread: nat, name: string, keyName: string, metadata: Pairs, info: KeyInfo)
    | CallDirectly(i: nat)
    | Queue(i: nat)
    | QueueFails(i: nat)
    | RunQueued
    | Return(i: nat)

  function Init(js: Js): State {
    State([js], Create(0, 1), [], false)
  }

  predicate Active(r: Request) {
    !r.stage.Returned?
  }

  predicate Is(s: State, i: nat, st: Stage) {
    i < |s.requests| && s.requests[i].stage == st
  }

  predicate MainFree(s: State) {
    forall i :: 0 <= i < |s.requests| && s.requests[i].thread == 0 ==> !Active(s.requests[i])
  }

  predicate Enabled(s: State, a: Step) {
    match a
    case Change(_) => true
    case Execute(t, _, _, _, _) =>
      forall i :: 0 <= i < |s.requests| && s.requests[i].thread == t ==> !Active(s.requests[i])
    case CallDirectly(i) => Is(s, i, Asked) && s.requests[i].thread == 0
    case Queue(i) => Is(s, i, Asked) && s.requests[i].thread != 0 && CallReturns(s.tsfn)
    case QueueFails(i) => Is(s, i, Asked) && s.requests[i].thread != 0
    case RunQueued => MainFree(s) && CanDispatch(s.tsfn)
    case Return(i) => i < |s.requests| && s.requests[i].stage.Answered?
  }

  function Now(s: State): nat {
    if s.script == [] then 0 else |s.script| - 1
  }

  /** callJsMethod, run by the main thread on the frame of request i. */
  function Answer(s: State, i: nat): (ResultCode, Request)
    requires i < |s.requests| && s.script != []
  {
    var r := s.requests[i];
    var (code, info) := CallJs(s.script[Now(s)], r.name, r.keyName, r.metadata, r.info);
    (code, r.(info := info, at := Now(s)))
  }

  function Next(s: State, a: Step): State
    requires Enabled(s, a)
  {
    match a
    case Change(js) => s.(script := s.script + [js])
    case Execute(t, name, keyName, metadata, info) =>
      s.(requests := s.requests + [Request(t, name, keyName, metadata, info, info, Asked, Now(s), Now(s))])
    case CallDirectly(i) =>
      if s.script == [] then s.(fault := true)
      else
        var (code, r) := Answer(s, i);
        s.(requests := s.requests[i := r.(stage := Returned(code, false))])
    case Queue(i) =>
      s.(tsfn := BlockingCall(s.tsfn, i).1, requests := s.requests[i := s.requests[i].(stage := Queued)])
    case QueueFails(i) =>
      s.(requests := s.requests[i := s.requests[i].(stage := Returned(ResultCryptoError, true))])
    case RunQueued =>
      var (i, f) := Dispatch(s.tsfn);
      var n := s.(tsfn := f);
      if i >= |s.requests| || s.script == [] then n.(fault := true)
      else
        var (code, r) := Answer(s, i);
        n.(requests := s.requests[i := r.(stage := Answered(code))],
           fault := s.fault || !s.requests[i].stage.Queued?)
    case Return(i) =>
      s.(requests := s.requests[i := s.requests[i].(stage := Returned(s.requests[i].stage.code, false))])
  }

  predicate Legal(s: State, steps: seq<Step>)
    decreases steps
  {
    steps != [] ==> Enabled(s, steps[0]) && Legal(Next(s, steps[0]), steps[1..])
  }

  function After(s: State, steps: seq<Step>): State
    requires Legal(s, steps)
    decreases steps
  {
    if steps == [] then s else After(Next(s, steps[0]), steps[1..])
  }

  // -------------------------------------------------------------- the invariant

  /** The request was answered as a direct call at moment `at` would have answered it. */
  predicate AnsweredLikeDirectCall(s: State, r: Request, code: ResultCode) {
    && r.from <= r.at < |s.script|
    && (code, r.info) == CallJs(s.script[r.at], r.name, r.keyName, r.metadata, r.given)
  }

  predicate RequestInv(s: State, r: Request) {
    && r.from < |s.script|
    && match r.stage
       case Asked => r.info == r.given
       case Queued => r.info == r.given && r.thread != 0
       case Answered(code) => AnsweredLikeDirectCall(s, r, code) && r.thread != 0
       case Returned(code, refused) =>
         if refused then code == ResultCryptoError && r.info == r.given && r.thread != 0
         else AnsweredLikeDirectCall(s, r, code)
  }

  predicate Answers(s: State) {
    forall i :: 0 <= i < |s.requests| ==> RequestInv(s, s.requests[i])
  }

  /** A thread is inside one executeCallback at most. */
  predicate OnePerThread(s: State) {
    forall i, j :: 0 <= i < j < |s.requests| && Active(s.requests[i]) && Active(s.requests[j]) ==>
      s.requests[i].thread != s.requests[j].thread
  }

  /** The queue holds exactly the queued requests, once each. */
  predicate Waiting(s: State) {
    && (forall k :: 0 <= k < |s.tsfn.queue| ==> Is(s, s.tsfn.queue[k], Queued))
    && (forall k, l :: 0 <= k < l < |s.tsfn.queue| ==> s.tsfn.queue[k] != s.tsfn.queue[l])
    && (forall i :: 0 <= i < |s.requests| && s.requests[i].stage.Queued? ==> i in s.tsfn.queue)
  }

  predicate Inv(s: State) {
    && !s.fault && s.script != []
    && s.tsfn.phase.Open? && s.tsfn.bound == 0
    && Answers(s) && OnePerThread(s) && Waiting(s)
  }

  lemma ExecuteInv(s: State, a: Step)
    requires Inv(s) && Enabled(s, a) && (a.Execute? || a.Change?)
    ensures Inv(Next(s, a))
  {
    hide CallJs;
    var n := Next(s, a);
    forall i | 0 <= i < |n.requests| ensures RequestInv(n, n.requests[i]) {
      if i < |s.requests| { assert n.requests[i] == s.requests[i] && RequestInv(s, s.requests[i]); }
    }
    forall k | 0 <= k < |s.tsfn.queue| ensures Is(n, n.tsfn.queue[k], Queued) {
      assert Is(s, s.tsfn.queue[k], Queued);
    }
  }

  lemma AnswersUpdate(s: State, n: State, i: nat)
    requires Answers(s) && n.script == s.script && i < |s.requests| == |n.requests|
    requires n.requests == s.requests[i := n.requests[i]] && RequestInv(n, n.requests[i])
    ensures Answers(n)
  {
    hide CallJs;
    forall j | 0 <= j < |n.requests| ensures RequestInv(n, n.requests[j]) {
      assert RequestInv(s, s.requests[j]);
      assert j != i ==> n.requests[j] == s.requests[j];
    }
  }

  lemma OnePerThreadUpdate(s: State, n: State, i: nat)
    requires OnePerThread(s) && i < |s.requests| == |n.requests| && n.requests == s.requests[i := n.requests[i]]
    requires n.requests[i].thread == s.requests[i].thread && (Active(n.requests[i]) ==> Active(s.requests[i]))
    ensures OnePerThread(n)
  {
    hide Active;
    forall j, k | 0 <= j < k < |n.requests| && Active(n.requests[j]) && Active(n.requests[k])
      ensures n.requests[j].thread != n.requests[k].thread
    {
      assert Active(s.requests[j]) && Active(s.requests[k]);
    }
  }

  /** A request that is not queued changes, and the queue gains it if it is then. */
  lemma WaitingUpdate(s: State, n: State, i: nat)
    requires Waiting(s) && i < |s.requests| == |n.requests| && n.requests == s.requests[i := n.requests[i]]
    requires !s.requests[i].stage.Queued?
    requires n.tsfn.queue == if n.requests[i].stage.Queued? then s.tsfn.queue + [i] else s.tsfn.queue
    ensures Waiting(n)
  {
    forall k | 0 <= k < |s.tsfn.queue| ensures Is(n, s.tsfn.queue[k], Queued) && s.tsfn.queue[k] != i {
      assert Is(s, s.tsfn.queue[k], Queued);
    }
    forall k | 0 <= k < |n.tsfn.queue| ensures Is(n, n.tsfn.queue[k], Queued) {
      assert k < |s.tsfn.queue| ==> n.tsfn.queue[k] == s.tsfn.queue[k];
    }
    forall j | 0 <= j < |n.requests| && n.requests[j].stage.Queued? ensures j in n.tsfn.queue {
      if j == i {
        assert n.tsfn.queue[|s.tsfn.queue|] == i;
      } else {
        assert j in s.tsfn.queue;
      }
    }
  }

  /** One request changes its stage outside the main thread. */
  lemma CallerInv(s: State, n: State, i: nat)
    requires Inv(s) && i < |s.requests| == |n.requests| && n.requests == s.requests[i := n.requests[i]]
    requires n.script == s.script && n.fault == s.fault
    requires n.requests[i].thread == s.requests[i].thread && RequestInv(n, n.requests[i])
    requires Active(n.requests[i]) ==> Active(s.requests[i])
    requires !s.requests[i].stage.Queued?
    requires n.tsfn == s.tsfn.(queue := if n.requests[i].stage.Queued? then s.tsfn.queue + [i] else s.tsfn.queue)
    ensures Inv(n)
  {
    hide Answers, OnePerThread, Waiting, RequestInv;
    AnswersUpdate(s, n, i);
    OnePerThreadUpdate(s, n, i);
    WaitingUpdate(s, n, i);
  }

  lemma CallDirectlyInv(s: State, i: nat)
    requires Inv(s) && Enabled(s, CallDirectly(i))
    ensures Inv(Next(s, CallDirectly(i)))
  {
    hide CallJs, OnePerThread, Waiting;
    assert RequestInv(s, s.requests[i]);
    CallerInv(s, Next(s, CallDirectly(i)), i);
  }

  /** The oldest queued request is answered. */
  lemma WaitingServed(s: State, n: State)
    requires Waiting(s) && s.tsfn.queue != [] && |n.requests| == |s.requests| && Is(s, s.tsfn.queue[0], Queued)
    requires n.tsfn.queue == s.tsfn.queue[1..]
    requires var i := s.tsfn.queue[0]; n.requests == s.requests[i := n.requests[i]] && !n.requests[i].stage.Queued?
    ensures Waiting(n)
  {
    var i := s.tsfn.queue[0];
    assert forall j :: 0 <= j < |n.requests| && j != i ==> n.requests[j] == s.requests[j];
    forall k | 0 <= k < |n.tsfn.queue| ensures Is(n, n.tsfn.queue[k], Queued) {
      assert n.tsfn.queue[k] == s.tsfn.queue[k + 1] && Is(s, s.tsfn.queue[k + 1], Queued);
    }
    forall j | 0 <= j < |n.requests| && n.requests[j].stage.Queued? ensures j in n.tsfn.queue {
      assert j != i && j in s.tsfn.queue;
    }
  }

  lemma RunQueuedInv(s: State)
    requires Inv(s) && Enabled(s, RunQueued)
    ensures Inv(Next(s, RunQueued))
  {
    hide CallJs, OnePerThread;
    var n := Next(s, RunQueued);
    var i := s.tsfn.queue[0];
    assert Is(s, i, Queued) && RequestInv(s, s.requests[i]);
    assert RequestInv(n, n.requests[i]);
    AnswersUpdate(s, n, i);
    OnePerThreadUpdate(s, n, i);
    WaitingServed(s, n);
  }

  lemma QueueInv(s: State, i: nat)
    requires Inv(s) && Enabled(s, Queue(i))
    ensures Inv(Next(s, Queue(i)))
  {
    hide CallJs, AnsweredLikeDirectCall;
    assert RequestInv(s, s.requests[i]);
    CallerInv(s, Next(s, Queue(i)), i);
  }

  lemma QueueFailsInv(s: State, i: nat)
    requires Inv(s) && Enabled(s, QueueFails(i))
    ensures Inv(Next(s, QueueFails(i)))
  {
    hide CallJs, AnsweredLikeDirectCall;
    assert RequestInv(s, s.requests[i]);
    CallerInv(s, Next(s, QueueFails(i)), i);
  }

  lemma ReturnInv(s: State, i: nat)
    requires Inv(s) && Enabled(s, Return(i))
    ensures Inv(Next(s, Return(i)))
  {
    hide CallJs;
    assert RequestInv(s, s.requests[i]);
    CallerInv(s, Next(s, Return(i)), i);
  }

  lemma StepInv(s: State, a: Step)
    requires Inv(s) && Enabled(s, a)
    ensures Inv(Next(s, a))
  {
    if a.Execute? || a.Change? { ExecuteInv(s, a); }
    else if a.CallDirectly? { CallDirectlyInv(s, a.i); }
    else if a.RunQueued? { RunQueuedInv(s); }
    else if a.Queue? { QueueInv(s, a.i); }
    else if a.QueueFails? { QueueFailsInv(s, a.i); }
    else { ReturnInv(s, a.i); }
  }

  lemma {:induction false} RunInv(s: State, steps: seq<Step>)
    requires Inv(s) && Legal(s, steps)
    ensures Inv(After(s, steps))
    decreases steps
  {
    if steps == [] {
    } else {
      StepInv(s, steps[0]);
      RunInv(Next(s, steps[0]), steps[1..]);
    }
  }

  // ------------------------------------------------------------------ theorems

  /** On every thread and in every interleaving, executeCallback returns the code and the key info
      of a direct callJsMethod at some moment between its call and its return, or a crypto error
      with the key info untouched if the question could not be queued; a queued question only ever
      writes to a frame whose thread is still waiting. */
  lemma RoutedLikeDirectCall(js: Js, steps: seq<Step>, i: nat)
    requires Legal(Init(js), steps) && i < |After(Init(js), steps).requests|
    ensures
      var s := After(Init(js), steps);
      var r := s.requests[i];
      && !s.fault
      && (r.stage.Returned? && !r.stage.refused ==> AnsweredLikeDirectCall(s, r, r.stage.code))
      && (r.stage.Returned? && r.stage.refused ==> r.stage.code == ResultCryptoError && r.info == r.given)
      && (i in s.tsfn.queue ==> r.stage.Queued?)
  {
    RunInv(Init(js), steps);
  }

  // ------------------------------------------------ read off the steps of the run

  /** What an executeCallback was asked, on which thread, and how many changes the JavaScript object had
      seen by then. */
  datatype Question = Question(
    thread: nat, name: string, keyName: string, metadata: Pairs, info: KeyInfo, moment: nat)

  function QuestionsOf(steps: seq<Step>, now: nat): seq<Question> {
    if steps == [] then []
    else match steps[0]
      case Execute(t, name, keyName, metadata, info) =>
        [Question(t, name, keyName, metadata, info, now)] + QuestionsOf(steps[1..], now)
      case Change(_) => QuestionsOf(steps[1..], now + 1)
      case _ => QuestionsOf(steps[1..], now)
  }

  /** The states of the JavaScript object in a run. */
  function ObjectsOf(steps: seq<Step>): seq<Js> {
    if steps == [] then []
    else (if steps[0].Change? then [steps[0].js] else []) + ObjectsOf(steps[1..])
  }

  predicate Asks(r: Request, q: Question) {
    && r.thread == q.thread && r.name == q.name && r.keyName == q.keyName && r.metadata == q.metadata
    && r.given == q.info && r.from == q.moment
  }

  predicate Refused(r: Request) {
    r.stage.Returned? && r.stage.refused
  }

  lemma StepAsks(s: State, a: Step, i: nat, q: Question)
    requires Inv(s) && Enabled(s, a) && i < |s.requests| && Asks(s.requests[i], q)
    ensures i < |Next(s, a).requests| && Asks(Next(s, a).requests[i], q)
    ensures Refused(Next(s, a).requests[i]) <==> Refused(s.requests[i]) || a == QueueFails(i)
  {
    hide CallJs, Answers, OnePerThread;
    match a
    case Change(_) =>
    case Execute(_, _, _, _, _) =>
    case CallDirectly(_) =>
    case Queue(_) =>
    case QueueFails(_) =>
    case RunQueued => assert Is(s, s.tsfn.queue[0], Queued);
    case Return(_) =>
  }

  /** JavaScript is called directly for the main thread's questions only; the others are queued. */
  predicate RoutedByThread(steps: seq<Step>, i: nat, thread: nat) {
    && (CallDirectly(i) in steps ==> thread == 0)
    && (Queue(i) in steps || QueueFails(i) in steps ==> thread != 0)
  }

  lemma RoutedFirst(s: State, steps: seq<Step>, i: nat, thread: nat)
    requires steps != [] && Enabled(s, steps[0]) && RoutedByThread(steps[1..], i, thread)
    requires i < |s.requests| ==> s.requests[i].thread == thread
    ensures RoutedByThread(steps, i, thread)
  {
    assert forall a :: a in steps <==> a == steps[0] || a in steps[1..];
  }

  lemma {:induction false} RunAsks(s: State, steps: seq<Step>, i: nat, q: Question)
    requires Inv(s) && Legal(s, steps) && i < |s.requests| && Asks(s.requests[i], q)
    ensures i < |After(s, steps).requests| && Asks(After(s, steps).requests[i], q)
    ensures Refused(After(s, steps).requests[i]) <==> Refused(s.requests[i]) || QueueFails(i) in steps
    decreases steps
  {
    hide Inv, Next, Enabled, Asks, Refused;
    if steps == [] {
    } else {
      StepAsks(s, steps[0], i, q);
      StepInv(s, steps[0]);
      RunAsks(Next(s, steps[0]), steps[1..], i, q);
      assert QueueFails(i) in steps <==> steps[0] == QueueFails(i) || QueueFails(i) in steps[1..];
    }
  }

  lemma SameThread(s: State, a: Step, i: nat)
    requires Inv(s) && Enabled(s, a) && i < |s.requests|
    ensures i < |Next(s, a).requests| && Next(s, a).requests[i].thread == s.requests[i].thread
  {
    var r := s.requests[i];
    StepAsks(s, a, i, Question(r.thread, r.name, r.keyName, r.metadata, r.given, r.from));
  }

  lemma {:induction false} RunRoutes(s: State, steps: seq<Step>, i: nat)
    requires Inv(s) && Legal(s, steps) && i < |After(s, steps).requests|
    ensures RoutedByThread(steps, i, After(s, steps).requests[i].thread)
    ensures i < |s.requests| ==> After(s, steps).requests[i].thread == s.requests[i].thread
    decreases steps
  {
    hide Inv, Next, Enabled;
    if steps == [] {
    } else {
      StepInv(s, steps[0]);
      if i < |s.requests| {
        SameThread(s, steps[0], i);
      }
      RunRoutes(Next(s, steps[0]), steps[1..], i);
      RoutedFirst(s, steps, i, After(s, steps).requests[i].thread);
    }
  }

  /** Only Execute adds a request, only Change a state of the object. */
  lemma StepGrows(s: State, a: Step)
    requires Inv(s) && Enabled(s, a)
    ensures Next(s, a).script == s.script + if a.Change? then [a.js] else []
    ensures |Next(s, a).requests| == |s.requests| + Bit(a.Execute?)
    ensures a.Execute? ==>
              var r := Next(s, a).requests[|s.requests|];
              Asks(r, Question(a.thread, a.name, a.keyName, a.metadata, a.info, |s.script| - 1)) && !Refused(r)
  {
    hide CallJs, Answers, OnePerThread;
    match a
    case Change(_) =>
    case Execute(_, _, _, _, _) =>
    case CallDirectly(_) =>
    case Queue(_) =>
    case QueueFails(_) =>
    case RunQueued => assert Is(s, s.tsfn.queue[0], Queued);
    case Return(_) =>
  }

  lemma NotBefore(s: State, a: Step, i: nat)
    requires Enabled(s, a) && |s.requests| <= i
    ensures a != QueueFails(i)
  {
  }

  lemma FirstOf(steps: seq<Step>, now: nat)
    requires steps != []
    ensures ObjectsOf(steps) == (if steps[0].Change? then [steps[0].js] else []) + ObjectsOf(steps[1..])
    ensures |QuestionsOf(steps, now)| ==
            Bit(steps[0].Execute?) + |QuestionsOf(steps[1..], now + Bit(steps[0].Change?))|
  {
  }

  lemma {:induction false} GrowthOfRun(s: State, steps: seq<Step>)
    requires Inv(s) && s.script != [] && Legal(s, steps)
    ensures After(s, steps).script == s.script + ObjectsOf(steps)
    ensures |After(s, steps).requests| == |s.requests| + |QuestionsOf(steps, |s.script| - 1)|
    decreases steps
  {
    hide Inv, Next, Enabled, Asks, Refused, ObjectsOf, QuestionsOf;
    if steps == [] {
      NothingOf(|s.script| - 1);
    } else {
      var a, n := steps[0], Next(s, steps[0]);
      StepInv(s, a);
      StepGrows(s, a);
      FirstOf(steps, |s.script| - 1);
      GrowthOfRun(n, steps[1..]);
      JoinObjects(s.script, if a.Change? then [a.js] else [], ObjectsOf(steps[1..]));
    }
  }

  lemma JoinObjects(a: seq<Js>, b: seq<Js>, c: seq<Js>)
    ensures (a + b) + c == a + (b + c)
  {
  }

  lemma NothingOf(now: nat)
    ensures ObjectsOf([]) == [] && QuestionsOf([], now) == []
  {
  }

  /** The questions of a run, and those of the rest of it. */
  lemma FirstQuestion(steps: seq<Step>, now: nat, k: nat)
    requires steps != [] && k < |QuestionsOf(steps, now)|
    ensures steps[0].Execute? && k == 0 ==>
              var a := steps[0];
              QuestionsOf(steps, now)[k] == Question(a.thread, a.name, a.keyName, a.metadata, a.info, now)
    ensures steps[0].Execute? && k > 0 ==>
              && k - 1 < |QuestionsOf(steps[1..], now)|
              && QuestionsOf(steps, now)[k] == QuestionsOf(steps[1..], now)[k - 1]
    ensures !steps[0].Execute? ==>
              QuestionsOf(steps, now) == QuestionsOf(steps[1..], now + Bit(steps[0].Change?))
  {
  }

  lemma InRest(steps: seq<Step>, i: nat)
    requires steps != [] && steps[0] != QueueFails(i)
    ensures QueueFails(i) in steps <==> QueueFails(i) in steps[1..]
  {
  }

  lemma {:induction false} LaterQuestions(s: State, steps: seq<Step>, i: nat)
    requires Inv(s) && s.script != [] && Legal(s, steps)
    requires |s.requests| <= i < |s.requests| + |QuestionsOf(steps, |s.script| - 1)|
    ensures i < |After(s, steps).requests|
    ensures Asks(After(s, steps).requests[i], QuestionsOf(steps, |s.script| - 1)[i - |s.requests|])
    ensures Refused(After(s, steps).requests[i]) <==> QueueFails(i) in steps
    decreases steps
  {
    hide Inv, Next, Enabled, Asks, Refused, QuestionsOf;
    if steps == [] {
      NothingOf(|s.script| - 1);
    } else {
      var a, n := steps[0], Next(s, steps[0]);
      StepInv(s, a);
      StepGrows(s, a);
      NotBefore(s, a, i);
      InRest(steps, i);
      FirstQuestion(steps, |s.script| - 1, i - |s.requests|);
      if a.Execute? && i == |s.requests| {
        RunAsks(n, steps[1..], i, QuestionsOf(steps, |s.script| - 1)[0]);
      } else {
        LaterQuestions(n, steps[1..], i);
      }
    }
  }

  /** In terms of the run's own steps: request i is the i-th executeCallback of the run; it calls
      JavaScript directly only from the main thread and queues its question only from another; it is
      refused if and only if its queueing failed, and then with a crypto error and the key info untouched; and if
      it has returned otherwise, its code and key info are those of asking the JavaScript object once,
      in a state the object was in between the call and now. */
  lemma ReturnedIsAnswered(js: Js, steps: seq<Step>, i: nat)
    requires Legal(Init(js), steps) && i < |QuestionsOf(steps, 0)|
    ensures
      var s := After(Init(js), steps);
      var q := QuestionsOf(steps, 0)[i];
      var objects := [js] + ObjectsOf(steps);
      && |s.requests| == |QuestionsOf(steps, 0)|
      && RoutedByThread(steps, i, q.thread)
      && (var stage, info := s.requests[i].stage, s.requests[i].info;
          && (stage.Returned? && QueueFails(i) in steps ==> stage.code == ResultCryptoError && info == q.info)
          && (stage.Returned? && QueueFails(i) !in steps ==>
                exists at :: q.moment <= at < |objects|
                             && AnswerFits(objects[at], q.name, q.keyName, q.metadata, q.info, stage.code, info)))
  {
    hide Next, Enabled, AnswerFits, CallJs;
    var s := After(Init(js), steps);
    InitInv(js);
    RunInv(Init(js), steps);
    GrowthOfRun(Init(js), steps);
    LaterQuestions(Init(js), steps, i);
    RunRoutes(Init(js), steps, i);
    var r := s.requests[i];
    assert RequestInv(s, r);
    if r.stage.Returned? && !r.stage.refused {
      CallFits(s.script[r.at], r.name, r.keyName, r.metadata, r.given);
    }
  }

  /** The main thread never waits for itself: its own requests are never queued, and whenever some
      thread waits for an answer the main thread can run a queued question or is about to finish
      a direct call. */
  lemma MainNeverWaits(js: Js, steps: seq<Step>, i: nat)
    requires Legal(Init(js), steps) && i < |After(Init(js), steps).requests|
    requires After(Init(js), steps).requests[i].stage.Queued?
    ensures
      var s := After(Init(js), steps);
      && s.requests[i].thread != 0
      && (Enabled(s, RunQueued) || exists j :: Enabled(s, CallDirectly(j)))
  {
    RunInv(Init(js), steps);
    var s := After(Init(js), steps);
    assert RequestInv(s, s.requests[i]);
    if !MainFree(s) {
      var j :| 0 <= j < |s.requests| && s.requests[j].thread == 0 && Active(s.requests[j]);
      assert RequestInv(s, s.requests[j]);
      assert Enabled(s, CallDirectly(j));
    }
  }

  /** And it serves questions in the order they were queued: each run of a queued question brings
      every other one closer to its turn. */
  lemma QueueIsFair(s: State, k: nat)
    requires Inv(s) && Enabled(s, RunQueued) && 0 < k < |s.tsfn.queue|
    ensures Next(s, RunQueued).tsfn.queue[k - 1] == s.tsfn.queue[k]
    ensures Next(s, RunQueued).requests[s.tsfn.queue[0]].stage.Answered?
    ensures Next(s, RunQueued).requests[s.tsfn.queue[k]] == s.requests[s.tsfn.queue[k]]
  {
    assert Is(s, s.tsfn.queue[0], Queued);
  }

  // ------------------------------------------------------------------- progress

  /** New questions and changes of the JavaScript object come from outside. */
  predicate External(a: Step) {
    a.Change? || a.Execute?
  }

  function Weight(st: Stage): nat {
    match st
    case Asked => 3
    case Queued => 2
    case Answered(_) => 1
    case Returned(_, _) => 0
  }

  function Rank(requests: seq<Request>): nat {
    if requests == [] then 0 else Weight(requests[0].stage) + Rank(requests[1..])
  }

  lemma {:induction false} RankUpdate(requests: seq<Request>, i: nat, r: Request)
    requires i < |requests|
    ensures Rank(requests[i := r]) + Weight(requests[i].stage) == Rank(requests) + Weight(r.stage)
  {
    if i == 0 {
      assert requests[0 := r][1..] == requests[1..];
    } else {
      assert requests[i := r][1..] == requests[1..][i - 1 := r];
      RankUpdate(requests[1..], i - 1, r);
    }
  }

  /** The request a step works on. */
  function WorkedOn(s: State, a: Step): nat
    requires Enabled(s, a) && !External(a)
  {
    match a
    case CallDirectly(i) => i
    case Queue(i) => i
    case QueueFails(i) => i
    case RunQueued => s.tsfn.queue[0]
    case Return(i) => i
  }

  lemma StepMovesOne(s: State, a: Step)
    requires Inv(s) && Enabled(s, a) && !External(a)
    ensures var i, n := WorkedOn(s, a), Next(s, a);
            && i < |s.requests| == |n.requests| && n.requests == s.requests[i := n.requests[i]]
            && Weight(n.requests[i].stage) < Weight(s.requests[i].stage)
  {
    hide CallJs, Answers, OnePerThread;
    match a
    case CallDirectly(_) =>
    case Queue(_) =>
    case QueueFails(_) =>
    case RunQueued => assert Is(s, s.tsfn.queue[0], Queued);
    case Return(_) =>
  }

  /** Every step that is not a new question or a change lowers the rank. */
  lemma RankDecreases(s: State, a: Step)
    requires Inv(s) && Enabled(s, a) && !External(a)
    ensures Rank(Next(s, a).requests) < Rank(s.requests)
  {
    hide Inv, Next, Rank, Weight;
    StepMovesOne(s, a);
    RankUpdate(s.requests, WorkedOn(s, a), Next(s, a).requests[WorkedOn(s, a)]);
  }

  predicate NoneExternal(steps: seq<Step>) {
    forall i :: 0 <= i < |steps| ==> !External(steps[i])
  }

  lemma {:induction false} RunsEnd(s: State, steps: seq<Step>)
    requires Inv(s) && Legal(s, steps) && NoneExternal(steps)
    ensures |steps| + Rank(After(s, steps).requests) <= Rank(s.requests)
    decreases steps
  {
    hide Inv, Next, Enabled, Rank;
    if steps == [] {
    } else {
      RankDecreases(s, steps[0]);
      StepInv(s, steps[0]);
      RunsEnd(Next(s, steps[0]), steps[1..]);
    }
  }

  /** With nothing left but new questions, everybody has an answer. */
  lemma QuietIsAnswered(s: State, i: nat)
    requires Inv(s) && i < |s.requests|
    requires forall a :: Enabled(s, a) ==> External(a)
    ensures s.requests[i].stage.Returned?
  {
    hide CallJs, OnePerThread, AnsweredLikeDirectCall;
    assert !Enabled(s, CallDirectly(i)) && !Enabled(s, Queue(i)) && !Enabled(s, Return(i));
    assert !s.requests[i].stage.Asked?;
    if s.requests[i].stage.Queued? {
      forall j | 0 <= j < |s.requests| && s.requests[j].thread == 0 ensures !Active(s.requests[j]) {
        assert RequestInv(s, s.requests[j]);
        assert !Enabled(s, CallDirectly(j));
      }
      MainCanServe(s, i);
    }
  }

  lemma MainCanServe(s: State, i: nat)
    requires Inv(s) && i < |s.requests| && s.requests[i].stage.Queued? && MainFree(s)
    ensures Enabled(s, RunQueued)
  {
    hide Answers, OnePerThread;
  }

  /** Every question is answered: from any state of any run, a run that asks nothing new and cannot be
      extended has ended within the rank with every executeCallback returned, each with the answer of
      a direct call or refused by the queue. */
  lemma EveryQuestionIsAnswered(js: Js, before: seq<Step>, steps: seq<Step>, i: nat)
    requires Legal(Init(js), before) && Legal(After(Init(js), before), steps) && NoneExternal(steps)
    requires var n := After(After(Init(js), before), steps);
             i < |n.requests| && forall a :: Enabled(n, a) ==> External(a)
    ensures |steps| <= Rank(After(Init(js), before).requests)
    ensures var n := After(After(Init(js), before), steps);
            var r := n.requests[i];
            && r.stage.Returned?
            && (r.stage.refused || AnsweredLikeDirectCall(n, r, r.stage.code))
  {
    hide Rank, Next, Enabled, CallJs, AnsweredLikeDirectCall;
    var s := After(Init(js), before);
    assert Inv(Init(js)) by { InitInv(js); }
    RunInv(Init(js), before);
    RunInv(s, steps);
    RunsEnd(s, steps);
    QuietIsAnswered(After(s, steps), i);
    assert RequestInv(After(s, steps), After(s, steps).requests[i]);
  }

  lemma InitInv(js: Js)
    ensures Inv(Init(js))
  {
  }
}
