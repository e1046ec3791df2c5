/** Consumer::Receive, Consumer::BatchReceive and the operations without a result
    (src/Consumer.cc:262-317 and the methods of the same shape): any number of them at once, each
    with a heap context, a ThreadSafeDeferred and, on success, a raw object from the C client.

    The deferreds are the step systems of module Deferred, taken statement by statement, so that
    what is said here about raw objects rests on the resolver running exactly once. The environment
    promises that each callback fires once and that a raw object it delivers is a new one. */
module AsyncOperations {
  import opened Common
  import D = Deferred

  type Raw = nat
  type Message = nat

  datatype Kind = Receive | BatchReceive | Plain

  /** What the callback brings: nothing, one message, or a list of messages. */
  datatype Payload = Nothing | One(raw: Raw) | Many(raw: Raw, items: seq<Message>)

  datatype Op = Op(
    kind: Kind,
    callbacks: nat,          // how often the C client has called back
    contextDeletes: nat,     // how often the heap context was deleted
    payload: Payload,
    result: Option<seq<Message>>,  // the JavaScript array of a batch
    deferred: D.State)

  /** `adopted` counts std::shared_ptr<pulsar_message_t> made from a raw message, `freed` the calls
      of pulsar_messages_free, `delivered` the raw objects seen so far. */
  datatype State = State(
    ops: seq<Op>,
    delivered: set<Raw>,
    adopted: multiset<Raw>,
    freed: multiset<Raw>,
    fault: bool)

  datatype Step =
    | Issue(kind: Kind)
    | Callback(i: nat, payload: Payload)
    | CallbackError(i: nat, message: string)
    | Inner(i: nat, step: D.Step)

  function Init(): State {
    State([], {}, multiset{}, multiset{}, false)
  }

  /** New, and the copy of the shared pointer in the context. */
  function NewOp(kind: Kind): Op {
    Op(kind, 0, 0, Nothing, None, D.Next(D.Init(), D.Share))
  }

  predicate Fits(kind: Kind, p: Payload) {
    match kind
    case Receive => p.One?
    case BatchReceive => p.Many?
    case Plain => p.Nothing?
  }

  /** The shared pointer of a context that has not been deleted cannot be dropped. */
  predicate InnerEnabled(op: Op, a: D.Step) {
    && D.Enabled(op.deferred, a) && !a.Begin?
    && (a.Drop? && op.callbacks == 0 ==> op.deferred.owners > 1)
  }

  predicate CanCallBack(s: State, i: nat) {
    i < |s.ops| && s.ops[i].callbacks == 0 && D.Enabled(s.ops[i].deferred, D.Begin(i, D.Undefined))
  }

  predicate Enabled(s: State, a: Step) {
    match a
    case Issue(_) => true
    case Callback(i, p) =>
      CanCallBack(s, i) && Fits(s.ops[i].kind, p) && (!p.Nothing? ==> p.raw !in s.delivered)
    case CallbackError(i, _) => CanCallBack(s, i)
    case Inner(i, d) => i < |s.ops| && InnerEnabled(s.ops[i], d)
  }

  /** The context is deleted, then the deferred is told: the resolver is the lambda of operation i. */
  function FireCallback(s: State, i: nat, p: Payload, o: D.Outcome): State
    requires CanCallBack(s, i)
  {
    var op := s.ops[i];
    s.(ops := s.ops[i := op.(callbacks := op.callbacks + 1, contextDeletes := op.contextDeletes + 1,
                             payload := p, deferred := D.Next(op.deferred, D.Begin(i, o)))],
       delivered := if p.Nothing? then s.delivered else s.delivered + {p.raw},
       fault := s.fault || op.contextDeletes > 0)
  }

  /** The lambda given to Resolve, run by the deferred's finalizer. */
  function RunResolver(s: State, i: nat): State
    requires i < |s.ops|
  {
    match s.ops[i].payload
    case Nothing => s
    case One(r) => s.(adopted := s.adopted + multiset{r}, fault := s.fault || r in s.adopted)
    case Many(r, items) =>
      s.(ops := s.ops[i := s.ops[i].(result := Some(items))],
         freed := s.freed + multiset{r}, fault := s.fault || r in s.freed)
  }

  /** Whether this step of the deferred calls the lambda. */
  predicate CallsResolver(op: Op, d: D.Step) {
    d.RunFinalizer? && D.Settlement(op.deferred.core).Value?
  }

  function Next(s: State, a: Step): State
    requires Enabled(s, a)
  {
    match a
    case Issue(kind) => s.(ops := s.ops + [NewOp(kind)])
    case Callback(i, p) => FireCallback(s, i, p, D.Value(i))
    case CallbackError(i, m) => FireCallback(s, i, Nothing, D.Error(m))
    case Inner(i, d) =>
      var n := s.(ops := s.ops[i := s.ops[i].(deferred := D.Next(s.ops[i].deferred, d))]);
      if CallsResolver(s.ops[i], d) then RunResolver(n, i) else n
  }

  predicate Legal(s: State, steps: seq<Step>)
    decreases steps
  {
    steps != [] ==> Enabled(s, steps[0]) && Legal(Next(s, steps[0]), steps[1..])
  }

  function After(s: State, steps: seq<Step>): State
    requires Legal(s, steps)
    decreases steps
  {
    if steps == [] then s else After(Next(s, steps[0]), steps[1..])
  }

  // -------------------------------------------------------------- the invariant

  predicate Delivered(op: Op) {
    op.deferred.settlements != []
  }

  ghost predicate OpInv(op: Op, i: nat) {
    && D.Inv(op.deferred)
    && op.callbacks == op.contextDeletes == |op.deferred.calls|
    && op.deferred.refused == 0
    && (op.callbacks == 0 ==> op.payload.Nothing? && op.deferred.owners > 0)
    && (op.callbacks > 0 ==>
          if op.deferred.calls[0].Error? then op.payload.Nothing?
          else op.deferred.calls[0] == D.Value(i) && Fits(op.kind, op.payload))
    && op.result == (if op.payload.Many? && Delivered(op) then Some(op.payload.items) else None)
  }

  /** What has happened to the raw object of one operation. */
  predicate Accounted(s: State, op: Op) {
    match op.payload
    case Nothing => true
    case One(r) => r in s.delivered && s.adopted[r] == Bit(Delivered(op)) && s.freed[r] == 0
    case Many(r, _) => r in s.delivered && s.freed[r] == Bit(Delivered(op)) && s.adopted[r] == 0
  }

  ghost predicate Inv(s: State) {
    && !s.fault
    && (forall i :: 0 <= i < |s.ops| ==> OpInv(s.ops[i], i) && Accounted(s, s.ops[i]))
    && (forall i, j :: 0 <= i < j < |s.ops| && !s.ops[i].payload.Nothing? && !s.ops[j].payload.Nothing? ==>
          s.ops[i].payload.raw != s.ops[j].payload.raw)
    && (forall r :: r !in s.delivered ==> s.adopted[r] == 0 && s.freed[r] == 0)
  }

  lemma IssueInv(s: State, kind: Kind)
    requires Inv(s)
    ensures Inv(Next(s, Issue(kind)))
  {
    var n := Next(s, Issue(kind));
    D.InitInv();
    D.StepInv(D.Init(), D.Share);
    forall i | 0 <= i < |n.ops| ensures OpInv(n.ops[i], i) && Accounted(n, n.ops[i]) {
      if i < |s.ops| { assert n.ops[i] == s.ops[i]; }
    }
  }

  lemma FireOp(s: State, i: nat, p: Payload, o: D.Outcome)
    requires Inv(s) && CanCallBack(s, i)
    requires (o.Error? && p.Nothing?) || (o == D.Value(i) && Fits(s.ops[i].kind, p))
    ensures OpInv(FireCallback(s, i, p, o).ops[i], i)
    ensures !FireCallback(s, i, p, o).fault && !Delivered(FireCallback(s, i, p, o).ops[i])
  {
    D.StepInv(s.ops[i].deferred, D.Begin(i, o));
  }

  lemma CallbackInv(s: State, i: nat, p: Payload, o: D.Outcome)
    requires Inv(s) && CanCallBack(s, i)
    requires (o.Error? && p.Nothing?) || (o == D.Value(i) && Fits(s.ops[i].kind, p))
    requires !p.Nothing? ==> p.raw !in s.delivered
    ensures Inv(FireCallback(s, i, p, o))
  {
    var n := FireCallback(s, i, p, o);
    FireOp(s, i, p, o);
    forall j | 0 <= j < |n.ops| ensures OpInv(n.ops[j], j) && Accounted(n, n.ops[j]) {
      if j != i { assert n.ops[j] == s.ops[j]; }
    }
  }

  lemma InnerOp(op: Op, i: nat, d: D.Step)
    requires OpInv(op, i) && InnerEnabled(op, d)
    ensures D.Inv(D.Next(op.deferred, d))
    ensures D.Next(op.deferred, d).calls == op.deferred.calls
    ensures d.RunFinalizer? ==>
              op.callbacks == 1 && !Delivered(op)
              && D.Next(op.deferred, d).settlements == op.deferred.calls
              && D.Settlement(op.deferred.core) == op.deferred.calls[0]
    ensures !d.RunFinalizer? ==> D.Next(op.deferred, d).settlements == op.deferred.settlements
    ensures op.callbacks == 0 ==> D.Next(op.deferred, d).owners > 0
    ensures D.Next(op.deferred, d).refused == op.deferred.refused
  {
    D.StepInv(op.deferred, d);
  }

  /** A step of one deferred that hands nothing to JavaScript. */
  lemma QuietInner(s: State, i: nat, d: D.Step)
    requires Inv(s) && Enabled(s, Inner(i, d)) && !CallsResolver(s.ops[i], d)
    ensures Inv(Next(s, Inner(i, d)))
  {
    var n := Next(s, Inner(i, d));
    InnerOp(s.ops[i], i, d);
    forall j | 0 <= j < |n.ops| ensures OpInv(n.ops[j], j) && Accounted(n, n.ops[j]) {
      assert OpInv(s.ops[j], j) && Accounted(s, s.ops[j]);
    }
  }

  lemma ResolvedOp(s: State, i: nat)
    requires Inv(s) && Enabled(s, Inner(i, D.RunFinalizer)) && CallsResolver(s.ops[i], D.RunFinalizer)
    ensures var n := Next(s, Inner(i, D.RunFinalizer));
            && !n.fault && OpInv(n.ops[i], i) && Accounted(n, n.ops[i])
            && |n.ops| == |s.ops| && n.ops == s.ops[i := n.ops[i]]
            && n.ops[i].payload == s.ops[i].payload && n.delivered == s.delivered
            && (forall r :: !(s.ops[i].payload != Nothing && s.ops[i].payload.raw == r) ==>
                  n.adopted[r] == s.adopted[r] && n.freed[r] == s.freed[r])
  {
    InnerOp(s.ops[i], i, D.RunFinalizer);
    assert OpInv(s.ops[i], i) && Accounted(s, s.ops[i]);
  }

  lemma ResolvingInner(s: State, i: nat)
    requires Inv(s) && Enabled(s, Inner(i, D.RunFinalizer)) && CallsResolver(s.ops[i], D.RunFinalizer)
    ensures Inv(Next(s, Inner(i, D.RunFinalizer)))
  {
    hide Next, OpInv, CallsResolver;
    var n := Next(s, Inner(i, D.RunFinalizer));
    ResolvedOp(s, i);
    assert Accounted(s, s.ops[i]);
    forall j | 0 <= j < |n.ops| ensures OpInv(n.ops[j], j) && Accounted(n, n.ops[j]) {
      assert OpInv(s.ops[j], j) && Accounted(s, s.ops[j]);
    }
  }

  lemma InnerInv(s: State, i: nat, d: D.Step)
    requires Inv(s) && Enabled(s, Inner(i, d))
    ensures Inv(Next(s, Inner(i, d)))
  {
    if CallsResolver(s.ops[i], d) { ResolvingInner(s, i); } else { QuietInner(s, i, d); }
  }

  lemma StepInv(s: State, a: Step)
    requires Inv(s) && Enabled(s, a)
    ensures Inv(Next(s, a))
  {
    match a
    case Issue(kind) => IssueInv(s, kind);
    case Callback(i, p) => CallbackInv(s, i, p, D.Value(i));
    case CallbackError(i, m) => CallbackInv(s, i, Nothing, D.Error(m));
    case Inner(i, d) => InnerInv(s, i, d);
  }

  lemma {:induction false} RunInv(s: State, steps: seq<Step>)
    requires Inv(s) && Legal(s, steps)
    ensures Inv(After(s, steps))
    decreases steps
  {
    if steps == [] {
    } else {
      StepInv(s, steps[0]);
      RunInv(Next(s, steps[0]), steps[1..]);
    }
  }

  /** Over all runs of any number of operations: each context is deleted exactly when its callback
      fires, its deferred is then told exactly one outcome, and the raw object a callback delivered
      is adopted (one message) or freed (a list, after its messages were copied in order) exactly
      once if the promise has been delivered and not at all before. */
  lemma OwnershipOfResults(steps: seq<Step>)
    requires Legal(Init(), steps)
    ensures
      var s := After(Init(), steps);
      && !s.fault
      && (forall i :: 0 <= i < |s.ops| ==>
            var op := s.ops[i];
            && op.callbacks <= 1 && op.contextDeletes == op.callbacks == |op.deferred.calls|
            && op.deferred.refused == 0
            && (op.payload.One? ==>
                  s.adopted[op.payload.raw] == Bit(Delivered(op)) && s.freed[op.payload.raw] == 0)
            && (op.payload.Many? ==>
                  s.freed[op.payload.raw] == Bit(Delivered(op)) && s.adopted[op.payload.raw] == 0))
  {
    RunInv(Init(), steps);
  }

  /** An operation whose callback has fired is not left half done: once its deferred has no step
      to take, the promise is settled with what the callback said and the raw object is accounted
      for exactly once. */
  lemma NothingIsLost(s: State, i: nat)
    requires Inv(s) && i < |s.ops| && s.ops[i].callbacks > 0
    requires forall d :: D.Internal(d) ==> !Enabled(s, Inner(i, d))
    ensures Delivered(s.ops[i]) && s.ops[i].deferred.settlements == s.ops[i].deferred.calls
    ensures s.ops[i].payload.One? ==> s.adopted[s.ops[i].payload.raw] == 1
    ensures s.ops[i].payload.Many? ==>
              s.freed[s.ops[i].payload.raw] == 1 && s.ops[i].result == Some(s.ops[i].payload.items)
  {
    var op := s.ops[i];
    assert OpInv(op, i) && Accounted(s, op);
    forall d | D.Internal(d) ensures !D.Enabled(op.deferred, d) {
      assert !Enabled(s, Inner(i, d));
    }
    D.DecidedIsDelivered(op.deferred);
  }

  // -------------------------------------------- read off the steps of the run

  /** What the C client brought for operation i, if it has called back. */
  datatype Answer = Brought(payload: Payload) | Failed(message: string)

  function AnswerIn(a: Step, i: nat): Option<Answer> {
    match a
    case Callback(j, p) => if i == j then Some(Brought(p)) else None
    case CallbackError(j, m) => if i == j then Some(Failed(m)) else None
    case _ => None
  }

  /** The first answer of a run for operation i. */
  function AnswerOf(steps: seq<Step>, i: nat): Option<Answer> {
    if steps == [] then None
    else if AnswerIn(steps[0], i).Some? then AnswerIn(steps[0], i)
    else AnswerOf(steps[1..], i)
  }

  /** The kinds of the operations a run issued, in order. */
  function Issued(steps: seq<Step>): seq<Kind> {
    if steps == [] then []
    else (if steps[0].Issue? then [steps[0].kind] else []) + Issued(steps[1..])
  }

  /** Operation i of a state, told exactly this answer. */
  predicate ToldSo(op: Op, i: nat, answer: Option<Answer>) {
    match answer
    case None => op.deferred.calls == [] && op.payload == Nothing && op.callbacks == 0
    case Some(Brought(p)) => op.deferred.calls == [D.Value(i)] && op.payload == p && op.callbacks == 1
    case Some(Failed(m)) => op.deferred.calls == [D.Error(m)] && op.payload == Nothing && op.callbacks == 1
  }

  lemma InnerKeepsAnswer(s: State, i: nat, d: D.Step, j: nat)
    requires Inv(s) && Enabled(s, Inner(i, d)) && j < |s.ops|
    ensures var n := Next(s, Inner(i, d));
            && |n.ops| == |s.ops| && n.ops[j].kind == s.ops[j].kind
            && n.ops[j].payload == s.ops[j].payload && n.ops[j].callbacks == s.ops[j].callbacks
            && n.ops[j].deferred.calls == s.ops[j].deferred.calls
  {
    hide CallsResolver, D.Next;
    assert OpInv(s.ops[i], i);
    InnerOp(s.ops[i], i, d);
  }

  lemma CallbackAnswers(s: State, i: nat, p: Payload, o: D.Outcome)
    requires Inv(s) && CanCallBack(s, i)
    ensures var n := FireCallback(s, i, p, o);
            && |n.ops| == |s.ops| && n.ops == s.ops[i := n.ops[i]]
            && n.ops[i].kind == s.ops[i].kind && n.ops[i].payload == p && n.ops[i].callbacks == 1
            && n.ops[i].deferred.calls == [o]
  {
    assert OpInv(s.ops[i], i);
  }

  /** One step tells the operations what it is about and nothing else. */
  lemma StepTells(s: State, a: Step, j: nat, told: Option<Answer>)
    requires Inv(s) && Enabled(s, a) && j < |s.ops| && ToldSo(s.ops[j], j, told)
    ensures j < |Next(s, a).ops| && Next(s, a).ops[j].kind == s.ops[j].kind
    ensures ToldSo(Next(s, a).ops[j], j, if told.Some? then told else AnswerIn(a, j))
  {
    hide FireCallback, Inv, OpInv;
    match a
    case Issue(_) =>
    case Callback(i, p) => CallbackAnswers(s, i, p, D.Value(i));
    case CallbackError(i, m) => CallbackAnswers(s, i, Nothing, D.Error(m));
    case Inner(i, d) => InnerKeepsAnswer(s, i, d, j);
  }

  lemma NewOpTold(s: State, kind: Kind)
    requires Inv(s)
    ensures var n := Next(s, Issue(kind));
            |n.ops| == |s.ops| + 1 && n.ops[|s.ops|].kind == kind && ToldSo(n.ops[|s.ops|], |s.ops|, None)
  {
  }

  lemma SameSize(s: State, a: Step)
    requires Inv(s) && Enabled(s, a) && !a.Issue?
    ensures |Next(s, a).ops| == |s.ops|
  {
    hide FireCallback, Inv, D.Next;
    match a
    case Callback(i, p) => CallbackAnswers(s, i, p, D.Value(i));
    case CallbackError(i, m) => CallbackAnswers(s, i, Nothing, D.Error(m));
    case Inner(i, d) =>
  }

  lemma {:induction false} RunTells(s: State, steps: seq<Step>, j: nat, told: Option<Answer>)
    requires Inv(s) && Legal(s, steps) && j < |s.ops| && ToldSo(s.ops[j], j, told)
    ensures j < |After(s, steps).ops| && After(s, steps).ops[j].kind == s.ops[j].kind
    ensures ToldSo(After(s, steps).ops[j], j, if told.Some? then told else AnswerOf(steps, j))
    decreases steps
  {
    hide Inv, Next, Enabled, ToldSo;
    if steps == [] {
    } else {
      StepTells(s, steps[0], j, told);
      StepInv(s, steps[0]);
      RunTells(Next(s, steps[0]), steps[1..], j, if told.Some? then told else AnswerIn(steps[0], j));
    }
  }

  lemma {:induction false} OperationsOfRun(s: State, steps: seq<Step>)
    requires Inv(s) && Legal(s, steps)
    ensures |After(s, steps).ops| == |s.ops| + |Issued(steps)|
    decreases steps
  {
    hide Inv, Next, Enabled;
    if steps == [] {
    } else {
      StepInv(s, steps[0]);
      if steps[0].Issue? { NewOpTold(s, steps[0].kind); } else { SameSize(s, steps[0]); }
      OperationsOfRun(Next(s, steps[0]), steps[1..]);
    }
  }

  lemma IssuedFirst(steps: seq<Step>, k: nat)
    requires steps != [] && k < |Issued(steps)|
    ensures steps[0].Issue? && k == 0 ==> Issued(steps)[k] == steps[0].kind
    ensures steps[0].Issue? && k > 0 ==> k - 1 < |Issued(steps[1..])| && Issued(steps)[k] == Issued(steps[1..])[k - 1]
    ensures !steps[0].Issue? ==> Issued(steps) == Issued(steps[1..])
  {
  }

  lemma AnswerLater(steps: seq<Step>, j: nat)
    requires steps != [] && AnswerIn(steps[0], j).None?
    ensures AnswerOf(steps, j) == AnswerOf(steps[1..], j)
  {
  }

  lemma NoAnswerYet(s: State, a: Step, j: nat)
    requires Enabled(s, a) && |s.ops| <= j
    ensures AnswerIn(a, j).None?
  {
  }

  /** An operation that is not there yet is told nothing. */
  lemma {:induction false} LaterOperations(s: State, steps: seq<Step>, j: nat)
    requires Inv(s) && Legal(s, steps) && |s.ops| <= j < |s.ops| + |Issued(steps)|
    ensures j < |After(s, steps).ops| && After(s, steps).ops[j].kind == Issued(steps)[j - |s.ops|]
    ensures ToldSo(After(s, steps).ops[j], j, AnswerOf(steps, j))
    decreases steps
  {
    hide Inv, Next, Enabled, ToldSo, Issued, AnswerOf, AnswerIn;
    if steps == [] {
      NothingIssued();
    } else {
      var a, n := steps[0], Next(s, steps[0]);
      StepInv(s, a);
      IssuedFirst(steps, j - |s.ops|);
      NoAnswerYet(s, a, j);
      AnswerLater(steps, j);
      if a.Issue? {
        NewOpTold(s, a.kind);
        if j == |s.ops| {
          RunTells(n, steps[1..], j, None);
        } else {
          LaterOperations(n, steps[1..], j);
        }
      } else {
        SameSize(s, a);
        LaterOperations(n, steps[1..], j);
      }
    }
  }

  lemma NothingIssued()
    ensures Issued([]) == []
  {
  }

  /** Over all runs, in terms of their steps: the operations are those that were issued, in order; the
      deferred of operation i is told the value of operation i if the callback brought something, the
      error the callback reported, or nothing if it has not fired; and the raw object the callback
      brought is adopted (one message) or freed (a list, after all its messages were copied in order)
      exactly once when the promise is delivered. */
  lemma CallbackDecides(steps: seq<Step>, i: nat)
    requires Legal(Init(), steps) && i < |Issued(steps)|
    ensures
      var s := After(Init(), steps);
      && |s.ops| == |Issued(steps)|
      && s.ops[i].kind == Issued(steps)[i]
      && match AnswerOf(steps, i)
         case None => s.ops[i].deferred.calls == []
         case Some(Failed(m)) => s.ops[i].deferred.calls == [D.Error(m)]
         case Some(Brought(p)) =>
           && s.ops[i].deferred.calls == [D.Value(i)]
           && (p.One? ==> s.adopted[p.raw] == Bit(Delivered(s.ops[i])) && s.freed[p.raw] == 0)
           && (p.Many? ==> s.freed[p.raw] == Bit(Delivered(s.ops[i])) && s.adopted[p.raw] == 0)
           && (p.Many? && Delivered(s.ops[i]) ==> s.ops[i].result == Some(p.items))
  {
    hide Next, Enabled;
    RunInv(Init(), steps);
    OperationsOfRun(Init(), steps);
    LaterOperations(Init(), steps, i);
    var s := After(Init(), steps);
    assert OpInv(s.ops[i], i) && Accounted(s, s.ops[i]);
  }

  /** An instance: a message that is received is adopted, and by then the promise has its value. */
  lemma ReceivedIsDelivered(r: Raw, steps: seq<Step>)
    requires Legal(Init(), [Issue(Receive), Callback(0, One(r))] + steps)
    ensures
      var s := After(Init(), [Issue(Receive), Callback(0, One(r))] + steps);
      && |s.ops| > 0 && s.ops[0].deferred.calls == [D.Value(0)]
      && s.adopted[r] == |s.ops[0].deferred.settlements|
  {
    var all := [Issue(Receive), Callback(0, One(r))] + steps;
    assert all[0] == Issue(Receive) && all[1..][0] == Callback(0, One(r));
    assert AnswerOf(all, 0) == Some(Brought(One(r)));
    assert Issued(all)[0] == Receive;
    RunInv(Init(), all);
    CallbackDecides(all, 0);
    var s := After(Init(), all);
    assert OpInv(s.ops[0], 0);
    SettledOnce(s.ops[0], 0);
  }

  lemma SettledOnce(op: Op, i: nat)
    requires OpInv(op, i)
    ensures |op.deferred.settlements| <= 1
  {
  }

  // ------------------------------------------------- the batch resolver's loop

  /** A pulsar_messages_t of the C client. */
  class RawBatch {
    var items: seq<Message>
    var frees: nat

    constructor (items: seq<Message>)
      ensures this.items == items && frees == 0
    {
      this.items, frees := items, 0;
    }

    method Size() returns (n: nat)
      requires frees == 0
      ensures n == |items|
    {
      n := |items|;
    }

    method Get(i: nat) returns (m: Message)
      requires frees == 0 && i < |items|
      ensures m == items[i]
    {
      m := items[i];
    }

    method Free()
      requires frees == 0
      modifies this
      ensures frees == 1 && items == old(items)
    {
      frees := frees + 1;
    }
  }

  /** The body of BatchReceive's resolver: every message is copied into an object of its own, in
      order, and the list is freed once, after the last use. */
  method CopyBatch(batch: RawBatch) returns (jsArray: array<Message>)
    requires batch.frees == 0
    modifies batch
    ensures fresh(jsArray) && jsArray[..] == old(batch.items)
    ensures batch.frees == 1 && batch.items == old(batch.items)
  {
    var listSize := batch.Size();
    jsArray := new Message[listSize];
    for i := 0 to listSize
      invariant batch.frees == 0 && batch.items == old(batch.items) && |batch.items| == listSize
      invariant jsArray[..i] == batch.items[..i]
    {
      var message := batch.Get(i);
      jsArray[i] := message;
    }
    batch.Free();
  }
}
