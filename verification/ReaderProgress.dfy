/** Progress of the reader's listener: a rank that every step of the code lowers, and when the thread
    that dispatched a message comes back. */
module ReaderProgress {
  import opened Common
  import opened ThreadSafeFunction
  import opened ReaderProtocol

  /** New messages, close calls and garbage collection come from outside. */
  predicate External(a: Step) {
    a.Enter? || a.CloseReader? || a.Forget? || a.Collect?
  }

  // ------------------------------------------------------------------ the rank

  function PcWeight(pc: Pc): nat {
    match pc
    case Idle => 0
    case Entered => 10
    case AtAcquire(_) => 9
    case AtCall(_) => 8
    case AtRelease => 2
    case AtWait => 1
  }

  function StageWeight(st: Stage): nat {
    match st
    case Queued(_) => 5
    case Running => 4
    case Pending => 3
    case Fulfilled => 2
    case _ => 0
  }

  function Rank(s: State): nat {
    (match s.phase case Creating => 2 case Created => 1 case _ => 0)
    + (match s.tsfn.phase case Open => 2 case ClosingDown => 1 case Finalized => 0)
    + PcWeight(s.pc) + StageWeight(s.stage)
  }

  lemma ThreadRank(s: State, a: Step)
    requires Flight(s) && Enabled(s, a)
    requires a.ReadPointer? || a.AcquireToken? || a.QueueCall? || a.ReleaseToken? || a.Resume?
    ensures Rank(Next(s, a)) < Rank(s)
  {
    match a
    case ReadPointer =>
    case AcquireToken =>
    case QueueCall =>
    case ReleaseToken =>
    case Resume =>
  }

  lemma ProxyRank(s: State)
    requires Flight(s) && Enabled(s, RunProxy)
    ensures Rank(AfterRunProxy(s)) < Rank(s)
  {
    assert s.stage.Queued?;
    if s.stage == Queued(true) {
    }
  }

  lemma FinishRank(s: State)
    requires s.stage.Running? || s.stage.Fulfilled?
    ensures Rank(Finish(s)) < Rank(s)
  {
  }

  lemma HandlerRank(s: State, a: Step)
    requires Flight(s) && Enabled(s, a)
    requires a.RunProxy? || a.HandlerReturns? || a.HandlerThrows? || a.HandlerReturnsPromise?
             || a.PromiseFulfils? || a.PromiseRejects? || a.RunThen?
    ensures Rank(Next(s, a)) < Rank(s)
  {
    hide AfterRunProxy, Finish, PcWeight;
    match a
    case RunProxy => ProxyRank(s);
    case HandlerReturns => FinishRank(s);
    case HandlerThrows =>
    case HandlerReturnsPromise =>
    case PromiseFulfils =>
    case PromiseRejects =>
    case RunThen => FinishRank(s);
  }

  lemma OwnerRank(s: State, a: Step)
    requires Enabled(s, a)
    requires a.CreationFails? || a.CreateReader? || a.Publish? || a.CloseFunction? || a.FinalizeFunction?
    ensures Rank(Next(s, a)) < Rank(s)
  {
    hide PcWeight, StageWeight;
    match a
    case CreationFails =>
    case CreateReader =>
    case Publish =>
    case CloseFunction =>
    case FinalizeFunction =>
  }

  /** Every step of the code, the C++ client's callbacks, the handlers and their promises lowers the
      rank. */
  lemma RankDecreases(s: State, a: Step)
    requires Inv(s) && Enabled(s, a) && !External(a)
    ensures Rank(Next(s, a)) < Rank(s)
  {
    hide Tokens, Flight, Delivery, Completion, Sound, Rank, Next, Enabled;
    if a.ReadPointer? || a.AcquireToken? || a.QueueCall? || a.ReleaseToken? || a.Resume? {
      ThreadRank(s, a);
    } else if a.CreationFails? || a.CreateReader? || a.Publish? || a.CloseFunction? || a.FinalizeFunction? {
      OwnerRank(s, a);
    } else {
      HandlerRank(s, a);
    }
  }

  predicate NoneExternal(steps: seq<Step>) {
    forall i :: 0 <= i < |steps| ==> !External(steps[i])
  }

  /** Between inputs from outside, the system takes at most Rank(s) steps, all for the same message. */
  lemma {:induction false} RunsEnd(s: State, steps: seq<Step>)
    requires Inv(s) && Legal(s, steps) && NoneExternal(steps)
    ensures |steps| + Rank(After(s, steps)) <= Rank(s)
    ensures Current(After(s, steps)) == Current(s)
    decreases steps
  {
    hide Inv, Rank, Next, Enabled, Hypothesis;
    if steps == [] {
    } else {
      RankDecreases(s, steps[0]);
      SameMessage(s, steps[0]);
      StepInv(s, steps[0]);
      RunsEnd(Next(s, steps[0]), steps[1..]);
    }
  }

  lemma SameMessage(s: State, a: Step)
    requires Enabled(s, a) && !a.Enter?
    ensures Next(s, a).dispatched == s.dispatched && Current(Next(s, a)) == Current(s)
  {
    match a
    case CreationFails =>
    case CreateReader =>
    case Publish =>
    case ReadPointer =>
    case AcquireToken =>
    case QueueCall =>
    case ReleaseToken =>
    case Resume =>
    case RunProxy =>
    case HandlerReturns =>
    case HandlerThrows =>
    case HandlerReturnsPromise =>
    case PromiseFulfils =>
    case PromiseRejects =>
    case RunThen =>
    case CloseReader =>
    case Forget =>
    case Collect =>
    case CloseFunction =>
    case FinalizeFunction =>
  }

  // ------------------------------------------------------------- at the end

  /** Creating the reader and ending the thread-safe function: no business of the message in flight. */
  predicate Administrative(a: Step) {
    a.CreationFails? || a.CreateReader? || a.Publish? || a.CloseFunction? || a.FinalizeFunction?
  }

  /** Nothing left to do for a message except what comes from outside or from its handler's promise. */
  ghost predicate Quiet(s: State) {
    forall a :: Enabled(s, a) && Hypothesis(s, a) ==>
      External(a) || Administrative(a) || a.PromiseFulfils? || a.PromiseRejects?
  }

  /** Then the dispatching thread is free or held up by its handler, which has not settled or was
      abandoned. */
  lemma HeldUpOnlyByHandler(s: State)
    requires Inv(s) && Quiet(s)
    ensures s.pc.Idle? || (s.pc.AtWait? && (s.stage.Pending? || s.stage.Abandoned?))
  {
    hide Delivery, Completion, Sound;
    assert !Enabled(s, ReadPointer) && !Enabled(s, AcquireToken) && !Enabled(s, ReleaseToken);
    assert !Enabled(s, HandlerReturns);
    assert !Enabled(s, RunProxy) && !Enabled(s, RunThen) && !Enabled(s, Resume) && !Enabled(s, QueueCall);
  }

  /** A thread is held up exactly by a handler that was called and has not finished. */
  lemma IdleIffFinished(s: State)
    requires Inv(s)
    requires s.pc.Idle? || (s.pc.AtWait? && s.stage.Abandoned?)
    ensures s.pc.Idle? <==> (Current(s) in s.handled ==> Current(s) in s.finished)
  {
    hide Segment, Tokens, Sound;
    Members(s, Current(s));
  }

  /** The thread that dispatched a message comes back if and only if the message was not given to a
      handler or its handler returned or fulfilled: a run that takes no input from outside and cannot
      be extended, not even by settling a promise, has ended within Rank(s) steps, and this decides
      whether the thread is back in the C++ client. */
  lemma ResumesIffHandlerFinishes(s: State, steps: seq<Step>)
    requires Reachable(s) && Legal(s, steps) && NoneExternal(steps)
    requires forall a :: Enabled(After(s, steps), a) && Hypothesis(After(s, steps), a) ==> External(a)
    ensures |steps| <= Rank(s)
    ensures var n := After(s, steps);
            n.pc.Idle? <==> (Current(s) in n.handled ==> Current(s) in n.finished)
  {
    hide Inv, Rank, Next;
    ReachableInv(s);
    RunInv(s, steps);
    RunsEnd(s, steps);
    AtTheEnd(After(s, steps));
  }

  lemma AtTheEnd(s: State)
    requires Inv(s) && forall a :: Enabled(s, a) && Hypothesis(s, a) ==> External(a)
    ensures s.pc.Idle? <==> (Current(s) in s.handled ==> Current(s) in s.finished)
  {
    hide Inv;
    HeldUpOnlyByHandler(s);
    assert !Enabled(s, PromiseFulfils);
    IdleIffFinished(s);
  }

  /** The handler returns or its promise is fulfilled, read off the run itself. */
  predicate Finishes(steps: seq<Step>) {
    exists i :: 0 <= i < |steps| && (steps[i].HandlerReturns? || steps[i].PromiseFulfils?)
  }

  /** The handler throws or its promise is rejected. */
  predicate Fails(steps: seq<Step>) {
    exists i :: 0 <= i < |steps| && (steps[i].HandlerThrows? || steps[i].PromiseRejects?)
  }

  lemma FinishesFirst(steps: seq<Step>)
    requires steps != []
    ensures Finishes(steps) <==> steps[0].HandlerReturns? || steps[0].PromiseFulfils? || Finishes(steps[1..])
    ensures Fails(steps) <==> steps[0].HandlerThrows? || steps[0].PromiseRejects? || Fails(steps[1..])
  {
    assert forall i :: 0 < i < |steps| ==> steps[i] == steps[1..][i - 1];
  }

  /** The handler of the message in flight has finished, whether or not the signal has gone out. */
  predicate HasFinished(s: State) {
    Current(s) in s.finished || s.stage.Fulfilled?
  }

  lemma FinishThreadStep(s: State, a: Step)
    requires Flight(s) && Enabled(s, a)
    requires Administrative(a) || a.ReadPointer? || a.AcquireToken? || a.QueueCall? || a.ReleaseToken? || a.Resume?
    ensures HasFinished(Next(s, a)) <==> HasFinished(s)
    ensures Next(s, a).stage.Abandoned? <==> s.stage.Abandoned?
  {
    match a
    case CreationFails =>
    case CreateReader =>
    case Publish =>
    case ReadPointer =>
    case AcquireToken =>
    case QueueCall =>
    case ReleaseToken =>
    case Resume =>
    case CloseFunction =>
    case FinalizeFunction =>
  }

  lemma FinishHandlerStep(s: State, a: Step)
    requires Flight(s) && Enabled(s, a)
    requires a.RunProxy? || a.HandlerReturns? || a.HandlerThrows? || a.HandlerReturnsPromise?
             || a.PromiseFulfils? || a.PromiseRejects? || a.RunThen?
    ensures HasFinished(Next(s, a)) <==> HasFinished(s) || a.HandlerReturns? || a.PromiseFulfils?
    ensures Next(s, a).stage.Abandoned? <==> s.stage.Abandoned? || a.HandlerThrows? || a.PromiseRejects?
  {
    match a
    case RunProxy =>
    case HandlerReturns =>
    case HandlerThrows =>
    case HandlerReturnsPromise =>
    case PromiseFulfils =>
    case PromiseRejects =>
    case RunThen =>
  }

  lemma FinishStep(s: State, a: Step)
    requires Inv(s) && Enabled(s, a) && !External(a)
    ensures HasFinished(Next(s, a)) <==> HasFinished(s) || a.HandlerReturns? || a.PromiseFulfils?
    ensures Next(s, a).stage.Abandoned? <==> s.stage.Abandoned? || a.HandlerThrows? || a.PromiseRejects?
  {
    hide Delivery, Completion, Sound, Tokens, Flight, Next, Enabled, HasFinished;
    if Administrative(a) || a.ReadPointer? || a.AcquireToken? || a.QueueCall? || a.ReleaseToken? || a.Resume? {
      FinishThreadStep(s, a);
    } else {
      FinishHandlerStep(s, a);
    }
  }

  /** What the run did to the handler is what the state says about it. */
  lemma {:induction false} FinishRun(s: State, steps: seq<Step>)
    requires Inv(s) && Legal(s, steps) && NoneExternal(steps)
    ensures HasFinished(After(s, steps)) <==> HasFinished(s) || Finishes(steps)
    ensures After(s, steps).stage.Abandoned? <==> s.stage.Abandoned? || Fails(steps)
    decreases steps
  {
    hide Inv, Next, Enabled, Hypothesis, Finishes, Fails, HasFinished;
    if steps == [] {
      NothingHappens();
    } else {
      FinishesFirst(steps);
      FinishStep(s, steps[0]);
      StepInv(s, steps[0]);
      FinishRun(Next(s, steps[0]), steps[1..]);
    }
  }

  lemma NothingHappens()
    ensures !Finishes([]) && !Fails([])
  {
  }

  /** A message that was just dispatched has not been handled. */
  lemma JustDispatched(s: State)
    requires Inv(s) && s.pc.Entered?
    ensures !HasFinished(s) && !s.stage.Abandoned?
  {
    hide Segment, Tokens, Sound;
  }

  /** From the dispatch of a message on, in terms of the run alone: a run that takes no other input from
      outside and cannot be extended brings the thread back if and only if no handler threw or rejected
      in it, which is to say that the message was not given to a handler or its handler returned or
      fulfilled in it. */
  lemma ComesBackIffHandlerFinishes(s: State, steps: seq<Step>)
    requires Reachable(s) && s.pc.Entered? && Legal(s, steps) && NoneExternal(steps)
    requires forall a :: Enabled(After(s, steps), a) && Hypothesis(After(s, steps), a) ==> External(a)
    ensures |steps| <= Rank(s)
    ensures After(s, steps).pc.Idle? <==> !Fails(steps)
    ensures After(s, steps).pc.Idle? <==> (Current(s) in After(s, steps).handled ==> Finishes(steps))
  {
    hide Inv, Rank, Next, Finishes, Fails;
    ReachableInv(s);
    RunInv(s, steps);
    ResumesIffHandlerFinishes(s, steps);
    RunsEnd(s, steps);
    FinishRun(s, steps);
    JustDispatched(s);
    var n := After(s, steps);
    HeldUpOnlyByHandler(n);
    assert !Enabled(n, PromiseFulfils) && !Enabled(n, RunThen) && !Enabled(n, HandlerReturns);
    NotFulfilled(n);
  }

  lemma NotFulfilled(s: State)
    requires Inv(s) && (s.pc.Idle? || (s.pc.AtWait? && (s.stage.Pending? || s.stage.Abandoned?)))
    ensures !s.stage.Fulfilled?
    ensures s.pc.Idle? ==> !s.stage.Abandoned?
  {
    hide Delivery, Completion, Sound, Tokens;
  }

  // ------------------------------------------------------- abandoned handlers

  lemma AbandonedStep(s: State, a: Step)
    requires Inv(s) && s.stage.Abandoned? && Enabled(s, a)
    ensures Next(s, a).stage.Abandoned? && Next(s, a).dispatched == s.dispatched
  {
    hide Delivery, Completion, Sound, Tokens;
    match a
    case CreationFails =>
    case CreateReader =>
    case Publish =>
    case ReadPointer =>
    case AcquireToken =>
    case QueueCall =>
    case ReleaseToken =>
    case CloseReader =>
    case Forget =>
    case Collect =>
    case CloseFunction =>
    case FinalizeFunction =>
  }

  /** A throw or a rejection is never signalled: its thread is held up for good. */
  lemma {:induction false} AbandonedForGood(s: State, steps: seq<Step>)
    requires Inv(s) && s.stage.Abandoned? && Legal(s, steps)
    ensures var n := After(s, steps);
            n.stage.Abandoned? && !n.pc.Idle? && n.dispatched == s.dispatched
            && n.completions[Current(n)] == 0
    decreases steps
  {
    hide Inv, Next, Enabled, Hypothesis;
    if steps == [] {
      AbandonedHolds(s);
    } else {
      AbandonedStep(s, steps[0]);
      StepInv(s, steps[0]);
      AbandonedForGood(Next(s, steps[0]), steps[1..]);
    }
  }

  lemma AbandonedHolds(s: State)
    requires Inv(s) && s.stage.Abandoned?
    ensures !s.pc.Idle? && s.completions[Current(s)] == 0
  {
    hide Segment, Tokens, Sound;
  }

  // ------------------------------------------------- the situation is reachable

  lemma {:induction false} AppendStep(s: State, steps: seq<Step>, a: Step)
    requires Legal(s, steps)
    requires Enabled(After(s, steps), a) && Hypothesis(After(s, steps), a)
    ensures Legal(s, steps + [a]) && After(s, steps + [a]) == Next(After(s, steps), a)
    decreases steps
  {
    hide Next, Enabled, Hypothesis;
    if steps == [] {
      assert steps + [a] == [a] && [a][1..] == [];
    } else {
      assert (steps + [a])[1..] == steps[1..] + [a];
      AppendStep(Next(s, steps[0]), steps[1..], a);
    }
  }

  lemma Continue(s: State, a: Step) returns (n: State)
    requires Reachable(s) && Enabled(s, a) && Hypothesis(s, a)
    ensures Reachable(n) && n == Next(s, a)
  {
    hide Next, Enabled, Hypothesis;
    n := Next(s, a);
    var steps: seq<Step> :| Legal(Init(), steps) && After(Init(), steps) == s;
    AppendStep(Init(), steps, a);
  }

  lemma InitReachable()
    ensures Reachable(Init())
  {
    assert Legal(Init(), []) && After(Init(), []) == Init();
  }

  /** A published reader, not closed. */
  lemma PublishedReader() returns (s: State)
    ensures Reachable(s) && s.phase.Published? && s.readerOwns && s.refs == 1 && s.reachable && !s.collected
    ensures s.pc.Idle? && !s.inHandler && s.tsfn == Create(1, 1) && s.dispatched == 0
  {
    hide Reachable;
    InitReachable();
    var p := Continue(Init(), CreateReader);
    s := Continue(p, Publish);
    assert s == AfterPublish(p);
  }

  /** A message of a reader that is open is waiting to be proxied. */
  lemma Calling() returns (s: State)
    ensures Reachable(s) && s.phase.Published? && s.readerOwns && s.refs == 1 && s.reachable && !s.collected
    ensures s.pc.AtWait? && s.stage == Queued(true) && !s.inHandler && s.tsfn == Tsfn(1, [0], 1, Open)
    ensures s.dispatched == 1
  {
    hide Reachable;
    var p := PublishedReader();
    var q := Continue(p, Enter);
    assert q == AfterEnter(p);
    var r := Continue(q, ReadPointer);
    assert r == AfterReadPointer(q);
    var u := Continue(r, AcquireToken);
    assert u == AfterAcquireToken(r);
    var v := Continue(u, QueueCall);
    assert v == AfterQueueCall(u);
    s := Continue(v, ReleaseToken);
    assert s == AfterReleaseToken(v);
  }

  /** A handler throws. */
  lemma HandlerThrew() returns (s: State)
    ensures Reachable(s) && s.stage.Abandoned? && s.pc.AtWait?
  {
    hide Reachable;
    var p := Calling();
    var q := Continue(p, RunProxy);
    assert q == AfterRunProxy(p);
    s := Continue(q, HandlerThrows);
  }

  /** A handler's promise is rejected. */
  lemma PromiseRejected() returns (s: State)
    ensures Reachable(s) && s.stage.Abandoned? && s.pc.AtWait?
  {
    hide Reachable;
    var p := Calling();
    var q := Continue(p, RunProxy);
    assert q == AfterRunProxy(p);
    var r := Continue(q, HandlerReturnsPromise);
    s := Continue(r, PromiseRejects);
  }
}
