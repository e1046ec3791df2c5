/** Why the reader's hypotheses are needed, and when collecting a Reader is safe. The listener record
    keeps its pointer to the Reader after close, and nothing pauses the dispatch. */
module ReaderLifetime {
  import opened Common
  import opened ThreadSafeFunction
  import opened ReaderProtocol
  import opened ReaderProgress

  // ------------------------------------------------------ the record's hypotheses

  /** The next thing a thread before its Acquire does uses the record. */
  function UseOfRecord(pc: Pc): Step
    requires BeforeAcquire(pc)
  {
    if pc.Entered? then ReadPointer else AcquireToken
  }

  /** Finalizing while a thread stands before its Acquire lets it use the deleted record. */
  lemma FinalizeHypothesisIsNeeded(s: State)
    requires Reachable(s) && Enabled(s, FinalizeFunction) && !Hypothesis(s, FinalizeFunction)
    ensures var n := Next(s, FinalizeFunction);
            && Enabled(n, UseOfRecord(n.pc))
            && Next(n, UseOfRecord(n.pc)).fault && Next(n, UseOfRecord(n.pc)).stale == s.stale
  {
    hide Delivery, Completion, Reachable;
    ReachableInv(s);
  }

  /** So does entering after it was finalized. */
  lemma EnterHypothesisIsNeeded(s: State)
    requires Reachable(s) && Enabled(s, Enter) && !Hypothesis(s, Enter)
    ensures var n := Next(s, Enter);
            Enabled(n, ReadPointer) && Next(n, ReadPointer).fault && Next(n, ReadPointer).stale == s.stale
  {
    hide Delivery, Completion, Reachable;
    ReachableInv(s);
  }

  lemma NoFaultYet(s: State)
    requires Reachable(s) && !s.collected
    ensures !s.fault
  {
    hide Inv;
    ReachableInv(s);
    FaultIsStale(s);
  }

  /** A message is dispatched between close and the finalizer. */
  lemma CloseMeetsDispatch() returns (s: State)
    ensures Reachable(s) && Enabled(s, FinalizeFunction) && !Hypothesis(s, FinalizeFunction)
    ensures !s.fault
  {
    hide Reachable;
    var p := PublishedReader();
    var q := Continue(p, CloseReader);
    assert q == CleanUp(p);
    var r := Continue(q, CloseFunction);
    s := Continue(r, Enter);
    assert s == AfterEnter(r) && !s.collected;
    NoFaultYet(s);
  }

  // ------------------------------------------------------------- the Reader itself

  /** No later message can reach the Reader: the function is closing, or the only thread that
      dispatches is held up for good. */
  predicate Unreached(s: State) {
    !s.tsfn.phase.Open? || s.stage.Abandoned?
  }

  lemma UnreachedStep(s: State, a: Step)
    requires Inv(s) && !s.stale && s.collected && Unreached(s) && Enabled(s, a)
    ensures !Next(s, a).stale && Next(s, a).collected && Unreached(Next(s, a))
  {
    hide Delivery, Completion, Sound;
    match a
    case CreationFails =>
    case CreateReader =>
    case Publish =>
    case Enter =>
    case ReadPointer =>
    case AcquireToken =>
    case QueueCall =>
    case ReleaseToken =>
    case Resume =>
    case HandlerReturns =>
    case HandlerThrows =>
    case HandlerReturnsPromise =>
    case PromiseFulfils =>
    case PromiseRejects =>
    case RunThen =>
    case CloseFunction =>
    case FinalizeFunction =>
  }

  lemma FaultIsStale(s: State)
    requires Inv(s)
    ensures s.fault ==> s.stale
    ensures s.stale ==> s.collected
  {
    hide Tokens, Flight, Delivery, Completion;
  }

  lemma {:induction false} UnreachedForGood(s: State, rest: seq<Step>)
    requires Inv(s) && !s.stale && s.collected && Unreached(s) && Legal(s, rest)
    ensures !After(s, rest).fault
    decreases rest
  {
    hide Inv, Next, Enabled, Hypothesis, Unreached;
    if rest == [] {
      FaultIsStale(s);
    } else {
      UnreachedStep(s, rest[0]);
      StepInv(s, rest[0]);
      UnreachedForGood(Next(s, rest[0]), rest[1..]);
    }
  }

  /** The Reader is gone and the function is still open to a thread that will come back. */
  ghost predicate Doomed(s: State) {
    Inv(s) && s.collected && s.tsfn.phase.Open? && !s.inHandler && !s.stage.Abandoned?
  }

  /** The next step of a message in flight. */
  function Onward(s: State): Step {
    if s.pc.Idle? then Enter
    else if s.pc.Entered? then ReadPointer
    else if s.pc.AtAcquire? then AcquireToken
    else if s.pc.AtCall? then QueueCall
    else if s.stage.Queued? then RunProxy
    else if s.pc.AtRelease? then ReleaseToken
    else if s.stage.Pending? then PromiseFulfils
    else if s.stage.Fulfilled? then RunThen
    else Resume
  }

  lemma OnwardEnabled(s: State)
    requires Doomed(s)
    ensures Enabled(s, Onward(s)) && Hypothesis(s, Onward(s))
  {
    hide Delivery, Completion, Sound;
  }

  lemma OnwardKeeps(s: State)
    requires Flight(s) && s.collected && s.tsfn.phase.Open? && !s.inHandler && !s.stage.Abandoned?
    requires Enabled(s, Onward(s)) && s.stage != Queued(true)
    ensures var n := Next(s, Onward(s));
            n.collected && n.tsfn.phase.Open? && !n.inHandler && !n.stage.Abandoned?
  {
    match Onward(s)
    case Enter =>
    case ReadPointer =>
    case AcquireToken =>
    case QueueCall =>
    case RunProxy =>
    case ReleaseToken =>
    case PromiseFulfils =>
    case RunThen =>
    case Resume =>
  }

  lemma OnwardDoomed(s: State)
    requires Doomed(s) && Enabled(s, Onward(s)) && Hypothesis(s, Onward(s)) && s.stage != Queued(true)
    ensures Doomed(Next(s, Onward(s)))
  {
    hide Delivery, Completion, Sound, Tokens, Next;
    StepInv(s, Onward(s));
    OnwardKeeps(s);
  }

  /** The pointer a later message reads is not null. */
  lemma DoomedPublished(s: State)
    requires Doomed(s)
    ensures s.phase.Published?
  {
    hide Delivery, Completion, Sound, Flight;
  }

  lemma ProxyUses(s: State)
    requires Doomed(s) && s.stage == Queued(true) && Enabled(s, RunProxy)
    ensures Next(s, RunProxy).fault && Next(s, RunProxy).stale
  {
    hide Delivery, Completion, Sound, Tokens;
  }

  lemma Extend(s: State, a: Step, rest: seq<Step>)
    requires Enabled(s, a) && Hypothesis(s, a) && Legal(Next(s, a), rest)
    ensures Legal(s, [a] + rest) && After(s, [a] + rest) == After(Next(s, a), rest)
  {
    hide Next, Enabled, Hypothesis;
    assert ([a] + rest)[1..] == rest;
  }

  /** A message that has read the pointer after publication, or will read it, is given to the proxy
      with the pointer to the Reader that is gone. */
  predicate WillUse(s: State) {
    s.pc.Idle? || s.pc.Entered? || (s.pc.AtAcquire? && s.pc.reader) || (s.pc.AtCall? && s.pc.reader)
    || (!s.pc.Idle? && s.stage == Queued(true))
  }

  /** How far the proxy is away from such a message. */
  function ToProxy(pc: Pc): nat {
    match pc
    case Idle => 5
    case Entered => 4
    case AtAcquire(_) => 3
    case AtCall(_) => 2
    case _ => 1
  }

  lemma OnwardUses(s: State)
    requires Doomed(s) && WillUse(s) && s.stage != Queued(true)
    requires Enabled(s, Onward(s)) && Hypothesis(s, Onward(s))
    ensures WillUse(Next(s, Onward(s))) && ToProxy(Next(s, Onward(s)).pc) < ToProxy(s.pc)
  {
    hide Delivery, Completion, Sound;
    DoomedPublished(s);
  }

  lemma {:induction false} Use(s: State) returns (rest: seq<Step>)
    requires Doomed(s) && WillUse(s)
    ensures Legal(s, rest) && After(s, rest).fault && After(s, rest).stale
    decreases ToProxy(s.pc)
  {
    hide Doomed, WillUse, Next, Enabled, Hypothesis;
    OnwardEnabled(s);
    var n := Next(s, Onward(s));
    if s.stage == Queued(true) {
      OnwardIsProxy(s);
      ProxyUses(s);
      rest := [];
    } else {
      OnwardDoomed(s);
      OnwardUses(s);
      rest := Use(n);
    }
    Extend(s, Onward(s), rest);
    rest := [Onward(s)] + rest;
  }

  lemma OnwardIsProxy(s: State)
    requires Doomed(s) && s.stage == Queued(true)
    ensures Onward(s) == RunProxy
  {
    hide Delivery, Completion, Sound, Tokens;
  }

  lemma OnwardDescends(s: State)
    requires Doomed(s) && !s.pc.Idle? && Enabled(s, Onward(s))
    ensures Rank(Next(s, Onward(s))) < Rank(s)
  {
    hide Inv, Next, Enabled, Rank;
    RankDecreases(s, Onward(s));
  }

  /** Any other message in flight is finished first. */
  lemma {:induction false} DoomedIsUsed(s: State) returns (rest: seq<Step>)
    requires Doomed(s)
    ensures Legal(s, rest) && After(s, rest).fault && After(s, rest).stale
    decreases Rank(s)
  {
    hide Doomed, Next, Enabled, Hypothesis, Rank;
    if WillUse(s) {
      rest := Use(s);
    } else {
      OnwardEnabled(s);
      OnwardDoomed(s);
      OnwardDescends(s);
      rest := DoomedIsUsed(Next(s, Onward(s)));
      Extend(s, Onward(s), rest);
      rest := [Onward(s)] + rest;
    }
  }

  /** Nothing is used after it was freed, in any continuation that keeps the hypotheses. */
  ghost predicate SafeFrom(s: State) {
    forall rest :: Legal(s, rest) ==> !After(s, rest).fault
  }

  lemma Collected(s: State)
    requires Inv(s) && Enabled(s, Collect)
    ensures Next(s, Collect) == s.(collected := true) && !s.stale
  {
    hide Delivery, Completion, Flight;
  }

  /** Collecting the Reader is safe for every continuation if and only if the function has begun to
      close or the dispatching thread is held up for good. */
  lemma CollectIsSafeIffUnreached(s: State)
    requires Reachable(s) && Enabled(s, Collect)
    ensures SafeFrom(Next(s, Collect)) <==> Unreached(s)
  {
    hide Inv, Reachable, Legal, After;
    ReachableInv(s);
    Collected(s);
    StepInv(s, Collect);
    var n := Next(s, Collect);
    if Unreached(s) {
      forall rest | Legal(n, rest) ensures !After(n, rest).fault {
        UnreachedForGood(n, rest);
      }
    } else {
      var rest := DoomedIsUsed(n);
    }
  }

  /** The application closes its reader and lets go of it while a message is queued. */
  lemma ForgottenWhileQueued() returns (s: State)
    ensures Reachable(s) && Enabled(s, Collect) && s.stage == Queued(true) && !Unreached(s)
  {
    hide Reachable;
    var p := Calling();
    var q := Continue(p, CloseReader);
    assert q == CleanUp(p);
    s := Continue(q, Forget);
  }

  /** Runs in which JavaScript keeps its reader until no message can reach it. */
  predicate Careful(s: State, steps: seq<Step>)
    requires Legal(s, steps)
    decreases steps
  {
    steps != [] ==>
      (steps[0].Collect? ==> Unreached(s)) && Careful(Next(s, steps[0]), steps[1..])
  }

  lemma {:induction false} CarefulRun(s: State, steps: seq<Step>)
    requires Inv(s) && !s.stale && (s.collected ==> Unreached(s)) && Legal(s, steps) && Careful(s, steps)
    ensures !After(s, steps).fault
    decreases steps
  {
    hide Inv, Next, Enabled, Hypothesis, Unreached;
    FaultIsStale(s);
    if steps == [] {
    } else {
      StepInv(s, steps[0]);
      if s.collected {
        UnreachedStep(s, steps[0]);
      } else {
        CarefulStep(s, steps[0]);
      }
      CarefulRun(Next(s, steps[0]), steps[1..]);
    }
  }

  lemma CarefulStep(s: State, a: Step)
    requires Inv(s) && !s.collected && Enabled(s, a) && (a.Collect? ==> Unreached(s))
    ensures !Next(s, a).stale && (Next(s, a).collected ==> Unreached(Next(s, a)))
  {
    hide Delivery, Completion, Flight;
    if a.Collect? {
      Collected(s);
    }
  }

  /** With the hypotheses and a careful application, no run uses anything that was freed, releases
      what it does not hold or sets a promise twice. */
  lemma CarefulRunsAreSafe(steps: seq<Step>)
    requires Legal(Init(), steps) && Careful(Init(), steps)
    ensures !After(Init(), steps).fault
  {
    hide Inv;
    InitInv();
    CarefulRun(Init(), steps);
  }
}
