/** The Consumer object itself. The proxy data of a message holds a raw pointer to it, which the proxy
    follows to call the handler and the catch reaction follows to report a rejection; after Cleanup
    nothing but JavaScript's own references keeps the object alive. This module says exactly when
    collecting it is safe. */
module ListenerLifetime {
  import opened Common
  import opened ThreadSafeFunction
  import opened ListenerProtocol
  import opened ListenerInvariant
  import opened ListenerHypothesis

  /** A call in this stage may still follow data->consumer. */
  predicate MayUse(st: Stage) {
    st.Queued? || st.Running? || st.Pending? || st == Settled(true)
  }

  /** No thread is about to queue a call, and no call will follow its pointer to the Consumer. */
  predicate Unneeded(s: State) {
    && (forall t :: 0 <= t < |s.threads| ==> !s.threads[t].AtCall?)
    && (forall c :: 0 <= c < |s.calls| ==> !MayUse(s.calls[c].stage))
  }

  // ---------------------------------------------------------------- sufficient

  /** The Consumer is gone, nobody needs it, and nothing was used too late. */
  predicate Released(s: State) {
    Inv(s) && !s.fault && ConsumerGone(s) && Unneeded(s)
  }

  lemma GoneHasNoOwner(s: State)
    requires Inv(s) && ConsumerGone(s)
    ensures NoneBeforeAcquire(s) && (s.record ==> s.paused)
    ensures s.phase.Succeeded? && s.deferred.Fulfilled? && !s.mainConfig
  {
    hide Tokens, Life, Work, Sound;
  }

  /** Few steps are left once the Consumer is gone. */
  lemma StepsLeft(s: State, a: Step)
    requires Released(s) && Enabled(s, a)
    ensures a.ReleaseToken? || a.Resume? || a.RunFinally? || a.CloseFunction? || a.FinalizeFunction?
    ensures a.RunFinally? ==> s.calls[a.call].stage == Settled(false)
  {
    hide Accounts, Calls, Histories;
    GoneHasNoOwner(s);
    if a.RunProxy? {
      OldestIsQueued(s);
    }
  }

  lemma OldestIsQueued(s: State)
    requires Main(s) && s.tsfn.queue != []
    ensures HasStage(s, s.tsfn.queue[0], Queued)
  {
  }

  lemma ThreadStepReleased(s: State, a: Step)
    requires Released(s) && Enabled(s, a) && (a.ReleaseToken? || a.Resume?)
    ensures Next(s, a).stale == s.stale && Next(s, a).consumer == s.consumer && Unneeded(Next(s, a))
  {
    hide Inv;
    if a.ReleaseToken? {
      assert Unneeded(AfterReleaseToken(s, a.t));
    } else {
      assert Unneeded(AfterResume(s, a.t));
    }
  }

  lemma MainStepReleased(s: State, a: Step)
    requires Released(s) && Enabled(s, a) && (a.CloseFunction? || a.FinalizeFunction? || a.RunFinally?)
    requires a.RunFinally? ==> s.calls[a.call].stage == Settled(false)
    ensures Next(s, a).stale == s.stale && Next(s, a).consumer == s.consumer && Unneeded(Next(s, a))
  {
    hide Inv;
    if a.RunFinally? {
      assert Unneeded(AfterRunFinally(s, a.call));
    } else if a.CloseFunction? {
      assert Unneeded(AfterCloseFunction(s));
    } else {
      assert Unneeded(AfterFinalizeFunction(s));
    }
  }

  lemma NotStale(s: State)
    requires Inv(s)
    ensures s.fault ==> s.stale
    ensures s.stale ==> ConsumerGone(s)
  {
    hide Tokens, Phases, Object, Life, Work, Guarded;
  }

  lemma StepReleased(s: State, a: Step)
    requires Released(s) && !s.stale && Enabled(s, a)
    ensures Released(Next(s, a)) && !Next(s, a).stale
  {
    hide Inv, Next, Unneeded;
    StepsLeft(s, a);
    StepInv(s, a);
    if a.ReleaseToken? || a.Resume? { ThreadStepReleased(s, a); } else { MainStepReleased(s, a); }
    NotStale(Next(s, a));
  }

  /** Whatever follows, with no promise from the environment. */
  lemma {:induction false} ReleasedForGood(s: State, rest: seq<Step>)
    requires Released(s) && !s.stale && Possible(s, rest)
    ensures !Reached(s, rest).fault
    decreases rest
  {
    hide Inv, Next, Unneeded, Enabled;
    if rest == [] {
    } else {
      StepReleased(s, rest[0]);
      ReleasedForGood(Next(s, rest[0]), rest[1..]);
    }
  }

  // ----------------------------------------------------------------- necessary

  /** Collect leaves everything but the object as it was. */
  lemma Collected(s: State)
    requires Inv(s) && Enabled(s, Collect)
    ensures Next(s, Collect) == s.(consumer := Some(s.consumer.value.(collected := true)))
    ensures Inv(Next(s, Collect)) && !s.stale && !s.fault
  {
    hide Tokens, Phases, Life, Work, Guarded;
    NotStale(s);
    CollectAccounts(s);
    CollectInv(s);
  }

  lemma CollectInv(s: State)
    requires Inv(s) && Enabled(s, Collect)
    ensures Inv(Next(s, Collect))
  {
    StepInv(s, Collect);
  }

  lemma One(s: State, a: Step) returns (rest: seq<Step>)
    requires Enabled(s, a) && Next(s, a).stale && Next(s, a).fault
    ensures Possible(s, rest) && Reached(s, rest).stale && Reached(s, rest).fault
  {
    hide Next, Enabled;
    assert Reached(Next(s, a), []) == Next(s, a);
    Extend(s, a, []);
    rest := [a] + [];
  }

  lemma Two(s: State, a: Step, b: Step) returns (rest: seq<Step>)
    requires Enabled(s, a) && Enabled(Next(s, a), b)
    requires Next(Next(s, a), b).stale && Next(Next(s, a), b).fault
    ensures Possible(s, rest) && Reached(s, rest).stale && Reached(s, rest).fault
  {
    hide Next, Enabled;
    var more := One(Next(s, a), b);
    Extend(s, a, more);
    rest := [a] + more;
  }

  /** The proxy of a queued call follows its pointer. */
  lemma QueuedUses(s: State) returns (rest: seq<Step>)
    requires Inv(s) && ConsumerGone(s) && MainFree(s) && s.tsfn.queue != []
    ensures Possible(s, rest) && Reached(s, rest).stale && Reached(s, rest).fault
  {
    hide Tokens, Phases, Object, Calls, Histories, Sound;
    assert HasStage(s, s.tsfn.queue[0], Queued);
    assert AfterRunProxy(s).stale && AfterRunProxy(s).fault;
    rest := One(s, RunProxy);
  }

  /** A thread about to queue a call does so, and the proxy follows. */
  lemma CallerUses(s: State, t: nat) returns (rest: seq<Step>)
    requires Inv(s) && ConsumerGone(s) && MainFree(s) && s.tsfn.queue == []
    requires t < |s.threads| && s.threads[t].AtCall?
    ensures Possible(s, rest) && Reached(s, rest).stale && Reached(s, rest).fault
  {
    hide Tokens, Phases, Object, Work, Sound;
    HolderOpens(s, t);
    var n := AfterQueueCall(s, t);
    assert n.tsfn.queue == [|s.calls|] && n.calls[|s.calls|].stage == Queued;
    assert AfterRunProxy(n).stale && AfterRunProxy(n).fault;
    rest := Two(s, QueueCall(t), RunProxy);
  }

  /** The catch reaction of a rejection follows the pointer. */
  lemma RejectionUses(s: State, c: nat) returns (rest: seq<Step>)
    requires ConsumerGone(s) && MainFree(s) && c < |s.calls|
    requires s.calls[c].stage.Pending? || s.calls[c].stage == Settled(true)
    ensures Possible(s, rest) && Reached(s, rest).stale && Reached(s, rest).fault
  {
    if s.calls[c].stage.Pending? {
      var n := AfterSettlePromise(s, c, true);
      assert AfterRunFinally(n, c).stale && AfterRunFinally(n, c).fault;
      rest := Two(s, SettlePromise(c, true), RunFinally(c));
    } else {
      assert AfterRunFinally(s, c).stale && AfterRunFinally(s, c).fault;
      rest := One(s, RunFinally(c));
    }
  }

  lemma NeededIsUsed(s: State) returns (rest: seq<Step>)
    requires Inv(s) && ConsumerGone(s) && MainFree(s) && !Unneeded(s)
    ensures Possible(s, rest) && Reached(s, rest).stale && Reached(s, rest).fault
  {
    hide Accounts, Calls, Histories, Guarded, Possible, Reached;
    if s.tsfn.queue != [] {
      rest := QueuedUses(s);
    } else if t :| 0 <= t < |s.threads| && s.threads[t].AtCall? {
      rest := CallerUses(s, t);
    } else {
      var c :| 0 <= c < |s.calls| && MayUse(s.calls[c].stage);
      rest := RejectionUses(s, c);
    }
  }

  // ------------------------------------------------------------------ theorems

  /** Nothing is used after it was freed, in any continuation. */
  ghost predicate SafeFrom(s: State) {
    forall rest :: Possible(s, rest) ==> !Reached(s, rest).fault
  }

  /** Collecting the Consumer is safe for every continuation if and only if no thread is about to
      queue a call and no call is queued, waits for a promise or reports a rejection. */
  lemma CollectIsSafeIffUnneeded(s: State)
    requires Reachable(s) && Enabled(s, Collect)
    ensures SafeFrom(Next(s, Collect)) <==> Unneeded(s)
  {
    hide Inv, Reachable, Possible, Reached;
    ReachableInv(s);
    Collected(s);
    var n := Next(s, Collect);
    if Unneeded(s) {
      forall rest | Possible(n, rest) ensures !Reached(n, rest).fault {
        ReleasedForGood(n, rest);
      }
    } else {
      var rest := NeededIsUsed(n);
    }
  }

  /** Runs in which JavaScript keeps its consumer until nobody needs it. */
  predicate Careful(s: State, steps: seq<Step>)
    requires Legal(s, steps)
    decreases steps
  {
    steps != [] ==>
      (steps[0].Collect? ==> Unneeded(s)) && Careful(Next(s, steps[0]), steps[1..])
  }

  lemma {:induction false} CarefulRun(s: State, steps: seq<Step>)
    requires Inv(s) && !s.stale && (ConsumerGone(s) ==> Unneeded(s))
    requires Legal(s, steps) && Careful(s, steps)
    ensures !After(s, steps).fault
    decreases steps
  {
    hide Inv, Next, Unneeded, Enabled;
    NotStale(s);
    if steps == [] {
    } else {
      var n := Next(s, steps[0]);
      StepInv(s, steps[0]);
      if ConsumerGone(s) {
        StepReleased(s, steps[0]);
      } else if steps[0].Collect? {
        Collected(s);
        assert Unneeded(n) by { UnneededSame(s, n); }
      } else {
        NotGone(s, steps[0]);
        NotStale(n);
      }
      CarefulRun(n, steps[1..]);
    }
  }

  lemma UnneededSame(s: State, n: State)
    requires Unneeded(s) && n.threads == s.threads && n.calls == s.calls
    ensures Unneeded(n)
  {
  }

  /** Only Collect deletes the object. */
  lemma NotGone(s: State, a: Step)
    requires Inv(s) && !ConsumerGone(s) && Enabled(s, a) && !a.Collect?
    ensures !ConsumerGone(Next(s, a))
  {
    hide Tokens, Phases, Object, Life, Calls, Histories;
    if Handling(a) {
      NotGoneHandling(s, a);
    } else if Setup(a) {
      NotGoneSetup(s, a);
    } else if Listening(a) {
      NotGoneListening(s, a);
    } else {
      NotGoneTeardown(s, a);
    }
  }

  lemma NotGoneHandling(s: State, a: Step)
    requires Sound(s) && Main(s) && !ConsumerGone(s) && Enabled(s, a) && Handling(a)
    ensures !ConsumerGone(Next(s, a))
  {
    hide Next, Main, Sound;
    HandlingFrame(s, a);
  }

  lemma NotGoneSetup(s: State, a: Step)
    requires !ConsumerGone(s) && Enabled(s, a) && Setup(a)
    ensures !ConsumerGone(Next(s, a))
  {
    hide AfterRunDeferred;
    if a.RunDeferred? {
      NotGoneDeferred(s);
    } else {
      NotGoneOtherSetup(s, a);
    }
  }

  lemma NotGoneDeferred(s: State)
    requires !ConsumerGone(s) && s.deferred.Chosen?
    ensures !ConsumerGone(AfterRunDeferred(s))
  {
    hide BuildConsumer, SetListenerCallback, DropConfig;
    if s.deferred.outcome.Value? {
      BuildKeeps(s);
      SetKeeps(BuildConsumer(s));
      DropKeeps(SetListenerCallback(BuildConsumer(s)));
    }
  }

  lemma BuildKeeps(s: State)
    requires s.deferred.Chosen?
    ensures BuildConsumer(s).consumer.Some? && !ConsumerGone(BuildConsumer(s))
  {
  }

  lemma SetKeeps(s: State)
    requires s.consumer.Some? && !ConsumerGone(s)
    ensures !ConsumerGone(SetListenerCallback(s))
  {
  }

  lemma DropKeeps(s: State)
    requires !ConsumerGone(s)
    ensures !ConsumerGone(DropConfig(s, false))
  {
  }

  lemma NotGoneOtherSetup(s: State, a: Step)
    requires !ConsumerGone(s) && Enabled(s, a) && Setup(a) && !a.RunDeferred?
    ensures !ConsumerGone(Next(s, a))
  {
    match a
    case Configure(_) =>
    case RefuseConfig =>
    case ThrowConfig =>
    case Subscribe =>
    case ReturnFromNewInstance =>
    case CreateConsumer =>
    case SubscribeFails =>
    case SubscribeSucceeds =>
  }

  lemma NotGoneListening(s: State, a: Step)
    requires !ConsumerGone(s) && Enabled(s, a) && Listening(a)
    ensures !ConsumerGone(Next(s, a))
  {
    match a
    case Enter(_, _) =>
    case GetConsumer(_) =>
    case AcquireToken(_) =>
    case QueueCall(_) =>
    case ReleaseToken(_) =>
    case Resume(_) =>
  }

  lemma NotGoneTeardown(s: State, a: Step)
    requires !ConsumerGone(s) && Enabled(s, a) && Teardown(a) && !a.Collect?
    ensures !ConsumerGone(Next(s, a))
  {
    match a
    case CloseCall =>
    case FinishCleanup =>
    case Forget =>
    case CloseFunction =>
    case FinalizeFunction =>
  }

  /** With the pause hypothesis and a careful application, no run of any client uses anything that
      was freed, releases what it does not hold or sets a promise twice. */
  lemma CarefulRunsAreSafe(k: nat, steps: seq<Step>)
    requires Legal(Init(k), steps) && Careful(Init(k), steps)
    ensures !After(Init(k), steps).fault
  {
    hide Inv;
    InitInv(k);
    CarefulRun(Init(k), steps);
  }

  // ------------------------------------------------- the situation is reachable

  lemma Acquired(m: Msg) returns (s: State)
    ensures Reachable(s) && MainFree(s) && s.consumer == Some(Consumer(true, 1, true, false, 0, 0))
    ensures s.threads == [AtCall(m)] && s.calls == [] && s.tsfn == Tsfn(2, [], 1, Open)
  {
    hide Reachable;
    var p := Dispatching(m);
    s := Continue(p, AcquireToken(0));
    assert s == AfterAcquireToken(p, 0);
  }

  /** A message is queued and its thread waits. */
  lemma Calling(m: Msg) returns (s: State)
    ensures Reachable(s) && MainFree(s) && s.consumer == Some(Consumer(true, 1, true, false, 0, 0))
    ensures s.threads == [AtWait(0)] && s.calls == [Call(0, m, Queued)] && s.tsfn == Tsfn(1, [0], 1, Open)
  {
    hide Reachable;
    var p := Acquired(m);
    var q := Continue(p, QueueCall(0));
    assert q == AfterQueueCall(p, 0);
    s := Continue(q, ReleaseToken(0));
    assert s == AfterReleaseToken(q, 0);
  }

  lemma Waiting(m: Msg) returns (s: State)
    ensures Reachable(s) && MainFree(s) && s.consumer == Some(Consumer(true, 1, true, false, 0, 0))
    ensures s.threads == [AtWait(0)] && s.calls == [Call(0, m, Pending)]
  {
    hide Reachable;
    var p := Calling(m);
    var q := Continue(p, RunProxy);
    assert q == AfterRunProxy(p);
    s := Continue(q, HandlerReturnsPromise);
    assert s == AfterHandlerReturnsPromise(q);
  }

  lemma Closed(p: State) returns (s: State)
    requires Reachable(p) && MainFree(p) && NoneBeforeAcquire(p)
    requires p.consumer == Some(Consumer(true, 1, true, false, 0, 0))
    ensures Reachable(s) && MainFree(s) && s.calls == p.calls
    ensures s.consumer == Some(Consumer(false, 0, true, false, 1, 1))
  {
    hide Reachable;
    var q := Continue(p, CloseCall);
    assert q == AfterCloseCall(p);
    s := Continue(q, FinishCleanup);
    assert s == ReleaseListener(q);
  }

  /** The application closes its consumer and lets go of it. */
  lemma Forgotten(p: State) returns (s: State)
    requires Reachable(p) && MainFree(p) && NoneBeforeAcquire(p)
    requires p.consumer == Some(Consumer(true, 1, true, false, 0, 0))
    ensures Reachable(s) && Enabled(s, Collect) && s.calls == p.calls
  {
    hide Reachable, NoneBeforeAcquire;
    var q := Closed(p);
    s := Continue(q, Forget);
    assert s == AfterForget(q);
  }

  /** It may do so while a message is queued. */
  lemma ForgottenWhileQueued(m: Msg) returns (s: State)
    ensures Reachable(s) && Enabled(s, Collect)
    ensures s.calls == [Call(0, m, Queued)] && !Unneeded(s)
  {
    hide Reachable;
    var p := Calling(m);
    s := Forgotten(p);
    assert MayUse(s.calls[0].stage);
  }

  /** And while a message waits for its handler's promise. */
  lemma ForgottenWhilePending(m: Msg) returns (s: State)
    ensures Reachable(s) && Enabled(s, Collect)
    ensures s.calls == [Call(0, m, Pending)] && !Unneeded(s)
  {
    hide Reachable;
    var p := Waiting(m);
    s := Forgotten(p);
    assert MayUse(s.calls[0].stage);
  }
}
