/** The hypothesis on Cleanup is necessary as well as sufficient: whenever the owner's token is
    released while some thread stands between entering MessageListener and its Acquire, the run
    can go on to use the listener record after it was deleted. */
module ListenerHypothesis {
  import opened Common
  import opened ThreadSafeFunction
  import opened ListenerProtocol
  import opened ListenerInvariant
  import opened ListenerProgress
  import Deferred

  /** Runs in which the environment promises nothing about the pause. */
  predicate Possible(s: State, steps: seq<Step>)
    decreases steps
  {
    steps != [] ==> Enabled(s, steps[0]) && Possible(Next(s, steps[0]), steps[1..])
  }

  function Reached(s: State, steps: seq<Step>): State
    requires Possible(s, steps)
    decreases steps
  {
    if steps == [] then s else Reached(Next(s, steps[0]), steps[1..])
  }

  lemma Extend(s: State, a: Step, rest: seq<Step>)
    requires Enabled(s, a) && Possible(Next(s, a), rest)
    ensures Possible(s, [a] + rest) && Reached(s, [a] + rest) == Reached(Next(s, a), rest)
  {
    assert ([a] + rest)[1..] == rest;
  }

  /** The owner is gone, the record is not, and thread t is still on its way to Acquire. */
  predicate Endangered(s: State, t: nat) {
    && Core(s) && s.record && !Owned(s) && s.tsfn.phase.Open? && s.futureSets > 0 && OpenConsumer(s)
    && !s.closing && !s.mainConfig
    && t < |s.threads| && BeforeAcquire(s.threads[t])
  }

  lemma StillEndangered(s: State, t: nat, a: Step)
    requires Endangered(s, t) && Enabled(s, a)
    requires a.HandlerReturns? || a.RunProxy? || a.QueueCall? || a.ReleaseToken?
    ensures Endangered(Next(s, a), t) && Rank(Next(s, a)) < Rank(s)
  {
    hide Core, Rank;
    StepCore(s, a);
    RankDecreases(s, a);
    match a
    case HandlerReturns =>
    case RunProxy =>
    case QueueCall(u) => assert u != t;
    case ReleaseToken(u) => assert u != t;
  }

  /** The next step towards an unused thread-safe function that leaves thread t alone. */
  lemma DrainStep(s: State, t: nat) returns (a: Option<Step>)
    requires Endangered(s, t)
    ensures a.Some? ==> Enabled(s, a.value) && Endangered(Next(s, a.value), t)
                        && Rank(Next(s, a.value)) < Rank(s)
    ensures a.None? ==> MainFree(s) && CanClose(s.tsfn)
  {
    hide Phases, Object, Calls, Main, Histories, Next;
    a := None;
    if s.handler.Some? {
      a := Some(HandlerReturns);
    } else if s.tsfn.queue != [] {
      a := Some(RunProxy);
    } else if u :| 0 <= u < |s.threads| && s.threads[u].AtCall? {
      a := Some(QueueCall(u));
    } else if u :| 0 <= u < |s.threads| && s.threads[u].AtRelease? {
      a := Some(ReleaseToken(u));
    } else {
      NoHolders(s.threads);
    }
    if a.Some? {
      StillEndangered(s, t, a.value);
    }
  }

  lemma UseAfterDelete(s: State, t: nat) returns (rest: seq<Step>)
    requires Endangered(s, t) && MainFree(s) && CanClose(s.tsfn)
    ensures Possible(s, rest) && Reached(s, rest).fault && !Reached(s, rest).stale
  {
    hide Tokens, Phases, Object, Life, Calls, Main, Histories;
    var s1 := Next(s, CloseFunction);
    var s2 := Next(s1, FinalizeFunction);
    var a := if s.threads[t].AtFuture? then GetConsumer(t) else AcquireToken(t);
    assert s2.threads == s.threads && s2.deletions > 0;
    assert Enabled(s2, a) && Next(s2, a).fault;
    assert Reached(Next(s2, a), []) == Next(s2, a);
    Extend(s2, a, []);
    Extend(s1, FinalizeFunction, [a] + []);
    Extend(s, CloseFunction, [FinalizeFunction] + ([a] + []));
    rest := [CloseFunction] + ([FinalizeFunction] + ([a] + []));
  }

  lemma Drain(s: State, t: nat) returns (rest: seq<Step>)
    requires Endangered(s, t)
    ensures Possible(s, rest) && Reached(s, rest).fault && !Reached(s, rest).stale
    decreases Rank(s)
  {
    var a := DrainStep(s, t);
    if a.None? {
      rest := UseAfterDelete(s, t);
    } else {
      var more := Drain(Next(s, a.value), t);
      Extend(s, a.value, more);
      rest := [a.value] + more;
    }
  }

  /** Together with TokenConservation: releasing the owner's token in Cleanup keeps the record safe
      in every continuation if and only if no thread stands before its Acquire. */
  lemma PauseHypothesisIsNeeded(s: State) returns (rest: seq<Step>)
    requires Reachable(s) && Enabled(s, FinishCleanup) && !NoneBeforeAcquire(s)
    ensures Possible(Next(s, FinishCleanup), rest)
    ensures Reached(Next(s, FinishCleanup), rest).fault && !Reached(Next(s, FinishCleanup), rest).stale
  {
    ReachableInv(s);
    var t :| 0 <= t < |s.threads| && BeforeAcquire(s.threads[t]);
    var n := Next(s, FinishCleanup);
    StepCore(s, FinishCleanup);
    assert Endangered(n, t);
    rest := Drain(n, t);
  }

  // ------------------------------------------------- the situation is reachable

  lemma {:induction false} AppendStep(s: State, steps: seq<Step>, a: Step)
    requires Legal(s, steps)
    requires Enabled(After(s, steps), a) && Hypothesis(After(s, steps), a)
    ensures Legal(s, steps + [a]) && After(s, steps + [a]) == Next(After(s, steps), a)
    decreases steps
  {
    if steps == [] {
      assert steps + [a] == [a] && [a][1..] == [];
    } else {
      assert (steps + [a])[1..] == steps[1..] + [a];
      AppendStep(Next(s, steps[0]), steps[1..], a);
    }
  }

  lemma Continue(s: State, a: Step) returns (n: State)
    requires Reachable(s) && Enabled(s, a) && Hypothesis(s, a)
    ensures Reachable(n) && n == Next(s, a)
  {
    hide Next;
    n := Next(s, a);
    var k: nat, steps: seq<Step> :| Legal(Init(k), steps) && After(Init(k), steps) == s;
    AppendStep(Init(k), steps, a);
  }

  lemma SubscribePending() returns (s: State)
    ensures Reachable(s) && s.record && s.phase.Succeeded? && s.lambda && MainFree(s) && s.calls == []
    ensures s.consumer.None? && s.deferred == Deferred.Chosen(Deferred.Value(0))
    ensures s.threads == [Idle] && s.otherConfig && !s.paused && s.futureSets == 0
    ensures !s.configListener && s.tsfn == Create(1, 1)
  {
    hide Reachable;
    var s0 := Init(1);
    assert Reachable(s0) by { InitReachable(1); }
    assert s0.threads == [Idle];
    var s1 := Continue(s0, Configure(true));
    assert s1 == AfterConfigure(s0, true);
    var s2 := Continue(s1, Subscribe);
    assert s2 == AfterSubscribe(s1);
    var s3 := Continue(s2, ReturnFromNewInstance);
    assert s3 == DropConfig(s2, true);
    var s4 := Continue(s3, CreateConsumer);
    assert s4 == AfterCreateConsumer(s3);
    s := Continue(s4, SubscribeSucceeds);
    assert s == AfterSubscribeSucceeds(s4);
  }

  lemma InitReachable(k: nat)
    ensures Reachable(Init(k))
  {
    assert Legal(Init(k), []) && After(Init(k), []) == Init(k);
  }

  /** A configuration with a listener that InitConfig leaves with an exception. */
  lemma ConfigThrown() returns (s: State)
    ensures Reachable(s) && s.phase.Thrown? && s.record && s.configListener && s.tsfn == Create(1, 1)
  {
    hide Reachable;
    InitReachable(0);
    var p := Continue(Init(0), Configure(true));
    assert p == AfterConfigure(Init(0), true);
    s := Continue(p, ThrowConfig);
    assert s == AfterThrowConfig(p);
  }

  lemma Subscribed() returns (s: State)
    ensures Reachable(s) && s.record && s.phase.Succeeded? && MainFree(s) && s.calls == []
    ensures s.consumer == Some(Consumer(true, 1, true, false, 0, 0))
    ensures s.threads == [Idle] && !s.paused && s.futureSets == 1 && s.tsfn == Create(1, 1)
  {
    hide Reachable;
    var p := SubscribePending();
    s := Continue(p, RunDeferred);
    assert s == AfterRunDeferred(p);
  }

  lemma Dispatching(m: Msg) returns (s: State)
    ensures Reachable(s) && MainFree(s) && s.calls == [] && s.tsfn == Create(1, 1)
    ensures s.consumer == Some(Consumer(true, 1, true, false, 0, 0))
    ensures s.threads == [AtAcquire(m)]
  {
    hide Reachable;
    var p := Subscribed();
    var q := Continue(p, Enter(0, m));
    assert q == AfterEnter(p, 0, m);
    s := Continue(q, GetConsumer(0));
    assert s == AfterGetConsumer(q, 0);
  }

  /** A message is dispatched while the application closes its consumer. */
  lemma CloseMeetsDispatch(m: Msg) returns (s: State)
    ensures Reachable(s) && Enabled(s, FinishCleanup)
    ensures s.threads == [AtAcquire(m)]
  {
    hide Reachable;
    var p := Dispatching(m);
    s := Continue(p, CloseCall);
    assert s == AfterCloseCall(p);
  }
}
