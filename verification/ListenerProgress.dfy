/** Progress of the listener protocol: a ranking that every step of the code lowers, what a state
    without such a step looks like, and why no listener thread is blocked for good. */
module ListenerProgress {
  import opened Common
  import opened ThreadSafeFunction
  import opened ListenerProtocol
  import opened ListenerInvariant

  /** New messages, close calls and garbage collection come from outside. */
  predicate External(a: Step) {
    a.Enter? || a.CloseCall? || a.Forget? || a.Collect?
  }

  // ------------------------------------------------------------------ the rank

  function PcWeight(pc: Pc): nat {
    match pc
    case Idle => 0
    case AtFuture(_) => 11
    case AtAcquire(_) => 10
    case AtCall(_) => 9
    case AtRelease(_) => 2
    case AtWait(_) => 1
  }

  function StageWeight(st: Stage): nat {
    match st
    case Queued => 5
    case Running => 4
    case Pending => 3
    case Settled(_) => 2
    case Signalled => 1
    case Freed => 0
  }

  function ThreadsWeight(threads: seq<Pc>): nat {
    if threads == [] then 0 else PcWeight(threads[0]) + ThreadsWeight(threads[1..])
  }

  function CallsWeight(calls: seq<Call>): nat {
    if calls == [] then 0 else StageWeight(calls[0].stage) + CallsWeight(calls[1..])
  }

  function PhaseWeight(p: ListenerProtocol.Phase): nat {
    match p
    case Start => 5
    case Configured => 3
    case Subscribing => 2
    case Created => 1
    case _ => 0
  }

  function Rank(s: State): nat {
    PhaseWeight(s.phase) + Bit(s.mainConfig) + Bit(s.closing)
    + (if s.deferred.Pending? then 2 else if s.deferred.Chosen? then 1 else 0)
    + (match s.tsfn.phase case Open => 2 case ClosingDown => 1 case Finalized => 0)
    + ThreadsWeight(s.threads) + CallsWeight(s.calls)
  }

  lemma {:induction false} ThreadsWeightUpdate(threads: seq<Pc>, t: nat, pc: Pc)
    requires t < |threads|
    ensures ThreadsWeight(threads[t := pc]) + PcWeight(threads[t]) == ThreadsWeight(threads) + PcWeight(pc)
  {
    if t == 0 {
      assert threads[0 := pc][1..] == threads[1..];
    } else {
      assert threads[t := pc][1..] == threads[1..][t - 1 := pc];
      ThreadsWeightUpdate(threads[1..], t - 1, pc);
    }
  }

  lemma {:induction false} CallsWeightUpdate(calls: seq<Call>, c: nat, call: Call)
    requires c < |calls|
    ensures CallsWeight(calls[c := call]) + StageWeight(calls[c].stage)
         == CallsWeight(calls) + StageWeight(call.stage)
  {
    if c == 0 {
      assert calls[0 := call][1..] == calls[1..];
    } else {
      assert calls[c := call][1..] == calls[1..][c - 1 := call];
      CallsWeightUpdate(calls[1..], c - 1, call);
    }
  }

  lemma {:induction false} CallsWeightAppend(calls: seq<Call>, call: Call)
    ensures CallsWeight(calls + [call]) == CallsWeight(calls) + StageWeight(call.stage)
  {
    if calls == [] {
      assert calls + [call] == [call];
    } else {
      assert (calls + [call])[1..] == calls[1..] + [call];
      CallsWeightAppend(calls[1..], call);
    }
  }

  /** What the rank counts apart from threads and calls. */
  predicate SameRest(s: State, n: State) {
    && n.phase == s.phase && n.mainConfig == s.mainConfig && n.closing == s.closing
    && n.deferred == s.deferred && n.tsfn.phase == s.tsfn.phase
  }

  /** One thread moves on and nothing else that has a weight changes. */
  lemma PcRank(s: State, n: State, t: nat, pc: Pc)
    requires t < |s.threads| && n.threads == s.threads[t := pc] && PcWeight(pc) < PcWeight(s.threads[t])
    requires SameRest(s, n) && n.calls == s.calls
    ensures Rank(n) < Rank(s)
  {
    hide CallsWeight, ThreadsWeight, PcWeight;
    ThreadsWeightUpdate(s.threads, t, pc);
  }

  /** One call moves on and nothing else that has a weight changes. */
  lemma StageRank(s: State, n: State, c: nat, st: Stage)
    requires c < |s.calls| && n.calls == WithStage(s.calls, c, st)
    requires StageWeight(st) < StageWeight(s.calls[c].stage)
    requires SameRest(s, n) && n.threads == s.threads
    ensures Rank(n) < Rank(s)
  {
    hide CallsWeight, ThreadsWeight, StageWeight;
    CallsWeightUpdate(s.calls, c, s.calls[c].(stage := st));
  }

  lemma QueueCallRank(s: State, t: nat)
    requires Enabled(s, QueueCall(t))
    ensures Rank(AfterQueueCall(s, t)) < Rank(s)
  {
    hide CallsWeight, ThreadsWeight;
    ThreadsWeightUpdate(s.threads, t, Pc.AtRelease(|s.calls|));
    CallsWeightAppend(s.calls, Call(t, s.threads[t].msg, Queued));
  }

  lemma ResumeRank(s: State, t: nat)
    requires Enabled(s, Resume(t))
    ensures Rank(AfterResume(s, t)) < Rank(s)
  {
    hide CallsWeight, ThreadsWeight;
    var c := s.threads[t].call;
    ThreadsWeightUpdate(s.threads, t, Idle);
    CallsWeightUpdate(s.calls, c, s.calls[c].(stage := Freed));
  }

  lemma ListeningRank(s: State, a: Step)
    requires Enabled(s, a) && Listening(a) && !a.Enter?
    ensures Rank(Next(s, a)) < Rank(s)
  {
    hide Rank;
    match a
    case GetConsumer(t) => PcRank(s, AfterGetConsumer(s, t), t, AtAcquire(s.threads[t].msg));
    case AcquireToken(t) => PcRank(s, AfterAcquireToken(s, t), t, AfterAcquireToken(s, t).threads[t]);
    case QueueCall(t) => QueueCallRank(s, t);
    case ReleaseToken(t) => PcRank(s, AfterReleaseToken(s, t), t, AtWait(s.threads[t].call));
    case Resume(t) => ResumeRank(s, t);
  }

  lemma ProxyRank(s: State)
    requires Main(s) && Enabled(s, RunProxy)
    ensures Rank(AfterRunProxy(s)) < Rank(s)
  {
    hide Rank;
    assert HasStage(s, s.tsfn.queue[0], Queued);
    StageRank(s, AfterRunProxy(s), s.tsfn.queue[0], Running);
  }

  lemma LeaveRank(s: State, threw: bool)
    requires Main(s) && s.handler.Some?
    ensures Rank(LeaveHandler(s, threw)) < Rank(s)
  {
    hide Rank;
    StageRank(s, LeaveHandler(s, threw), s.handler.value, Signalled);
  }

  lemma PromiseRank(s: State)
    requires Main(s) && s.handler.Some?
    ensures Rank(AfterHandlerReturnsPromise(s)) < Rank(s)
  {
    hide Rank;
    StageRank(s, AfterHandlerReturnsPromise(s), s.handler.value, Pending);
  }

  lemma HandlingRank(s: State, a: Step)
    requires Main(s) && Enabled(s, a) && Handling(a)
    ensures Rank(Next(s, a)) < Rank(s)
  {
    hide Rank, Main, AfterRunProxy, LeaveHandler, AfterHandlerReturnsPromise;
    match a
    case RunProxy => ProxyRank(s);
    case HandlerReturns => LeaveRank(s, false);
    case HandlerThrows => LeaveRank(s, true);
    case HandlerReturnsPromise => PromiseRank(s);
    case SettlePromise(c, rejected) => StageRank(s, AfterSettlePromise(s, c, rejected), c, Settled(rejected));
    case RunFinally(c) => StageRank(s, AfterRunFinally(s, c), c, Signalled);
  }

  lemma SetupRank(s: State, a: Step)
    requires Accounts(s) && Enabled(s, a) && Setup(a)
    ensures Rank(Next(s, a)) < Rank(s)
  {
    hide ThreadsWeight, CallsWeight, Tokens, Object, Sound;
    match a
    case Configure(_) =>
    case RefuseConfig =>
    case ThrowConfig =>
    case Subscribe =>
    case ReturnFromNewInstance =>
    case CreateConsumer =>
    case SubscribeFails =>
    case SubscribeSucceeds =>
    case RunDeferred =>
  }

  lemma TeardownRank(s: State, a: Step)
    requires Enabled(s, a) && (a.FinishCleanup? || a.CloseFunction? || a.FinalizeFunction?)
    ensures Rank(Next(s, a)) < Rank(s)
  {
    hide ThreadsWeight, CallsWeight;
    match a
    case FinishCleanup =>
    case CloseFunction =>
    case FinalizeFunction =>
  }

  /** Every step of the code, the C++ client's callbacks and the handlers' promises lowers the rank. */
  lemma RankDecreases(s: State, a: Step)
    requires Core(s) && Enabled(s, a) && !External(a)
    ensures Rank(Next(s, a)) < Rank(s)
  {
    hide Rank, Next, Accounts, Calls, Main, Histories, Enabled;
    if Setup(a) { SetupRank(s, a); }
    else if Teardown(a) { TeardownRank(s, a); }
    else if Listening(a) { ListeningRank(s, a); }
    else { HandlingRank(s, a); }
  }

  predicate NoneExternal(steps: seq<Step>) {
    forall i :: 0 <= i < |steps| ==> !External(steps[i])
  }

  /** Between inputs from outside, the system takes at most Rank(s) steps. */
  lemma {:induction false} RunsEnd(s: State, steps: seq<Step>)
    requires Inv(s) && Legal(s, steps) && NoneExternal(steps)
    ensures |steps| + Rank(After(s, steps)) <= Rank(s)
    decreases steps
  {
    hide Rank, Core, Next;
    if steps == [] {
    } else {
      RankDecreases(s, steps[0]);
      StepInv(s, steps[0]);
      RunsEnd(Next(s, steps[0]), steps[1..]);
    }
  }

  // ------------------------------------------------------------- at the end

  /** Nothing left to do except what comes from outside or from the users' promises. */
  ghost predicate Quiet(s: State) {
    forall a :: Enabled(s, a) && Hypothesis(s, a) ==> External(a) || a.SettlePromise?
  }

  predicate WaitsForUser(s: State, t: nat)
    requires t < |s.threads|
  {
    s.threads[t].AtWait? && HasStage(s, s.threads[t].call, Pending)
  }

  lemma QuietPhase(s: State)
    requires Inv(s) && Quiet(s)
    ensures s.phase.Refused? || s.phase.Thrown? || s.phase.Failed? || s.phase.Succeeded?
    ensures (!s.mainConfig && s.handler.None?) || s.closing
  {
    assert !Enabled(s, Configure(true)) && !Enabled(s, Subscribe);
    assert !Enabled(s, CreateConsumer) && !Enabled(s, SubscribeSucceeds);
    assert !Enabled(s, ReturnFromNewInstance);
    assert !Enabled(s, HandlerReturns);
  }

  lemma QuietThreads(s: State, t: nat)
    requires Quiet(s) && t < |s.threads|
    ensures !s.threads[t].AtAcquire? && !s.threads[t].AtRelease?
    ensures s.threads[t].AtFuture? ==> s.futureSets == 0
  {
    assert !Enabled(s, AcquireToken(t)) && !Enabled(s, ReleaseToken(t)) && !Enabled(s, GetConsumer(t));
  }

  lemma QuietCleanup(s: State)
    requires Inv(s) && Quiet(s)
    ensures !s.closing
  {
    if s.closing {
      forall t | 0 <= t < |s.threads| ensures !BeforeAcquire(s.threads[t]) {
        QuietThreads(s, t);
      }
      assert Enabled(s, FinishCleanup) && Hypothesis(s, FinishCleanup);
      assert false;
    }
  }

  lemma QuietMain(s: State)
    requires Inv(s) && Quiet(s)
    ensures MainFree(s) && s.tsfn.queue == [] && !s.deferred.Chosen?
  {
    QuietPhase(s);
    QuietCleanup(s);
    assert !Enabled(s, RunDeferred);
    assert !Enabled(s, RunProxy);
    if s.tsfn.queue != [] {
      HolderFree(s);
    }
  }

  /** The queue can only hold something while the function is open. */
  lemma HolderFree(s: State)
    requires Core(s) && s.tsfn.queue != []
    ensures CanDispatch(s.tsfn)
  {
  }

  /** In a quiet state every listener thread is free or waits for a promise of the user's, and a
      listener record that no one owns any more has been deleted exactly once. */
  lemma QuietState(s: State)
    requires Inv(s) && Quiet(s)
    ensures forall t :: 0 <= t < |s.threads| ==> s.threads[t].Idle? || WaitsForUser(s, t)
    ensures s.record && !Owned(s) ==> s.deletions == 1
  {
    QuietMain(s);
    forall t | 0 <= t < |s.threads| ensures s.threads[t].Idle? || WaitsForUser(s, t) {
      QuietThread(s, t);
    }
    if s.record && !Owned(s) {
      NoHolders(s.threads);
      assert !Enabled(s, CloseFunction) && !Enabled(s, FinalizeFunction);
    }
  }

  lemma {:induction false} NoHolders(threads: seq<Pc>)
    requires forall t :: 0 <= t < |threads| ==> !threads[t].AtCall? && !threads[t].AtRelease?
    ensures Holders(threads) == 0
  {
    if threads != [] {
      NoHolders(threads[1..]);
    }
  }

  lemma QuietThread(s: State, t: nat)
    requires Inv(s) && Quiet(s) && t < |s.threads|
    ensures s.threads[t].Idle? || WaitsForUser(s, t)
  {
    QuietMain(s);
    QuietPhase(s);
    QuietThreads(s, t);
    match s.threads[t]
    case Idle =>
    case AtFuture(_) => assert false;
    case AtCall(_) =>
      assert Enabled(s, QueueCall(t));
      assert false;
    case AtWait(c) =>
      assert !Enabled(s, Resume(t)) && !Enabled(s, RunFinally(c));
      assert s.calls[c].thread == t;
    case _ =>
  }

  lemma Settleable(s: State, t: nat)
    requires t < |s.threads| && WaitsForUser(s, t)
    ensures Enabled(s, SettlePromise(s.threads[t].call, false))
  {
  }

  /** Nothing left to do except what comes from outside: no promise is unsettled either. */
  lemma AtTheEnd(s: State)
    requires Inv(s) && forall a :: Enabled(s, a) && Hypothesis(s, a) ==> External(a)
    ensures AllIdle(s)
    ensures s.record && !Owned(s) ==> s.deletions == 1
  {
    hide Inv;
    QuietState(s);
    forall t | 0 <= t < |s.threads| ensures s.threads[t].Idle? {
      if WaitsForUser(s, t) {
        Settleable(s, t);
      }
    }
  }

  /** Every dispatched message's thread resumes once the handlers settle: a run that takes no
      input from outside and cannot be extended, not even by settling a promise, has ended within
      Rank(s) steps with every listener thread back in the C++ client, and with the record deleted
      exactly once if its owner has given it up. */
  lemma EveryThreadResumes(s: State, steps: seq<Step>)
    requires Reachable(s) && Legal(s, steps) && NoneExternal(steps)
    requires forall a :: Enabled(After(s, steps), a) && Hypothesis(After(s, steps), a) ==> External(a)
    ensures |steps| <= Rank(s)
    ensures AllIdle(After(s, steps))
    ensures After(s, steps).record && !Owned(After(s, steps)) ==> After(s, steps).deletions == 1
  {
    ReachableInv(s);
    RunInv(s, steps);
    RunsEnd(s, steps);
    AtTheEnd(After(s, steps));
  }

  // -------------------------------------------------------- no listener deadlock

  predicate ThreadStep(a: Step, t: nat) {
    || a == GetConsumer(t) || a == AcquireToken(t) || a == QueueCall(t)
    || a == ReleaseToken(t) || a == Resume(t)
  }

  /** Inside MessageListener with no step of its own to take. */
  ghost predicate Blocked(s: State, t: nat) {
    && t < |s.threads| && !s.threads[t].Idle?
    && forall a :: ThreadStep(a, t) ==> !Enabled(s, a)
  }

  predicate MainStep(a: Step) {
    || a.ReturnFromNewInstance? || a.RunDeferred? || a.RunProxy? || a.HandlerReturns?
    || a.RunFinally? || a.FinishCleanup?
  }

  /** After a successful subscribe, a blocked listener thread waits for an unsettled promise of
      the user's, or the main thread has a step to take; the one that ends Cleanup is at worst
      preceded by the Acquire of threads that can take it. */
  lemma BlockedThread(s: State, t: nat)
    requires Reachable(s) && s.phase.Succeeded? && Blocked(s, t)
    ensures || WaitsForUser(s, t)
            || (exists a :: MainStep(a) && Enabled(s, a) && Hypothesis(s, a))
            || (s.closing && exists u :: 0 <= u < |s.threads| && BeforeAcquire(s.threads[u]) && !Blocked(s, u))
  {
    ReachableInv(s);
    if !MainFree(s) {
      BusyMain(s);
    } else if !WaitsForUser(s, t) {
      var a := StepForBlocked(s, t);
    }
  }

  lemma StepForBlocked(s: State, t: nat) returns (a: Step)
    requires Inv(s) && s.phase.Succeeded? && Blocked(s, t) && MainFree(s) && !WaitsForUser(s, t)
    ensures MainStep(a) && Enabled(s, a) && Hypothesis(s, a)
  {
    BlockedAt(s, t);
    if s.threads[t].AtFuture? {
      assert ThreadStep(GetConsumer(t), t);
      a := RunDeferred;
    } else if s.threads[t].AtCall? {
      assert ThreadStep(QueueCall(t), t);
      a := RunProxy;
    } else {
      var c := s.threads[t].call;
      assert ThreadStep(Resume(t), t);
      assert s.calls[c].thread == t;
      a := if s.calls[c].stage.Queued? then RunProxy else RunFinally(c);
    }
  }

  /** Acquire and Release never block. */
  lemma BlockedAt(s: State, t: nat)
    requires Blocked(s, t)
    ensures s.threads[t].AtFuture? || s.threads[t].AtCall? || s.threads[t].AtWait?
  {
    assert ThreadStep(AcquireToken(t), t) && ThreadStep(ReleaseToken(t), t);
  }

  lemma BusyMain(s: State)
    requires Inv(s) && !MainFree(s) && s.phase.Succeeded?
    ensures || (exists a :: MainStep(a) && Enabled(s, a) && Hypothesis(s, a))
            || (s.closing && exists u :: 0 <= u < |s.threads| && BeforeAcquire(s.threads[u]) && !Blocked(s, u))
  {
    if s.mainConfig {
      var a := ReturnFromNewInstance;
      assert MainStep(a) && Enabled(s, a) && Hypothesis(s, a);
    } else if s.closing {
      var a := FinishCleanup;
      if NoneBeforeAcquire(s) {
        assert MainStep(a) && Enabled(s, a) && Hypothesis(s, a);
      } else {
        var u :| 0 <= u < |s.threads| && BeforeAcquire(s.threads[u]);
        var b := if s.threads[u].AtFuture? then GetConsumer(u) else AcquireToken(u);
        assert ThreadStep(b, u) && Enabled(s, b);
      }
    } else {
      var a := HandlerReturns;
      assert MainStep(a) && Enabled(s, a) && Hypothesis(s, a);
    }
  }
}
