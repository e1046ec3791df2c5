/** What the listener protocol guarantees in every reachable state: token conservation, one
    deletion of the listener record, keep-alive, exactly one completion per message, and
    back-pressure. */
module ListenerSafety {
  import opened Common
  import opened ThreadSafeFunction
  import opened ListenerProtocol
  import opened ListenerInvariant
  import Deferred

  /** A thread that still reads the listener record. */
  predicate NeedsRecord(pc: Pc) {
    BeforeAcquire(pc) || pc.AtCall? || pc.AtRelease?
  }

  /** Token conservation, over success, failed subscribe, a config refused after its listener was
      created, and any number of closes: nothing is over-released, the only freed thing that can
      ever be used is a Consumer collected too early (module ListenerLifetime says when that is),
      the thread count is exactly the tokens still owed, Acquire is never refused, and the record
      is deleted at most once, when nobody holds it any more. */
  lemma TokenConservation(s: State)
    requires Reachable(s)
    ensures s.fault ==> s.stale && ConsumerGone(s)
    ensures s.tsfn.count ==
              Bit(s.configListener) + Bit(s.lambda) + Bit(ListenerSet(s)) + Holders(s.threads)
    ensures Bit(s.configListener) + Bit(s.lambda) + Bit(ListenerSet(s)) <= 1
    ensures s.deletions <= 1
    ensures s.deletions == 1 ==>
              !Owned(s) && forall t :: 0 <= t < |s.threads| ==> !NeedsRecord(s.threads[t])
    ensures forall t :: 0 <= t < |s.threads| && s.threads[t].AtAcquire? ==> Acquire(s.tsfn).0 == Ok
  {
    hide Work;
    ReachableInv(s);
    forall t | 0 <= t < |s.threads|
      ensures s.deletions == 1 ==> !NeedsRecord(s.threads[t])
      ensures s.threads[t].AtAcquire? ==> Acquire(s.tsfn).0 == Ok
    {
      if s.threads[t].AtCall? || s.threads[t].AtRelease? {
        HolderCounted(s.threads, t);
      }
    }
  }

  /** Keep-alive: the consumer's listener is set exactly while one extra strong reference is held,
      so the destructor never finds it set, and any number of closes releases and unrefs once. */
  lemma KeepAlive(s: State)
    requires Reachable(s) && s.consumer.Some?
    ensures var c := s.consumer.value;
            && (c.listener <==> c.refs == 1) && c.refs <= 1
            && (c.collected ==> !c.listener)
            && (Enabled(s, Collect) ==> !c.listener)
            && c.releases == c.unrefs == Bit(s.record && !c.listener)
  {
    ReachableInv(s);
  }

  lemma OnlySetupDecides(s: State, a: Step)
    requires Core(s) && Enabled(s, a) && !Setup(a)
    ensures Next(s, a).deferred == s.deferred && Next(s, a).phase == s.phase
  {
    hide Tokens, Phases, Object, Life, Calls, Main, Histories, Sound;
    if Handling(a) {
      HandlingKeepsPhase(s, a);
    } else if Listening(a) {
      ListeningKeepsPhase(s, a);
    } else {
      TeardownKeepsPhase(s, a);
    }
  }

  lemma HandlingKeepsPhase(s: State, a: Step)
    requires Core(s) && Enabled(s, a) && Handling(a)
    ensures Next(s, a).deferred == s.deferred && Next(s, a).phase == s.phase
  {
    hide Next, Tokens, Phases, Object, Life, Calls, Main, Histories, Sound;
    HandlingFrame(s, a);
  }

  lemma ListeningKeepsPhase(s: State, a: Step)
    requires Enabled(s, a) && Listening(a)
    ensures Next(s, a).deferred == s.deferred && Next(s, a).phase == s.phase
  {
    match a
    case Enter(_, _) =>
    case GetConsumer(_) =>
    case AcquireToken(_) =>
    case QueueCall(_) =>
    case ReleaseToken(_) =>
    case Resume(_) =>
  }

  lemma TeardownKeepsPhase(s: State, a: Step)
    requires Enabled(s, a) && Teardown(a)
    ensures Next(s, a).deferred == s.deferred && Next(s, a).phase == s.phase
  {
    match a
    case CloseCall =>
    case FinishCleanup =>
    case Forget =>
    case Collect =>
    case CloseFunction =>
    case FinalizeFunction =>
  }

  lemma SetupDecides(s: State, a: Step)
    requires Phases(s) && Enabled(s, a) && Setup(a)
    ensures Next(s, a).deferred ==
              match a
              case RefuseConfig => Deferred.Chosen(Deferred.Error(""))
              case SubscribeFails => Deferred.Chosen(Deferred.Error(""))
              case SubscribeSucceeds => Deferred.Chosen(Deferred.Value(0))
              case RunDeferred => Deferred.Fulfilled(s.deferred.outcome)
              case _ => s.deferred
  {
    match a
    case Configure(_) =>
    case RefuseConfig =>
    case ThrowConfig =>
    case Subscribe =>
    case ReturnFromNewInstance =>
    case CreateConsumer =>
    case SubscribeFails =>
    case SubscribeSucceeds =>
    case RunDeferred =>
  }

  /** The promise of subscribe is used as the one-shot promise it is: every step leaves it alone,
      decides it or delivers what was decided, and it is decided to resolve only by the callback of
      a successful subscription. */
  lemma SubscribePromise(s: State, a: Step)
    requires Reachable(s) && Enabled(s, a)
    ensures Deferred.PromiseStep(s.deferred, Next(s, a).deferred)
    ensures s.deferred.Pending? && Next(s, a).deferred.Chosen? ==>
              (Next(s, a).deferred.outcome.Value? <==> a.SubscribeSucceeds?)
  {
    hide Tokens, Object, Life, Calls, Main, Histories, Next, Reachable;
    ReachableInv(s);
    if Setup(a) { SetupDecides(s, a); } else { OnlySetupDecides(s, a); }
  }

  lemma ThrownStep(s: State, a: Step)
    requires Inv(s) && s.phase.Thrown? && Enabled(s, a)
    ensures Next(s, a).phase.Thrown?
  {
    hide Work, Object, Life, Tokens, Sound;
    if Setup(a) {
      assert a.ReturnFromNewInstance?;
    } else {
      OnlySetupDecides(s, a);
    }
  }

  /** An exception out of InitConfig leaves the promise of subscribe pending in every continuation;
      the listener's token is given back all the same, and the record deleted at most once. */
  lemma {:induction false} ThrownForGood(s: State, steps: seq<Step>)
    requires Inv(s) && s.phase.Thrown? && Legal(s, steps)
    ensures var n := After(s, steps);
            && n.phase.Thrown? && n.deferred.Pending? && n.consumer.None?
            && n.tsfn.count == Bit(n.record && n.mainConfig) && n.deletions <= 1
    decreases steps
  {
    hide Next, Enabled, Hypothesis;
    if steps == [] {
      ThrownAccounts(s);
    } else {
      ThrownStep(s, steps[0]);
      StepInv(s, steps[0]);
      ThrownForGood(Next(s, steps[0]), steps[1..]);
    }
  }

  lemma ThrownAccounts(s: State)
    requires Inv(s) && s.phase.Thrown?
    ensures s.deferred.Pending? && s.consumer.None?
    ensures s.tsfn.count == Bit(s.record && s.mainConfig) && s.deletions <= 1
  {
    hide Work, Object, Sound;
    HoldersNone(s.threads);
  }

  // -------------------------------------------------- completion exactly once

  /** The events of one thread. */
  function ThreadLog(log: seq<Event>, t: nat): seq<Event> {
    if log == [] then []
    else
      var e := log[|log| - 1];
      ThreadLog(log[..|log| - 1], t) + if e.thread == t then [e] else []
  }

  /** One message, from dispatch to resumption. */
  function Block(t: nat, m: Msg): seq<Event> {
    [Dispatched(t, m), Started(t, m), Completed(t, m), Resumed(t, m)]
  }

  /** The blocks of a list of messages, in order. */
  function Blocks(t: nat, msgs: seq<Msg>): seq<Event> {
    if msgs == [] then [] else Blocks(t, msgs[..|msgs| - 1]) + Block(t, msgs[|msgs| - 1])
  }

  /** The beginning of a block, for a thread that is inside the listener. */
  function Partial(t: nat, v: View): seq<Event> {
    match v
    case Holding(m) => Block(t, m)[..1]
    case InHandler(m) => Block(t, m)[..2]
    case Done(m) => Block(t, m)[..3]
    case _ => []
  }

  lemma BrokenStays(log: seq<Event>, t: nat)
    requires log != [] && Replay(log, t) != Broken
    ensures Replay(log[..|log| - 1], t) != Broken
  {
  }

  lemma {:induction false} LogIsBlocks(log: seq<Event>, t: nat) returns (msgs: seq<Msg>)
    requires Replay(log, t) != Broken
    ensures ThreadLog(log, t) == Blocks(t, msgs) + Partial(t, Replay(log, t))
  {
    if log == [] {
      msgs := [];
    } else {
      var init, e := log[..|log| - 1], log[|log| - 1];
      BrokenStays(log, t);
      msgs := LogIsBlocks(init, t);
      var before := Replay(init, t);
      if e.thread == t {
        assert Replay(log, t) == Advance(before, e);
        if e.Resumed? {
          assert Partial(t, before) + [e] == Block(t, e.msg);
          var more := msgs + [e.msg];
          assert more[..|more| - 1] == msgs;
          assert ThreadLog(log, t) == Blocks(t, more) + [];
          msgs := more;
        } else {
          assert Partial(t, before) + [e] == Partial(t, Advance(before, e));
        }
      }
    }
  }

  /** Each listener thread handles its messages one after the other in the order they were
      dispatched, and for every one of them, however its handler ended, the handler is started
      once, the completion is signalled once, after the start and before the thread resumes.
      Proxy data and stack promise are only touched by those two events. */
  lemma MessagesInOrder(s: State, t: nat) returns (handled: seq<Msg>)
    requires Reachable(s) && t < |s.threads|
    ensures ThreadLog(s.log, t) == Blocks(t, handled) + Partial(t, ViewOf(s, t))
    ensures ViewOf(s, t) != Broken
  {
    ReachableInv(s);
    assert Replay(s.log, t) == ViewOf(s, t);
    handled := LogIsBlocks(s.log, t);
  }

  /** Completing a handler is possible exactly while its thread waits and was not signalled: the
      proxy data is alive and the stack promise unset whenever the main thread uses them. */
  lemma CompletionIsSafe(s: State, a: Step, c: nat)
    requires Reachable(s) && Enabled(s, a)
    requires || ((a.HandlerReturns? || a.HandlerThrows? || a.HandlerReturnsPromise?) && s.handler == Some(c))
             || a == RunFinally(c)
             || (a.RunProxy? && s.tsfn.queue[0] == c)
    ensures c < |s.calls|
    ensures var t := s.calls[c].thread; t < |s.threads| && InCall(s.threads[t]) && s.threads[t].call == c
    ensures !s.calls[c].stage.Signalled? && !s.calls[c].stage.Freed?
  {
    ReachableInv(s);
  }

  // ------------------------------------------------------------ back-pressure

  predicate Unfinished(st: Stage) {
    st.Running? || st.Pending? || st.Settled?
  }

  function UnfinishedCalls(s: State): set<nat> {
    set c | 0 <= c < |s.calls| && Unfinished(s.calls[c].stage)
  }

  lemma {:induction false} InjectionBound(calls: seq<Call>, cs: set<nat>, ts: set<nat>)
    requires forall c :: c in cs ==> c < |calls| && calls[c].thread in ts
    requires forall c, d :: c in cs && d in cs && calls[c].thread == calls[d].thread ==> c == d
    ensures |cs| <= |ts|
    decreases cs
  {
    if cs != {} {
      var c :| c in cs;
      InjectionBound(calls, cs - {c}, ts - {calls[c].thread});
    }
  }

  /** The thread numbers below k. */
  function Below(k: nat): (ts: set<nat>)
    ensures |ts| == k
    ensures forall t :: t in ts <==> 0 <= t < k
  {
    if k == 0 then {} else Below(k - 1) + {k - 1}
  }

  /** Unfinished handler runs, asynchronous ones included, belong to different listener threads,
      each of which is held inside MessageListener; so no more run at once than there are threads. */
  lemma BackPressure(s: State)
    requires Reachable(s)
    ensures forall c :: c in UnfinishedCalls(s) ==>
              var t := s.calls[c].thread;
              t < |s.threads| && InCall(s.threads[t]) && s.threads[t].call == c && !Enabled(s, Resume(t))
    ensures forall c, d :: c in UnfinishedCalls(s) && d in UnfinishedCalls(s) && c != d ==>
              s.calls[c].thread != s.calls[d].thread
    ensures |UnfinishedCalls(s)| <= |s.threads|
  {
    hide Tokens, Phases, Object, Life, Main, Histories, Next;
    ReachableInv(s);
    InjectionBound(s.calls, UnfinishedCalls(s), Below(|s.threads|));
  }
}
