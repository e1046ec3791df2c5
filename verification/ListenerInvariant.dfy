/** The inductive invariant of the listener protocol: who owns the token of the thread-safe
    function, when the listener record is alive, how calls and threads belong together, and what
    each thread's own history looks like. */
module ListenerInvariant {
  import opened Common
  import opened ThreadSafeFunction
  import opened ListenerProtocol

  // ----------------------------------------------- the history of one thread

  /** What a listener thread may do, one message after the other: receive a message, have its
      handler started, have it completed, resume. Everything else is Broken. */
  datatype View = Ready | Holding(msg: Msg) | InHandler(msg: Msg) | Done(msg: Msg) | Broken

  function Advance(v: View, e: Event): View {
    match e
    case Dispatched(_, m) => if v == Ready then Holding(m) else Broken
    case Started(_, m) => if v == Holding(m) then InHandler(m) else Broken
    case Completed(_, m) => if v == InHandler(m) then Done(m) else Broken
    case Resumed(_, m) => if v == Done(m) then Ready else Broken
    case Dropped(_, m) => Broken
  }

  /** The history of thread t in the log, judged by the sequential loop above. */
  function Replay(log: seq<Event>, t: nat): View {
    if log == [] then Ready
    else
      var e := log[|log| - 1];
      var v := Replay(log[..|log| - 1], t);
      if e.thread == t then Advance(v, e) else v
  }

  lemma ReplayAppend(log: seq<Event>, e: Event, t: nat)
    ensures Replay(log + [e], t) == if e.thread == t then Advance(Replay(log, t), e) else Replay(log, t)
  {
    assert (log + [e])[..|log|] == log;
  }

  /** What the state says about thread t. */
  function ViewOf(s: State, t: nat): View
    requires t < |s.threads|
  {
    match s.threads[t]
    case Idle => Ready
    case AtFuture(m) => Holding(m)
    case AtAcquire(m) => Holding(m)
    case AtCall(m) => Holding(m)
    case AtRelease(c) => CallView(s.calls, c)
    case AtWait(c) => CallView(s.calls, c)
  }

  function CallView(calls: seq<Call>, c: nat): View {
    if c >= |calls| then Broken
    else match calls[c].stage
      case Queued => Holding(calls[c].msg)
      case Signalled => Done(calls[c].msg)
      case Freed => Broken
      case _ => InHandler(calls[c].msg)
  }

  // ------------------------------------------------------------- the pieces

  predicate ListenerSet(s: State) {
    s.consumer.Some? && s.consumer.value.listener
  }

  /** The token is counted once for each party that still has to give it back. */
  predicate Tokens(s: State) {
    s.tsfn.count ==
      Bit(s.configListener) + Bit(s.lambda) + Bit(ListenerSet(s)) + Holders(s.threads)
  }

  /** Which party holds what in each phase of the subscription. */
  predicate Phases(s: State) {
    && (s.phase.Start? ==> !s.record && !s.mainConfig && !s.configListener)
    && (s.phase.Configured? ==> s.mainConfig)
    && (s.otherConfig <==>
          s.phase.Subscribing? || s.phase.Created? || (s.phase.Succeeded? && s.deferred.Chosen?))
    && (s.phase.Configured? || s.phase.Subscribing? || s.phase.Created? ==>
          s.configListener == s.record)
    && (s.phase.Refused? || s.phase.Thrown? || s.phase.Failed? ==>
          s.configListener == (s.record && s.mainConfig))
    && (s.phase.Succeeded? ==> !s.configListener)
    && (s.lambda <==> s.record && s.phase.Succeeded? && s.deferred.Chosen?)
    && (s.deferred.Pending? <==>
          s.phase.Start? || s.phase.Configured? || s.phase.Thrown? || s.phase.Subscribing? || s.phase.Created?)
    && (!s.deferred.Pending? ==> (s.deferred.outcome.Value? <==> s.phase.Succeeded?))
    && (s.consumer.Some? <==> s.phase.Succeeded? && s.deferred.Fulfilled?)
    && (s.deferred.Fulfilled? ==> !s.mainConfig)
    && s.futureSets == Bit(s.record && s.consumer.Some?)
  }

  /** Consumer::listener, the extra reference and the pause. */
  predicate Object(s: State) {
    && (s.consumer.Some? ==>
          var c := s.consumer.value;
          && c.refs == Bit(c.listener)
          && c.releases == c.unrefs == Bit(s.record && !c.listener)
          && (c.listener ==> s.record && !c.collected)
          && (s.paused <==> s.record && (s.closing || !c.listener))
          && (s.closing ==> c.listener))
    && (s.consumer.None? ==> !s.paused && !s.closing)
  }

  predicate AllIdle(s: State) {
    forall t :: 0 <= t < |s.threads| ==> s.threads[t].Idle?
  }

  predicate Owned(s: State) {
    s.configListener || s.lambda || ListenerSet(s)
  }

  /** The record is deleted once, by the finalizer, and no thread needs it then. */
  predicate Life(s: State) {
    && s.tsfn.bound == 1
    && (!s.record ==> s.tsfn.phase.Open? && s.tsfn.queue == [])
    && s.deletions == Bit(s.tsfn.phase.Finalized?)
    && (!s.tsfn.phase.Open? ==> s.tsfn.count == 0 && s.tsfn.queue == [])
    && (!s.record || !(s.phase.Created? || s.phase.Succeeded?) ==> AllIdle(s) && s.calls == [])
  }

  predicate InCall(pc: Pc) {
    pc.AtRelease? || pc.AtWait?
  }

  /** Every call that is not freed belongs to exactly the thread that waits for it. */
  predicate Calls(s: State) {
    && (forall t :: 0 <= t < |s.threads| && InCall(s.threads[t]) ==>
          var c := s.threads[t].call;
          c < |s.calls| && s.calls[c].thread == t && !s.calls[c].stage.Freed?)
    && (forall c :: 0 <= c < |s.calls| && !s.calls[c].stage.Freed? ==>
          var t := s.calls[c].thread;
          t < |s.threads| && InCall(s.threads[t]) && s.threads[t].call == c)
  }

  /** The queue holds exactly the queued calls, once each; the handler slot the running one. */
  predicate Main(s: State) {
    && (forall i :: 0 <= i < |s.tsfn.queue| ==> HasStage(s, s.tsfn.queue[i], Queued))
    && (forall i, j :: 0 <= i < j < |s.tsfn.queue| ==> s.tsfn.queue[i] != s.tsfn.queue[j])
    && (forall c :: 0 <= c < |s.calls| && s.calls[c].stage.Queued? ==> c in s.tsfn.queue)
    && (forall c :: 0 <= c < |s.calls| && s.calls[c].stage.Running? ==> s.handler == Some(c))
    && (s.handler.Some? ==> !s.mainConfig && HasStage(s, s.handler.value, Running))
  }

  predicate Histories(s: State) {
    forall t {:trigger s.threads[t]} :: 0 <= t < |s.threads| ==> Replay(s.log, t) == ViewOf(s, t)
  }

  /** Once the owner's token is given back, no thread is on its way to Acquire. */
  predicate Guarded(s: State) {
    !Owned(s) ==> NoneBeforeAcquire(s)
  }

  /** The only fault there is: a collected Consumer was used. */
  predicate Sound(s: State) {
    (s.fault ==> s.stale) && (s.stale ==> ConsumerGone(s))
  }

  /** Who holds and owes what. */
  predicate Accounts(s: State) {
    Sound(s) && Tokens(s) && Phases(s) && Object(s) && Life(s)
  }

  /** What the threads and the main thread are working on. */
  predicate Work(s: State) {
    Calls(s) && Main(s) && Histories(s)
  }

  predicate Core(s: State) {
    Accounts(s) && Work(s)
  }

  predicate Inv(s: State) {
    Core(s) && Guarded(s)
  }

  // ---------------------------------------------------- counting token holders

  lemma {:induction false} HoldersUpdate(threads: seq<Pc>, t: nat, pc: Pc)
    requires t < |threads|
    ensures Holders(threads[t := pc]) + Bit(threads[t].AtCall? || threads[t].AtRelease?)
         == Holders(threads) + Bit(pc.AtCall? || pc.AtRelease?)
  {
    if t == 0 {
      assert threads[0 := pc][1..] == threads[1..];
    } else {
      assert threads[t := pc][1..] == threads[1..][t - 1 := pc];
      HoldersUpdate(threads[1..], t - 1, pc);
    }
  }

  lemma {:induction false} HoldersNone(threads: seq<Pc>)
    requires forall t :: 0 <= t < |threads| ==> threads[t].Idle?
    ensures Holders(threads) == 0
  {
    if threads != [] {
      HoldersNone(threads[1..]);
    }
  }

  lemma {:induction false} HolderCounted(threads: seq<Pc>, t: nat)
    requires t < |threads| && (threads[t].AtCall? || threads[t].AtRelease?)
    ensures Holders(threads) > 0
  {
    if t > 0 {
      HolderCounted(threads[1..], t - 1);
    }
  }

  // ------------------------------------------------------------ preservation

  lemma InitInv(k: nat)
    ensures Inv(Init(k))
  {
    var s := Init(k);
    assert forall t :: 0 <= t < |s.threads| ==> s.threads[t].Idle?;
    HoldersNone(s.threads);
    forall t | 0 <= t < |s.threads| ensures Replay(s.log, t) == ViewOf(s, t) {
      assert s.threads[t].Idle?;
    }
  }

  /** Threads, calls, queue, handler and log are untouched. */
  predicate SameWork(s: State, n: State) {
    && n.threads == s.threads && n.calls == s.calls && n.log == s.log
    && n.tsfn.queue == s.tsfn.queue && n.handler == s.handler
    && (n.handler.Some? ==> !n.mainConfig)
  }

  lemma SameHistories(s: State, n: State)
    requires Histories(s) && n.threads == s.threads && n.calls == s.calls && n.log == s.log
    ensures Histories(n)
  {
    hide Replay, CallView;
    forall t | 0 <= t < |n.threads| ensures Replay(n.log, t) == ViewOf(n, t) {
      assert Replay(s.log, t) == ViewOf(s, t);
    }
  }

  lemma WorkKept(s: State, n: State)
    requires Work(s) && SameWork(s, n)
    ensures Work(n)
  {
    hide Histories;
    SameHistories(s, n);
  }

  // NewInstance, the subscribe callback and the deferred's finalizer

  lemma ConfigureAccounts(s: State, withListener: bool)
    requires Core(s) && Enabled(s, Configure(withListener))
    ensures Accounts(AfterConfigure(s, withListener)) && SameWork(s, AfterConfigure(s, withListener))
  {
    hide Calls, Histories;
    HoldersNone(s.threads);
  }

  /** The steps that only move the subscription on. */
  lemma PhaseAccounts(s: State, a: Step)
    requires Core(s) && Enabled(s, a)
    requires a.RefuseConfig? || a.ThrowConfig? || a.Subscribe? || a.CreateConsumer? || a.SubscribeSucceeds?
    ensures Accounts(Next(s, a)) && SameWork(s, Next(s, a))
  {
    hide Calls, Histories;
    match a
    case RefuseConfig =>
    case ThrowConfig =>
    case Subscribe =>
    case CreateConsumer =>
    case SubscribeSucceeds =>
  }

  lemma ReturnAccounts(s: State)
    requires Core(s) && Enabled(s, ReturnFromNewInstance)
    ensures Accounts(DropConfig(s, true)) && SameWork(s, DropConfig(s, true))
  {
    hide Calls, Histories;
  }

  lemma SubscribeFailsAccounts(s: State)
    requires Core(s) && Enabled(s, SubscribeFails)
    ensures Accounts(AfterSubscribeFails(s)) && SameWork(s, AfterSubscribeFails(s))
  {
    hide Calls, Histories;
  }

  lemma RunDeferredAccounts(s: State)
    requires Core(s) && Enabled(s, RunDeferred)
    ensures Accounts(AfterRunDeferred(s)) && SameWork(s, AfterRunDeferred(s))
  {
    hide Calls, Histories;
    if s.deferred.outcome.Value? {
      assert !s.configListener && !s.mainConfig && s.consumer.None?;
    }
  }

  lemma SetupAccounts(s: State, a: Step)
    requires Core(s) && Enabled(s, a) && Setup(a)
    ensures Accounts(Next(s, a)) && SameWork(s, Next(s, a))
  {
    hide Accounts, Work, SameWork, AfterConfigure, AfterRefuseConfig, AfterThrowConfig, AfterSubscribe;
    hide DropConfig, AfterCreateConsumer, AfterSubscribeFails, AfterSubscribeSucceeds, AfterRunDeferred;
    match a
    case Configure(withListener) => ConfigureAccounts(s, withListener);
    case ReturnFromNewInstance => ReturnAccounts(s);
    case SubscribeFails => SubscribeFailsAccounts(s);
    case RunDeferred => RunDeferredAccounts(s);
    case _ => PhaseAccounts(s, a);
  }

  lemma SetupCore(s: State, a: Step)
    requires Core(s) && Enabled(s, a) && Setup(a)
    ensures Core(Next(s, a))
  {
    hide Accounts, Work, SameWork, Next;
    SetupAccounts(s, a);
    WorkKept(s, Next(s, a));
  }

  // a listener thread

  /** Nothing about the subscription and the closing has changed. */
  predicate SameSetup(s: State, n: State) {
    && n.phase == s.phase && n.record == s.record && n.deletions == s.deletions
    && n.futureSets == s.futureSets && n.mainConfig == s.mainConfig && n.otherConfig == s.otherConfig
    && n.configListener == s.configListener && n.lambda == s.lambda && n.deferred == s.deferred
    && n.paused == s.paused && n.closing == s.closing
  }

  predicate HoldsToken(pc: Pc) {
    pc.AtCall? || pc.AtRelease?
  }

  /** A listener thread moves on and the token count follows. */
  lemma ThreadAccounts(s: State, n: State, t: nat, pc: Pc)
    requires Accounts(s) && SameSetup(s, n) && n.consumer == s.consumer && n.fault == s.fault && n.stale == s.stale
    requires t < |s.threads| && n.threads == s.threads[t := pc]
    requires n.tsfn.bound == s.tsfn.bound && n.tsfn.phase == s.tsfn.phase
    requires n.tsfn.count + Bit(HoldsToken(s.threads[t])) == s.tsfn.count + Bit(HoldsToken(pc))
    requires !s.tsfn.phase.Open? ==> n.tsfn.count == s.tsfn.count && n.tsfn.queue == s.tsfn.queue
    requires s.record && (s.phase.Created? || s.phase.Succeeded?)
    ensures Accounts(n)
  {
    HoldersUpdate(s.threads, t, pc);
  }

  /** A thread inside the listener is there for a consumer with a listener. */
  lemma Listens(s: State, t: nat)
    requires Life(s) && t < |s.threads| && !s.threads[t].Idle?
    ensures s.record && (s.phase.Created? || s.phase.Succeeded?)
  {
  }

  lemma HolderOpens(s: State, t: nat)
    requires Accounts(s) && t < |s.threads| && HoldsToken(s.threads[t])
    ensures s.tsfn.count > 0 && s.tsfn.phase.Open? && s.deletions == 0
  {
    hide Phases, Object;
    HolderCounted(s.threads, t);
  }

  /** A thread without a call moves on: nothing about the calls changes. */
  lemma PcCalls(s: State, n: State, t: nat, pc: Pc)
    requires Calls(s) && Main(s) && t < |s.threads|
    requires n.threads == s.threads[t := pc] && n.calls == s.calls
    requires n.tsfn.queue == s.tsfn.queue && n.handler == s.handler && n.mainConfig == s.mainConfig
    requires !InCall(s.threads[t]) && !InCall(pc)
    ensures Calls(n) && Main(n)
  {
  }

  /** `e` is what the log gains, if anything. */
  lemma PcHistories(s: State, n: State, t: nat, pc: Pc, e: Option<Event>)
    requires Histories(s) && t < |s.threads|
    requires n.threads == s.threads[t := pc] && n.calls == s.calls
    requires n.log == match e case None => s.log case Some(x) => s.log + [x]
    requires match e case None => ViewOf(s, t) == ViewOf(n, t)
                     case Some(x) => x.thread == t && Advance(ViewOf(s, t), x) == ViewOf(n, t)
    ensures Histories(n)
  {
    hide Replay, Advance, CallView;
    forall u | 0 <= u < |n.threads| ensures Replay(n.log, u) == ViewOf(n, u) {
      if e.Some? { ReplayAppend(s.log, e.value, u); }
      assert u != t ==> n.threads[u] == s.threads[u];
      assert Replay(s.log, u) == ViewOf(s, u);
    }
  }

  lemma EnterCore(s: State, t: nat, m: Msg)
    requires Core(s) && Enabled(s, Enter(t, m))
    ensures Core(AfterEnter(s, t, m))
  {
    hide Tokens, Phases, Object, Life, Calls, Main, Histories, Replay, Sound;
    var n := AfterEnter(s, t, m);
    ThreadAccounts(s, n, t, AtFuture(m));
    PcCalls(s, n, t, AtFuture(m));
    PcHistories(s, n, t, AtFuture(m), Some(Dispatched(t, m)));
  }

  /** With an owner's token the function is open and the record alive. */
  lemma OwnedIsOpen(s: State)
    requires Accounts(s) && Owned(s)
    ensures s.tsfn.phase.Open? && s.deletions == 0
  {
    hide Phases, Object;
  }

  /** A thread before its Acquire finds an owner. */
  lemma Protected(s: State, t: nat)
    requires Inv(s) && t < |s.threads| && BeforeAcquire(s.threads[t])
    ensures s.tsfn.phase.Open? && !Gone(s)
  {
    hide Work, Tokens, Phases, Object, Sound;
    OwnedIsOpen(s);
    Listens(s, t);
  }

  lemma GetConsumerCore(s: State, t: nat)
    requires Inv(s) && Enabled(s, GetConsumer(t))
    ensures Core(AfterGetConsumer(s, t))
  {
    hide Tokens, Phases, Object, Life, Calls, Main, Histories, Replay, Sound;
    var n, pc := AfterGetConsumer(s, t), AtAcquire(s.threads[t].msg);
    Protected(s, t);
    Listens(s, t);
    ThreadAccounts(s, n, t, pc);
    PcCalls(s, n, t, pc);
    PcHistories(s, n, t, pc, None);
  }

  lemma AcquireTokenCore(s: State, t: nat)
    requires Inv(s) && Enabled(s, AcquireToken(t))
    ensures Core(AfterAcquireToken(s, t))
  {
    hide Tokens, Phases, Object, Life, Calls, Main, Histories, Replay, Sound;
    var n, pc := AfterAcquireToken(s, t), AtCall(s.threads[t].msg);
    Protected(s, t);
    Listens(s, t);
    ThreadAccounts(s, n, t, pc);
    PcCalls(s, n, t, pc);
    PcHistories(s, n, t, pc, None);
  }

  lemma QueueCallCalls(s: State, n: State, t: nat, m: Msg)
    requires Calls(s) && t < |s.threads| && !InCall(s.threads[t])
    requires n.calls == s.calls + [Call(t, m, Queued)]
    requires n.threads == s.threads[t := Pc.AtRelease(|s.calls|)]
    ensures Calls(n)
  {
    var c := |s.calls|;
    assert n.calls[c] == Call(t, m, Queued) && n.threads[t] == Pc.AtRelease(c);
    assert forall d :: 0 <= d < c ==> n.calls[d] == s.calls[d];
    assert forall u :: 0 <= u < |n.threads| && u != t ==> n.threads[u] == s.threads[u];
  }

  lemma QueueCallMain(s: State, n: State, call: Call)
    requires Main(s) && call.stage.Queued? && n.calls == s.calls + [call]
    requires n.tsfn.queue == s.tsfn.queue + [|s.calls|]
    requires n.handler == s.handler && n.mainConfig == s.mainConfig
    ensures Main(n)
  {
    var c := |s.calls|;
    assert forall d :: 0 <= d < c ==> n.calls[d] == s.calls[d];
    forall i | 0 <= i < |n.tsfn.queue| ensures HasStage(n, n.tsfn.queue[i], Queued) {
      assert i < |s.tsfn.queue| ==> HasStage(s, s.tsfn.queue[i], Queued);
    }
    forall i, j | 0 <= i < j < |n.tsfn.queue| ensures n.tsfn.queue[i] != n.tsfn.queue[j] {
      assert HasStage(s, s.tsfn.queue[i], Queued);
    }
    assert n.tsfn.queue[|s.tsfn.queue|] == c;
    forall d | 0 <= d < |n.calls| && n.calls[d].stage.Queued? ensures d in n.tsfn.queue {
      assert d < c ==> d in s.tsfn.queue;
    }
  }

  lemma QueueCallHistories(s: State, n: State, t: nat, m: Msg)
    requires Calls(s) && Histories(s) && t < |s.threads| && s.threads[t] == AtCall(m)
    requires n.calls == s.calls + [Call(t, m, Queued)] && n.log == s.log
    requires n.threads == s.threads[t := Pc.AtRelease(|s.calls|)]
    ensures Histories(n)
  {
    hide Replay;
    assert forall d :: 0 <= d < |s.calls| ==> n.calls[d] == s.calls[d];
    forall u | 0 <= u < |n.threads| ensures Replay(n.log, u) == ViewOf(n, u) {
      assert u != t ==> n.threads[u] == s.threads[u];
      assert Replay(s.log, u) == ViewOf(s, u);
    }
  }

  lemma QueueCallCore(s: State, t: nat)
    requires Core(s) && Enabled(s, QueueCall(t))
    ensures Core(AfterQueueCall(s, t))
  {
    hide Tokens, Phases, Object, Calls, Main, Histories, Replay, Sound;
    var n, m := AfterQueueCall(s, t), s.threads[t].msg;
    HolderOpens(s, t);
    Listens(s, t);
    ThreadAccounts(s, n, t, Pc.AtRelease(|s.calls|));
    QueueCallCalls(s, n, t, m);
    QueueCallMain(s, n, Call(t, m, Queued));
    QueueCallHistories(s, n, t, m);
  }

  /** From its Release on, a thread waits for the call it queued. */
  lemma ReleaseTokenCalls(s: State, n: State, t: nat)
    requires Calls(s) && Main(s) && t < |s.threads| && s.threads[t].AtRelease?
    requires n.threads == s.threads[t := AtWait(s.threads[t].call)] && n.calls == s.calls
    requires n.tsfn.queue == s.tsfn.queue && n.handler == s.handler && n.mainConfig == s.mainConfig
    ensures Calls(n) && Main(n)
  {
    assert forall u :: 0 <= u < |n.threads| && u != t ==> n.threads[u] == s.threads[u];
  }

  lemma ReleaseTokenCore(s: State, t: nat)
    requires Core(s) && Enabled(s, ReleaseToken(t))
    ensures Core(AfterReleaseToken(s, t))
  {
    hide Tokens, Phases, Object, Life, Calls, Main, Histories, Replay, Sound;
    var n, pc := AfterReleaseToken(s, t), AtWait(s.threads[t].call);
    HolderOpens(s, t);
    Listens(s, t);
    ThreadAccounts(s, n, t, pc);
    ReleaseTokenCalls(s, n, t);
    PcHistories(s, n, t, pc, None);
  }

  lemma ResumeCalls(s: State, n: State, t: nat, c: nat)
    requires Calls(s) && t < |s.threads| && s.threads[t] == AtWait(c) && c < |s.calls|
    requires n.calls == WithStage(s.calls, c, Freed) && n.threads == s.threads[t := Idle]
    ensures Calls(n)
  {
    assert forall d :: 0 <= d < |s.calls| && d != c ==> n.calls[d] == s.calls[d];
    assert forall u :: 0 <= u < |n.threads| && u != t ==> n.threads[u] == s.threads[u];
  }

  /** A call that is neither queued nor running moves on. */
  lemma StageMain(s: State, n: State, c: nat, st: Stage)
    requires Main(s) && c < |s.calls| && n.calls == WithStage(s.calls, c, st)
    requires !s.calls[c].stage.Queued? && !s.calls[c].stage.Running? && !st.Queued? && !st.Running?
    requires n.tsfn.queue == s.tsfn.queue && n.handler == s.handler && n.mainConfig == s.mainConfig
    ensures Main(n)
  {
    assert forall d :: 0 <= d < |s.calls| && d != c ==> n.calls[d] == s.calls[d];
    forall i | 0 <= i < |n.tsfn.queue| ensures HasStage(n, n.tsfn.queue[i], Queued) {
      assert HasStage(s, s.tsfn.queue[i], Queued);
    }
  }

  lemma ResumeHistories(s: State, n: State, t: nat, c: nat)
    requires Calls(s) && Histories(s) && t < |s.threads| && s.threads[t] == AtWait(c) && HasStage(s, c, Signalled)
    requires n.calls == WithStage(s.calls, c, Freed) && n.threads == s.threads[t := Idle]
    requires n.log == s.log + [Resumed(t, s.calls[c].msg)]
    ensures Histories(n)
  {
    hide Replay;
    assert forall d :: 0 <= d < |s.calls| && d != c ==> n.calls[d] == s.calls[d];
    forall u | 0 <= u < |n.threads| ensures Replay(n.log, u) == ViewOf(n, u) {
      ReplayAppend(s.log, Resumed(t, s.calls[c].msg), u);
      assert u != t ==> n.threads[u] == s.threads[u];
      assert Replay(s.log, u) == ViewOf(s, u);
    }
  }

  lemma ResumeCore(s: State, t: nat)
    requires Core(s) && Enabled(s, Resume(t))
    ensures Core(AfterResume(s, t))
  {
    hide Tokens, Phases, Object, Life, Calls, Main, Histories, Replay, Sound;
    var n, c := AfterResume(s, t), s.threads[t].call;
    Listens(s, t);
    ThreadAccounts(s, n, t, Idle);
    ResumeCalls(s, n, t, c);
    StageMain(s, n, c, Freed);
    ResumeHistories(s, n, t, c);
  }

  // the proxy, the handler and its promise

  /** Only what JavaScript still reaches may have changed about the objects. */
  predicate SameOwner(s: State, n: State) {
    && SameSetup(s, n)
    && (n.consumer.Some? <==> s.consumer.Some?)
    && (s.consumer.Some? ==>
          n.consumer.value == s.consumer.value.(reachable := n.consumer.value.reachable))
  }

  /** A call moves on and the accounts stay; a fault is a use of a collected consumer. */
  lemma HandlingAccounts(s: State, n: State)
    requires Accounts(s) && SameOwner(s, n) && Sound(n) && s.calls != []
    requires n.threads == s.threads && |n.calls| == |s.calls|
    requires n.tsfn == s.tsfn.(queue := n.tsfn.queue)
    requires !s.tsfn.phase.Open? ==> n.tsfn.queue == s.tsfn.queue
    ensures Accounts(n)
  {
  }

  lemma StageCalls(s: State, n: State, c: nat, st: Stage)
    requires Calls(s) && c < |s.calls| && n.threads == s.threads && n.calls == WithStage(s.calls, c, st)
    requires !s.calls[c].stage.Freed? && !st.Freed?
    ensures Calls(n)
  {
    assert forall d :: 0 <= d < |s.calls| && d != c ==> n.calls[d] == s.calls[d];
  }

  /** A call moves on; `e` is what the log gains, if anything. */
  lemma StageHistories(s: State, n: State, c: nat, st: Stage, e: Option<Event>)
    requires Histories(s) && Calls(s) && c < |s.calls|
    requires n.threads == s.threads && n.calls == WithStage(s.calls, c, st)
    requires n.log == match e case None => s.log case Some(x) => s.log + [x]
    requires !s.calls[c].stage.Freed?
    requires
      var before := CallView(s.calls, c);
      var after := CallView(n.calls, c);
      match e case None => before == after
              case Some(x) => x.thread == s.calls[c].thread && Advance(before, x) == after
    ensures Histories(n)
  {
    hide Replay, Advance;
    forall u | 0 <= u < |n.threads| ensures Replay(n.log, u) == ViewOf(n, u) {
      if e.Some? { ReplayAppend(s.log, e.value, u); }
      assert Replay(s.log, u) == ViewOf(s, u);
      assert InCall(s.threads[u]) ==> (s.threads[u].call == c <==> u == s.calls[c].thread);
      assert InCall(s.threads[u]) && s.threads[u].call != c ==>
          CallView(n.calls, s.threads[u].call) == CallView(s.calls, s.threads[u].call);
    }
  }

  /** The oldest queued call becomes the running one. */
  lemma RunProxyMain(s: State, n: State, c: nat)
    requires Main(s) && s.handler.None? && !s.mainConfig && s.tsfn.queue != [] && c == s.tsfn.queue[0]
    requires c < |s.calls| && n.calls == WithStage(s.calls, c, Running)
    requires n.tsfn.queue == s.tsfn.queue[1..] && n.handler == Some(c) && n.mainConfig == s.mainConfig
    ensures Main(n)
  {
    assert forall d :: 0 <= d < |s.calls| && d != c ==> n.calls[d] == s.calls[d];
    forall i | 0 <= i < |n.tsfn.queue| ensures HasStage(n, n.tsfn.queue[i], Queued) {
      assert n.tsfn.queue[i] == s.tsfn.queue[i + 1];
      assert HasStage(s, s.tsfn.queue[i + 1], Queued);
    }
    forall d | 0 <= d < |n.calls| && n.calls[d].stage.Queued? ensures d in n.tsfn.queue {
      assert d != c && d in s.tsfn.queue;
    }
  }

  lemma ProxyFrame(s: State)
    requires Enabled(s, RunProxy) && Sound(s) && Main(s)
    ensures SameOwner(s, AfterRunProxy(s)) && Sound(AfterRunProxy(s))
  {
    assert HasStage(s, s.tsfn.queue[0], Queued);
  }

  lemma RunProxyCore(s: State)
    requires Core(s) && Enabled(s, RunProxy)
    ensures Core(AfterRunProxy(s))
  {
    hide Tokens, Phases, Object, Life, Calls, Histories, Replay, Sound, SameOwner;
    var n, c := AfterRunProxy(s), s.tsfn.queue[0];
    assert HasStage(s, c, Queued);
    ProxyFrame(s);
    HandlingAccounts(s, n);
    StageCalls(s, n, c, Running);
    RunProxyMain(s, n, c);
    StageHistories(s, n, c, Running, Some(Started(s.calls[c].thread, s.calls[c].msg)));
  }

  /** The running call leaves the handler. */
  lemma LeaveMain(s: State, n: State, c: nat, st: Stage)
    requires Main(s) && s.handler == Some(c) && n.handler.None? && n.mainConfig == s.mainConfig
    requires c < |s.calls| && n.calls == WithStage(s.calls, c, st) && !st.Queued? && !st.Running?
    requires n.tsfn.queue == s.tsfn.queue
    ensures Main(n)
  {
    assert forall d :: 0 <= d < |s.calls| && d != c ==> n.calls[d] == s.calls[d];
    forall i | 0 <= i < |n.tsfn.queue| ensures HasStage(n, n.tsfn.queue[i], Queued) {
      assert HasStage(s, s.tsfn.queue[i], Queued);
    }
  }

  lemma SignalFrame(s: State, c: nat, h: Option<nat>, logs: bool)
    requires c < |s.calls| && Sound(s) && !s.calls[c].stage.Freed? && !s.calls[c].stage.Signalled?
    ensures SameOwner(s, Signal(s, c, h, logs)) && Sound(Signal(s, c, h, logs))
  {
  }

  /** What every signal does to the parts that do not depend on the main thread's stack. */
  lemma SignalCore(s: State, c: nat, h: Option<nat>, logs: bool)
    requires Accounts(s) && Calls(s) && Histories(s) && c < |s.calls|
    requires s.calls[c].stage.Running? || s.calls[c].stage.Settled?
    ensures Accounts(Signal(s, c, h, logs)) && Calls(Signal(s, c, h, logs)) && Histories(Signal(s, c, h, logs))
  {
    hide Tokens, Phases, Object, Life, Calls, Histories, Replay, Sound, SameOwner;
    var n := Signal(s, c, h, logs);
    SignalFrame(s, c, h, logs);
    HandlingAccounts(s, n);
    StageCalls(s, n, c, Signalled);
    StageHistories(s, n, c, Signalled, Some(Completed(s.calls[c].thread, s.calls[c].msg)));
  }

  lemma LeaveHandlerCore(s: State, threw: bool)
    requires Core(s) && s.handler.Some?
    ensures Core(LeaveHandler(s, threw))
  {
    hide Accounts, Calls, Histories;
    var c := s.handler.value;
    assert HasStage(s, c, Running);
    SignalCore(s, c, None, threw);
    LeaveMain(s, LeaveHandler(s, threw), c, Signalled);
  }

  lemma HandlerReturnsPromiseCore(s: State)
    requires Core(s) && s.handler.Some?
    ensures Core(AfterHandlerReturnsPromise(s))
  {
    hide Tokens, Phases, Object, Life, Calls, Histories, Replay;
    var n, c := AfterHandlerReturnsPromise(s), s.handler.value;
    assert HasStage(s, c, Running);
    HandlingAccounts(s, n);
    StageCalls(s, n, c, Pending);
    LeaveMain(s, n, c, Pending);
    StageHistories(s, n, c, Pending, None);
  }

  lemma SettlePromiseCore(s: State, c: nat, rejected: bool)
    requires Core(s) && Enabled(s, SettlePromise(c, rejected))
    ensures Core(AfterSettlePromise(s, c, rejected))
  {
    hide Tokens, Phases, Object, Life, Calls, Main, Histories, Replay;
    var n, st := AfterSettlePromise(s, c, rejected), Settled(rejected);
    HandlingAccounts(s, n);
    StageCalls(s, n, c, st);
    StageMain(s, n, c, st);
    StageHistories(s, n, c, st, None);
  }

  lemma RunFinallyCore(s: State, c: nat)
    requires Core(s) && Enabled(s, RunFinally(c))
    ensures Core(AfterRunFinally(s, c))
  {
    hide Accounts, Calls, Main, Histories;
    SignalCore(s, c, s.handler, s.calls[c].stage.rejected);
    StageMain(s, AfterRunFinally(s, c), c, Signalled);
  }

  // the consumer object and the thread-safe function's own end

  lemma CloseCallAccounts(s: State)
    requires Accounts(s) && Enabled(s, CloseCall) && (s.handler.Some? ==> !s.mainConfig)
    ensures Accounts(AfterCloseCall(s)) && SameWork(s, AfterCloseCall(s))
  {
    if s.consumer.value.listener {
      assert Accounts(AfterCloseCall(s));
    }
  }

  lemma FinishCleanupAccounts(s: State)
    requires Accounts(s) && Enabled(s, FinishCleanup) && (s.handler.Some? ==> !s.mainConfig)
    ensures Accounts(ReleaseListener(s)) && SameWork(s, ReleaseListener(s))
  {
  }

  /** The destructor finds no listener. */
  lemma CollectAccounts(s: State)
    requires Accounts(s) && Enabled(s, Collect) && (s.handler.Some? ==> !s.mainConfig)
    ensures AfterCollect(s) == s.(consumer := Some(s.consumer.value.(collected := true)))
    ensures Accounts(AfterCollect(s)) && SameWork(s, AfterCollect(s))
  {
    assert !s.consumer.value.listener;
  }

  lemma ForgetAccounts(s: State)
    requires Accounts(s) && Enabled(s, Forget) && (s.handler.Some? ==> !s.mainConfig)
    ensures Accounts(AfterForget(s)) && SameWork(s, AfterForget(s))
  {
  }

  lemma CloseFunctionAccounts(s: State)
    requires Accounts(s) && Enabled(s, CloseFunction)
    ensures Accounts(AfterCloseFunction(s)) && SameWork(s, AfterCloseFunction(s))
  {
  }

  lemma FinalizeFunctionAccounts(s: State)
    requires Accounts(s) && Enabled(s, FinalizeFunction)
    ensures Accounts(AfterFinalizeFunction(s)) && SameWork(s, AfterFinalizeFunction(s))
  {
  }

  lemma TeardownAccounts(s: State, a: Step)
    requires Core(s) && Enabled(s, a) && Teardown(a)
    ensures Accounts(Next(s, a)) && SameWork(s, Next(s, a))
  {
    hide Accounts, Work, SameWork, AfterCloseCall, ReleaseListener, AfterForget, AfterCollect;
    hide AfterCloseFunction, AfterFinalizeFunction;
    MainIsOut(s);
    match a
    case CloseCall => CloseCallAccounts(s);
    case FinishCleanup => FinishCleanupAccounts(s);
    case Forget => ForgetAccounts(s);
    case Collect => CollectAccounts(s);
    case CloseFunction => CloseFunctionAccounts(s);
    case FinalizeFunction => FinalizeFunctionAccounts(s);
  }

  lemma TeardownCore(s: State, a: Step)
    requires Core(s) && Enabled(s, a) && Teardown(a)
    ensures Core(Next(s, a))
  {
    hide Accounts, Work, SameWork, Next;
    TeardownAccounts(s, a);
    WorkKept(s, Next(s, a));
  }

  /** While a handler runs, NewInstance has returned. */
  lemma MainIsOut(s: State)
    requires Work(s)
    ensures s.handler.Some? ==> !s.mainConfig
  {
  }

  /** The steps between entering MessageListener and holding a token. */
  predicate Entering(a: Step) {
    a.GetConsumer? || a.AcquireToken?
  }

  lemma ListeningCore(s: State, a: Step)
    requires Core(s) && Enabled(s, a) && Listening(a) && (Entering(a) ==> Guarded(s))
    ensures Core(Next(s, a))
  {
    hide Core, Guarded, AfterEnter, AfterGetConsumer, AfterAcquireToken, AfterQueueCall;
    hide AfterReleaseToken, AfterResume;
    match a
    case Enter(t, m) => EnterCore(s, t, m);
    case GetConsumer(t) => GetConsumerCore(s, t);
    case AcquireToken(t) => AcquireTokenCore(s, t);
    case QueueCall(t) => QueueCallCore(s, t);
    case ReleaseToken(t) => ReleaseTokenCore(s, t);
    case Resume(t) => ResumeCore(s, t);
  }

  lemma HandlingCore(s: State, a: Step)
    requires Core(s) && Enabled(s, a) && Handling(a)
    ensures Core(Next(s, a))
  {
    hide Core, AfterRunProxy, LeaveHandler, AfterHandlerReturnsPromise, AfterSettlePromise, AfterRunFinally;
    match a
    case RunProxy => RunProxyCore(s);
    case HandlerReturns => LeaveHandlerCore(s, false);
    case HandlerThrows => LeaveHandlerCore(s, true);
    case HandlerReturnsPromise => HandlerReturnsPromiseCore(s);
    case SettlePromise(c, r) => SettlePromiseCore(s, c, r);
    case RunFinally(c) => RunFinallyCore(s, c);
  }

  lemma StepCore(s: State, a: Step)
    requires Core(s) && Enabled(s, a) && (Entering(a) ==> Guarded(s))
    ensures Core(Next(s, a))
  {
    hide Core, Guarded, Next, Enabled;
    if Setup(a) { SetupCore(s, a); }
    else if Listening(a) { ListeningCore(s, a); }
    else if Handling(a) { HandlingCore(s, a); }
    else { TeardownCore(s, a); }
  }

  // ------------------------------------------------ no thread without an owner

  /** Before the subscription has succeeded no thread is in the listener, and afterwards setting
      it up only hands the token on. */
  lemma OwnerAfterSetup(s: State, a: Step)
    requires Inv(s) && Enabled(s, a) && Setup(a)
    ensures Guarded(Next(s, a))
  {
    hide Tokens, Calls, Main, Histories, Object, Sound;
    match a
    case Configure(_) =>
    case RefuseConfig =>
    case ThrowConfig =>
    case Subscribe =>
    case ReturnFromNewInstance =>
    case CreateConsumer =>
    case SubscribeFails =>
    case SubscribeSucceeds =>
    case RunDeferred =>
  }

  lemma OwnerAfterTeardown(s: State, a: Step)
    requires Inv(s) && Enabled(s, a) && Hypothesis(s, a) && Teardown(a)
    ensures Guarded(Next(s, a))
  {
    hide Tokens, Phases, Life, Sound, Calls, Main, Histories;
    match a
    case CloseCall =>
    case FinishCleanup =>
    case Forget =>
    case Collect =>
    case CloseFunction =>
    case FinalizeFunction =>
  }

  /** Messages are dispatched only while someone owns the token. */
  lemma OwnerAtEntry(s: State, t: nat, m: Msg)
    requires Inv(s) && Enabled(s, Enter(t, m))
    ensures Guarded(AfterEnter(s, t, m))
  {
    hide Tokens, Calls, Main, Histories, Sound;
    assert Owned(s);
  }

  /** No step takes a thread back before its Acquire. */
  lemma OwnerWhileListening(s: State, a: Step)
    requires Guarded(s) && Enabled(s, a) && Listening(a) && !a.Enter?
    ensures Guarded(Next(s, a))
  {
    match a
    case GetConsumer(t) =>
    case AcquireToken(t) =>
    case QueueCall(t) =>
    case ReleaseToken(t) =>
    case Resume(t) =>
  }

  lemma PromiseFrame(s: State)
    requires s.handler.Some? && s.handler.value < |s.calls|
    ensures SameOwner(s, AfterHandlerReturnsPromise(s))
  {
  }

  lemma SettleFrame(s: State, c: nat, rejected: bool)
    requires c < |s.calls|
    ensures SameOwner(s, AfterSettlePromise(s, c, rejected))
  {
  }

  /** The call a main-thread step works on is alive and not signalled. */
  lemma WorkedOn(s: State, a: Step) returns (c: nat)
    requires Main(s) && Enabled(s, a) && Handling(a)
    ensures c < |s.calls| && !s.calls[c].stage.Freed? && !s.calls[c].stage.Signalled?
    ensures match a case RunProxy => c == s.tsfn.queue[0]
                    case SettlePromise(d, _) => c == d
                    case RunFinally(d) => c == d
                    case _ => s.handler == Some(c)
  {
    if a.RunProxy? {
      c := s.tsfn.queue[0];
      assert HasStage(s, c, Queued);
    } else if a.SettlePromise? || a.RunFinally? {
      c := a.call;
    } else {
      c := s.handler.value;
    }
  }

  /** The proxy and the handlers own nothing. */
  lemma HandlingFrame(s: State, a: Step)
    requires Sound(s) && Main(s) && Enabled(s, a) && Handling(a)
    ensures SameOwner(s, Next(s, a)) && Next(s, a).threads == s.threads
  {
    hide Main, Sound, SameOwner;
    var c := WorkedOn(s, a);
    match a
    case RunProxy => ProxyFrame(s);
    case HandlerReturns => SignalFrame(s, c, None, false);
    case HandlerThrows => SignalFrame(s, c, None, true);
    case HandlerReturnsPromise => PromiseFrame(s);
    case SettlePromise(_, rejected) => SettleFrame(s, c, rejected);
    case RunFinally(_) => SignalFrame(s, c, s.handler, s.calls[c].stage.rejected);
  }

  lemma OwnerWhileHandling(s: State, a: Step)
    requires Inv(s) && Enabled(s, a) && Handling(a)
    ensures Guarded(Next(s, a))
  {
    hide Next, Tokens, Phases, Object, Life, Calls, Main, Histories, Sound;
    HandlingFrame(s, a);
  }

  lemma StepGuarded(s: State, a: Step)
    requires Inv(s) && Enabled(s, a) && Hypothesis(s, a)
    ensures Guarded(Next(s, a))
  {
    hide Core, Guarded, Hypothesis, Inv, AfterEnter;
    if Setup(a) {
      OwnerAfterSetup(s, a);
    } else if Teardown(a) {
      OwnerAfterTeardown(s, a);
    } else if a.Enter? {
      OwnerAtEntry(s, a.t, a.msg);
    } else if Listening(a) {
      assert Guarded(s) by { GuardedOf(s); }
      OwnerWhileListening(s, a);
    } else {
      OwnerWhileHandling(s, a);
    }
  }

  lemma GuardedOf(s: State)
    requires Inv(s)
    ensures Guarded(s) && Core(s)
  {
  }

  lemma StepInv(s: State, a: Step)
    requires Inv(s) && Enabled(s, a) && Hypothesis(s, a)
    ensures Inv(Next(s, a))
  {
    hide Core, Guarded, Next, Enabled, Hypothesis;
    StepCore(s, a);
    StepGuarded(s, a);
  }

  lemma {:induction false} RunInv(s: State, steps: seq<Step>)
    requires Inv(s) && Legal(s, steps)
    ensures Inv(After(s, steps))
    decreases steps
  {
    hide Inv, Next, Enabled, Hypothesis;
    if steps == [] {
    } else {
      StepInv(s, steps[0]);
      RunInv(Next(s, steps[0]), steps[1..]);
    }
  }

  lemma ReachableInv(s: State)
    requires Reachable(s)
    ensures Inv(s)
  {
    hide Inv, Next;
    var k: nat, steps: seq<Step> :| Legal(Init(k), steps) && After(Init(k), steps) == s;
    InitInv(k);
    RunInv(Init(k), steps);
  }
}
