/** The consumer's message listener (src/Consumer.cc, src/ConsumerConfig.cc) as a step system:
    one main thread running JavaScript, any number of listener threads of the C++ client, and
    one thread-safe function whose initial token moves from the ConsumerConfig to the lambda that
    resolves the promise and on to the Consumer.

    Each step is one atomic action of the code. A step that would use freed memory, release a
    token nobody holds, or set a promise twice raises `fault`; `stale` is raised beside it if what
    was used is a Consumer object that has been collected. The other modules show that no run
    faults for any other reason, and exactly when none faults for this one.
    What the environment promises is in `Enabled` and `Hypothesis`:
    - no Node environment is torn down, and memory is sequentially consistent;
    - the subscribe callback fires exactly once, and messages are dispatched only for a C++
      consumer that exists, never by the main thread;
    - after Cleanup has paused the listener no message is dispatched, and when Cleanup releases
      the owner's token no thread stands between entering MessageListener and its Acquire. */
module ListenerProtocol {
  import opened Common
  import opened ThreadSafeFunction
  import Deferred

  type Msg = nat

  /** One MessageListenerProxyData together with the std::promise on its thread's stack. */
  datatype Stage =
    | Queued                    // handed to the thread-safe function
    | Running                   // the JavaScript handler is on the main thread's stack
    | Pending                   // the handler returned a promise that is not settled
    | Settled(rejected: bool)   // settled; catch and finally are waiting in the microtask queue
    | Signalled                 // the completion promise has been set
    | Freed                     // the listener thread has resumed and dropped the data

  datatype Call = Call(thread: nat, msg: Msg, stage: Stage)

  /** Where a listener thread stands in MessageListener. */
  datatype Pc =
    | Idle
    | AtFuture(msg: Msg)
    | AtAcquire(msg: Msg)
    | AtCall(msg: Msg)
    | AtRelease(call: nat)
    | AtWait(call: nat)

  /** The life of one Client.subscribe call. */
  datatype Phase =
    | Start
    | Configured      // InitConfig has passed the listener option
    | Refused         // InitConfig rejected afterwards, or NewInstance saw it done
    | Thrown          // an exception left InitConfig, and NewInstance with it
    | Subscribing     // the C++ client has the context
    | Created         // the C++ consumer exists, the callback has not run yet
    | Failed
    | Succeeded

  /** The wrapped Consumer. `refs` counts strong references beyond those JavaScript holds. */
  datatype Consumer = Consumer(
    listener: bool, refs: nat, reachable: bool, collected: bool, releases: nat, unrefs: nat)

  datatype Event =
    | Dispatched(thread: nat, msg: Msg)
    | Started(thread: nat, msg: Msg)
    | Completed(thread: nat, msg: Msg)
    | Resumed(thread: nat, msg: Msg)
    | Dropped(thread: nat, msg: Msg)

  datatype State = State(
    phase: Phase,
    record: bool,                    // a MessageListenerCallback was created
    deletions: nat,                  // how often it was deleted
    tsfn: Tsfn<nat>,                 // its thread-safe function; calls are indices into `calls`
    futureSets: nat,                 // how often consumerPromise was set
    mainConfig: bool,                // NewInstance's own shared pointer to the config
    otherConfig: bool,               // the context's, then the lambda's
    configListener: bool,            // ConsumerConfig::listener is non-null
    lambda: bool,                    // the resolver lambda captured the listener
    deferred: Deferred.Promise,
    consumer: Option<Consumer>,
    paused: bool,
    closing: bool,                   // the main thread is inside Cleanup, after the pause
    handler: Option<nat>,            // the call whose handler is on the main thread's stack
    threads: seq<Pc>,
    calls: seq<Call>,
    log: seq<Event>,
    fault: bool,
    stale: bool)

  datatype Step =
    // NewInstance, on the main thread
    | Configure(withListener: bool)
    | RefuseConfig
    | ThrowConfig
    | Subscribe
    | ReturnFromNewInstance
    // the C++ client
    | CreateConsumer
    | SubscribeFails
    | SubscribeSucceeds
    // the deferred's finalizer
    | RunDeferred
    // MessageListener, on listener thread t
    | Enter(t: nat, msg: Msg)
    | GetConsumer(t: nat)
    | AcquireToken(t: nat)
    | QueueCall(t: nat)
    | ReleaseToken(t: nat)
    | Resume(t: nat)
    // MessageListenerProxy and what follows it, on the main thread
    | RunProxy
    | HandlerReturns
    | HandlerThrows
    | HandlerReturnsPromise
    | SettlePromise(call: nat, rejected: bool)
    | RunFinally(call: nat)
    // the consumer object
    | CloseCall
    | FinishCleanup
    | Forget
    | Collect
    // the thread-safe function
    | CloseFunction
    | FinalizeFunction

  function Init(k: nat): State {
    State(Start, false, 0, Create(1, 0), 0, false, false, false, false, Deferred.Pending, None,
          false, false, None, seq(k, _ => Idle), [], [], false, false)
  }

  // ------------------------------------------------------------------- guards

  /** The main thread is at the top of its event loop: in no handler, not inside Cleanup, and not
      inside NewInstance. */
  predicate MainFree(s: State) {
    s.handler.None? && !s.closing && !s.mainConfig
  }

  predicate HasStage(s: State, c: nat, st: Stage) {
    c < |s.calls| && s.calls[c].stage == st
  }

  predicate BeforeAcquire(pc: Pc) {
    pc.AtFuture? || pc.AtAcquire?
  }

  predicate NoneBeforeAcquire(s: State) {
    forall t :: 0 <= t < |s.threads| ==> !BeforeAcquire(s.threads[t])
  }

  predicate OpenConsumer(s: State) {
    s.consumer.Some? && !s.consumer.value.collected
  }

  /** Following data->consumer now would reach an object that has been deleted. */
  predicate ConsumerGone(s: State) {
    s.consumer.Some? && s.consumer.value.collected
  }

  predicate Enabled(s: State, a: Step) {
    match a
    case Configure(_) => s.phase.Start?
    case RefuseConfig => s.phase.Configured?
    case ThrowConfig => s.phase.Configured?
    case Subscribe => s.phase.Configured?
    case ReturnFromNewInstance =>
      s.mainConfig && !s.phase.Start? && !s.phase.Configured?
    case CreateConsumer => s.phase.Subscribing?
    case SubscribeFails => s.phase.Subscribing?
    case SubscribeSucceeds => s.phase.Created?
    case RunDeferred => MainFree(s) && s.deferred.Chosen?
    case Enter(t, _) =>
      && t < |s.threads| && s.threads[t].Idle?
      && s.record && !s.paused && (s.phase.Created? || s.phase.Succeeded?)
    case GetConsumer(t) => t < |s.threads| && s.threads[t].AtFuture? && s.futureSets > 0
    case AcquireToken(t) => t < |s.threads| && s.threads[t].AtAcquire?
    case QueueCall(t) => t < |s.threads| && s.threads[t].AtCall? && CallReturns(s.tsfn)
    case ReleaseToken(t) => t < |s.threads| && s.threads[t].AtRelease?
    case Resume(t) =>
      t < |s.threads| && s.threads[t].AtWait? && HasStage(s, s.threads[t].call, Signalled)
    case RunProxy => MainFree(s) && CanDispatch(s.tsfn)
    case HandlerReturns => s.handler.Some? && !s.closing
    case HandlerThrows => s.handler.Some? && !s.closing
    case HandlerReturnsPromise => s.handler.Some? && !s.closing
    case SettlePromise(c, _) => HasStage(s, c, Pending)
    case RunFinally(c) => MainFree(s) && c < |s.calls| && s.calls[c].stage.Settled?
    case CloseCall => OpenConsumer(s) && s.consumer.value.reachable && !s.closing
    case FinishCleanup => s.closing && OpenConsumer(s)
    case Forget => OpenConsumer(s) && MainFree(s)
    case Collect =>
      OpenConsumer(s) && MainFree(s) && !s.consumer.value.reachable && s.consumer.value.refs == 0
    case CloseFunction => MainFree(s) && s.record && CanClose(s.tsfn)
    case FinalizeFunction => MainFree(s) && s.record && CanFinalize(s.tsfn)
  }

  /** What the pause before the release is relied on for (src/Consumer.cc:492). */
  predicate Hypothesis(s: State, a: Step) {
    a.FinishCleanup? ==> NoneBeforeAcquire(s)
  }

  // ------------------------------------------------------------------ effects

  /** Using the listener record or its thread-safe function now is a use of nothing. */
  predicate Gone(s: State) {
    !s.record || s.deletions > 0
  }

  predicate BadRelease(s: State) {
    Gone(s) || Release(s.tsfn).0 != Ok
  }

  /** One of the two shared pointers to the ConsumerConfig is dropped; the last one runs
      ~ConsumerConfig, which gives back the listener it still has. */
  function DropConfig(s: State, main: bool): State {
    var last := if main then !s.otherConfig else !s.mainConfig;
    s.(mainConfig := s.mainConfig && !main,
       otherConfig := s.otherConfig && main,
       configListener := s.configListener && !last,
       tsfn := if s.configListener && last then Release(s.tsfn).1 else s.tsfn,
       fault := s.fault || (s.configListener && last && BadRelease(s)))
  }

  /** Consumer::SetListenerCallback with the listener the lambda holds. */
  function SetListenerCallback(s: State): State
    requires s.consumer.Some?
  {
    var c := s.consumer.value;
    if c.listener || !s.lambda then s
    else s.(
      fault := s.fault || Gone(s) || s.futureSets > 0,
      futureSets := s.futureSets + 1,
      lambda := false,
      consumer := Some(c.(refs := c.refs + 1, listener := true)))
  }

  /** The second half of Consumer::Cleanup: Release, forget the listener, Unref. */
  function ReleaseListener(s: State): State
    requires s.consumer.Some?
  {
    var c := s.consumer.value;
    s.(tsfn := Release(s.tsfn).1,
       fault := s.fault || BadRelease(s) || c.refs == 0,
       closing := false,
       consumer := Some(c.(listener := false, releases := c.releases + 1, unrefs := c.unrefs + 1,
                           refs := if c.refs == 0 then 0 else c.refs - 1)))
  }

  /** The whole of Consumer::Cleanup. */
  function CleanUp(s: State): State
    requires s.consumer.Some?
  {
    if s.consumer.value.listener then ReleaseListener(s.(paused := true)) else s
  }

  function WithStage(calls: seq<Call>, c: nat, st: Stage): seq<Call>
    requires c < |calls|
  {
    calls[c := calls[c].(stage := st)]
  }

  /** data->callback(): the proxy data is read and the std::promise on the thread's stack is set.
      `handler` is what the main thread has on its stack afterwards; `logs` says whether an error
      was reported through data->consumer on the way. */
  function Signal(s: State, c: nat, handler: Option<nat>, logs: bool): State
    requires c < |s.calls|
  {
    var call := s.calls[c];
    s.(handler := handler,
       calls := WithStage(s.calls, c, Signalled),
       log := s.log + [Completed(call.thread, call.msg)],
       fault := s.fault || call.stage.Freed? || call.stage.Signalled? || (logs && ConsumerGone(s)),
       stale := s.stale || (logs && ConsumerGone(s)))
  }

  /** NewInstance, the subscribe callback and the deferred's finalizer. */
  predicate Setup(a: Step) {
    a.Configure? || a.RefuseConfig? || a.ThrowConfig? || a.Subscribe? || a.ReturnFromNewInstance? ||
    a.CreateConsumer? || a.SubscribeFails? || a.SubscribeSucceeds? || a.RunDeferred?
  }

  /** A listener thread inside MessageListener. */
  predicate Listening(a: Step) {
    a.Enter? || a.GetConsumer? || a.AcquireToken? || a.QueueCall? || a.ReleaseToken? || a.Resume?
  }

  /** The proxy, the handler and its promise. */
  predicate Handling(a: Step) {
    a.RunProxy? || a.HandlerReturns? || a.HandlerThrows? || a.HandlerReturnsPromise? ||
    a.SettlePromise? || a.RunFinally?
  }

  /** The consumer object and the thread-safe function's own end. */
  predicate Teardown(a: Step) {
    a.CloseCall? || a.FinishCleanup? || a.Forget? || a.Collect? || a.CloseFunction? || a.FinalizeFunction?
  }

  // ------------------------------------------------------------- the steps, one by one

  function AfterConfigure(s: State, withListener: bool): State {
    s.(phase := Configured, mainConfig := true, record := withListener,
       tsfn := Create(1, Bit(withListener)), configListener := withListener)
  }

  function AfterRefuseConfig(s: State): State {
    s.(phase := Refused, deferred := Deferred.Chosen(Deferred.Error("")))
  }

  /** Nobody will ever tell the deferred anything. */
  function AfterThrowConfig(s: State): State {
    s.(phase := Thrown)
  }

  function AfterSubscribe(s: State): State {
    s.(phase := Subscribing, otherConfig := true)
  }

  function AfterCreateConsumer(s: State): State {
    s.(phase := Created)
  }

  function AfterSubscribeFails(s: State): State {
    DropConfig(s.(phase := Failed, deferred := Deferred.Chosen(Deferred.Error(""))), false)
  }

  function AfterSubscribeSucceeds(s: State): State {
    s.(phase := Succeeded, lambda := s.configListener, configListener := false,
       deferred := Deferred.Chosen(Deferred.Value(0)))
  }

  /** The resolver's new Consumer. */
  function BuildConsumer(s: State): State
    requires s.deferred.Chosen?
  {
    s.(deferred := Deferred.Fulfilled(s.deferred.outcome),
       consumer := Some(Consumer(false, 0, true, false, 0, 0)),
       fault := s.fault || s.consumer.Some?)
  }

  /** A rejected subscribe only settles its promise; a resolved one builds the Consumer. */
  function AfterRunDeferred(s: State): State
    requires s.deferred.Chosen?
  {
    if s.deferred.outcome.Value? then
      DropConfig(SetListenerCallback(BuildConsumer(s)), false)
    else s.(deferred := Deferred.Fulfilled(s.deferred.outcome))
  }

  function AfterEnter(s: State, t: nat, m: Msg): State
    requires t < |s.threads|
  {
    s.(threads := s.threads[t := AtFuture(m)], log := s.log + [Dispatched(t, m)])
  }

  function AfterGetConsumer(s: State, t: nat): State
    requires t < |s.threads| && s.threads[t].AtFuture?
  {
    s.(threads := s.threads[t := AtAcquire(s.threads[t].msg)], fault := s.fault || Gone(s))
  }

  function AfterAcquireToken(s: State, t: nat): State
    requires t < |s.threads| && s.threads[t].AtAcquire?
  {
    var m := s.threads[t].msg;
    var (status, f) := Acquire(s.tsfn);
    s.(tsfn := f,
       threads := s.threads[t := if status == Ok then AtCall(m) else Idle],
       log := if status == Ok then s.log else s.log + [Dropped(t, m)],
       fault := s.fault || Gone(s))
  }

  function AfterQueueCall(s: State, t: nat): State
    requires t < |s.threads| && s.threads[t].AtCall? && CallReturns(s.tsfn)
  {
    var c := |s.calls|;
    s.(tsfn := BlockingCall(s.tsfn, c).1,
       calls := s.calls + [Call(t, s.threads[t].msg, Queued)],
       threads := s.threads[t := Pc.AtRelease(c)],
       fault := s.fault || Gone(s))
  }

  function AfterReleaseToken(s: State, t: nat): State
    requires t < |s.threads| && s.threads[t].AtRelease?
  {
    s.(tsfn := Release(s.tsfn).1,
       threads := s.threads[t := AtWait(s.threads[t].call)],
       fault := s.fault || BadRelease(s))
  }

  function AfterResume(s: State, t: nat): State
    requires t < |s.threads| && s.threads[t].AtWait? && s.threads[t].call < |s.calls|
  {
    var c := s.threads[t].call;
    s.(calls := WithStage(s.calls, c, Freed),
       threads := s.threads[t := Idle],
       log := s.log + [Resumed(t, s.calls[c].msg)])
  }

  /** The proxy follows data->consumer and calls the handler with the object found there, which the
      handler then holds. */
  function AfterRunProxy(s: State): State
    requires CanDispatch(s.tsfn)
  {
    var (c, f) := Dispatch(s.tsfn);
    if c >= |s.calls| then s.(tsfn := f, handler := Some(c), fault := true)
    else
      var call := s.calls[c];
      s.(tsfn := f, handler := Some(c),
         calls := WithStage(s.calls, c, Running),
         log := s.log + [Started(call.thread, call.msg)],
         consumer := if OpenConsumer(s) then Some(s.consumer.value.(reachable := true)) else s.consumer,
         fault := s.fault || !call.stage.Queued? || ConsumerGone(s),
         stale := s.stale || ConsumerGone(s))
  }

  /** The handler returned a plain value or threw: the proxy signals at once, in the second case
      after reporting the error. */
  function LeaveHandler(s: State, threw: bool): State
    requires s.handler.Some?
  {
    var c := s.handler.value;
    if c >= |s.calls| then s.(handler := None, fault := true) else Signal(s, c, None, threw)
  }

  function AfterHandlerReturnsPromise(s: State): State
    requires s.handler.Some?
  {
    var c := s.handler.value;
    if c >= |s.calls| then s.(handler := None, fault := true)
    else s.(handler := None, calls := WithStage(s.calls, c, Pending))
  }

  function AfterSettlePromise(s: State, c: nat, rejected: bool): State
    requires c < |s.calls|
  {
    s.(calls := WithStage(s.calls, c, Settled(rejected)))
  }

  /** The catch reaction reports a rejection through data->consumer; then finally signals. */
  function AfterRunFinally(s: State, c: nat): State
    requires c < |s.calls| && s.calls[c].stage.Settled?
  {
    Signal(s, c, s.handler, s.calls[c].stage.rejected)
  }

  function AfterCloseCall(s: State): State
    requires s.consumer.Some?
  {
    if s.consumer.value.listener then s.(paused := true, closing := true) else s
  }

  function AfterForget(s: State): State
    requires s.consumer.Some?
  {
    s.(consumer := Some(s.consumer.value.(reachable := false)))
  }

  /** The destructor. */
  function AfterCollect(s: State): State
    requires s.consumer.Some?
  {
    CleanUp(s.(consumer := Some(s.consumer.value.(collected := true))))
  }

  function AfterCloseFunction(s: State): State
    requires CanClose(s.tsfn)
  {
    s.(tsfn := Close(s.tsfn))
  }

  function AfterFinalizeFunction(s: State): State
    requires CanFinalize(s.tsfn)
  {
    s.(tsfn := Finalize(s.tsfn), deletions := s.deletions + 1, fault := s.fault || Gone(s))
  }

  function Next(s: State, a: Step): State
    requires Enabled(s, a)
  {
    match a
    case Configure(withListener) => AfterConfigure(s, withListener)
    case RefuseConfig => AfterRefuseConfig(s)
    case ThrowConfig => AfterThrowConfig(s)
    case Subscribe => AfterSubscribe(s)
    case ReturnFromNewInstance => DropConfig(s, true)
    case CreateConsumer => AfterCreateConsumer(s)
    case SubscribeFails => AfterSubscribeFails(s)
    case SubscribeSucceeds => AfterSubscribeSucceeds(s)
    case RunDeferred => AfterRunDeferred(s)
    case Enter(t, m) => AfterEnter(s, t, m)
    case GetConsumer(t) => AfterGetConsumer(s, t)
    case AcquireToken(t) => AfterAcquireToken(s, t)
    case QueueCall(t) => AfterQueueCall(s, t)
    case ReleaseToken(t) => AfterReleaseToken(s, t)
    case Resume(t) => AfterResume(s, t)
    case RunProxy => AfterRunProxy(s)
    case HandlerReturns => LeaveHandler(s, false)
    case HandlerThrows => LeaveHandler(s, true)
    case HandlerReturnsPromise => AfterHandlerReturnsPromise(s)
    case SettlePromise(c, rejected) => AfterSettlePromise(s, c, rejected)
    case RunFinally(c) => AfterRunFinally(s, c)
    case CloseCall => AfterCloseCall(s)
    case FinishCleanup => ReleaseListener(s)
    case Forget => AfterForget(s)
    case Collect => AfterCollect(s)
    case CloseFunction => AfterCloseFunction(s)
    case FinalizeFunction => AfterFinalizeFunction(s)
  }

  // --------------------------------------------------------------------- runs

  predicate Legal(s: State, steps: seq<Step>)
    decreases steps
  {
    steps != [] ==>
      Enabled(s, steps[0]) && Hypothesis(s, steps[0]) && Legal(Next(s, steps[0]), steps[1..])
  }

  function After(s: State, steps: seq<Step>): State
    requires Legal(s, steps)
    decreases steps
  {
    if steps == [] then s else After(Next(s, steps[0]), steps[1..])
  }

  /** The states that some run of a client with some number of listener threads reaches. */
  ghost predicate Reachable(s: State) {
    exists k: nat, steps: seq<Step> :: Legal(Init(k), steps) && After(Init(k), steps) == s
  }

  /** The threads that have acquired a token and not given it back. */
  function Holders(threads: seq<Pc>): nat {
    if threads == [] then 0
    else Holders(threads[1..]) + Bit(threads[0].AtCall? || threads[0].AtRelease?)
  }
}
