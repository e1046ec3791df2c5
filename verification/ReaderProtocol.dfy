/** The reader's listener (src/Reader.cc, src/ReaderConfig.cc): the same blocking hand-over as the
    consumer's, but with a plain pointer that is null until the Reader is published, no pause
    before the release, and a proxy that signals only when the handler returns or fulfils.

    Messages are dispatched one after the other, so message i is the i-th one. As in the consumer's
    protocol, a step that uses freed memory raises `fault`, and `stale` beside it if what was used
    is a Reader object that has been collected. Environment:
    - the C++ client dispatches only for a reader it has created, never on the main thread;
    - when the record is finalized no thread stands between entering ReaderListener and its
      Acquire, and none enters afterwards. (It may enter, and be refused, at any time before.) */
module ReaderProtocol {
  import opened Common
  import opened ThreadSafeFunction

  datatype Pc =
    | Idle
    | Entered                  // about to read listenerCallback->reader
    | AtAcquire(reader: bool)  // whether the pointer that was read is non-null
    | AtCall(reader: bool)
    | AtRelease
    | AtWait

  /** The current message's proxy data. */
  datatype Stage =
    | Unused
    | Queued(reader: bool)
    | Running
    | Pending
    | Fulfilled     // the callback given to then is waiting in the microtask queue
    | Abandoned     // the handler threw or its promise was rejected: nobody will signal
    | Signalled

  datatype Phase = Creating | Failed | Created | Published

  datatype State = State(
    phase: Phase,
    tsfn: Tsfn<nat>,
    deletions: nat,
    configOwns: bool,
    readerOwns: bool,          // Reader::listener is non-null
    refs: nat,
    reachable: bool,           // JavaScript can still reach the Reader
    collected: bool,           // the Reader has been deleted
    releases: nat,             // by Reader::Cleanup
    inHandler: bool,
    pc: Pc,
    stage: Stage,
    dispatched: nat,
    skipped: seq<nat>,         // proxied with a null reader: no handler call
    handled: seq<nat>,         // given to the JavaScript handler
    refused: seq<nat>,         // turned away by Acquire
    finished: set<nat>,        // their handler returned or its promise was fulfilled
    completions: multiset<nat>,
    fault: bool,
    stale: bool)

  datatype Step =
    | CreationFails
    | CreateReader
    | Publish
    | Enter
    | ReadPointer
    | AcquireToken
    | QueueCall
    | ReleaseToken
    | Resume
    | RunProxy
    | HandlerReturns
    | HandlerThrows
    | HandlerReturnsPromise
    | PromiseFulfils
    | PromiseRejects
    | RunThen
    | CloseReader
    | Forget
    | Collect
    | CloseFunction
    | FinalizeFunction

  /** A ReaderConfig with a listener. */
  function Init(): State {
    State(Creating, Create(1, 1), 0, true, false, 0, false, false, 0, false, Idle, Unused, 0, [], [], [], {},
          multiset{}, false, false)
  }

  /** The message in flight. */
  function Current(s: State): nat {
    if s.dispatched == 0 then 0 else s.dispatched - 1
  }

  predicate OpenReader(s: State) {
    s.phase.Published? && !s.collected
  }

  predicate Enabled(s: State, a: Step) {
    match a
    case CreationFails => s.phase.Creating?
    case CreateReader => s.phase.Creating?
    case Publish => s.phase.Created? && !s.inHandler
    case Enter => s.pc.Idle? && (s.phase.Created? || s.phase.Published?)
    case ReadPointer => s.pc.Entered?
    case AcquireToken => s.pc.AtAcquire?
    case QueueCall => s.pc.AtCall? && CallReturns(s.tsfn)
    case ReleaseToken => s.pc.AtRelease?
    case Resume => s.pc.AtWait? && s.stage.Signalled?
    case RunProxy => !s.inHandler && CanDispatch(s.tsfn)
    case HandlerReturns => s.inHandler
    case HandlerThrows => s.inHandler
    case HandlerReturnsPromise => s.inHandler
    case PromiseFulfils => s.stage.Pending?
    case PromiseRejects => s.stage.Pending?
    case RunThen => !s.inHandler && s.stage.Fulfilled?
    case CloseReader => OpenReader(s) && s.reachable
    case Forget => OpenReader(s) && !s.inHandler
    case Collect => OpenReader(s) && !s.inHandler && !s.reachable && s.refs == 0
    case CloseFunction => !s.inHandler && CanClose(s.tsfn)
    case FinalizeFunction => !s.inHandler && CanFinalize(s.tsfn)
  }

  predicate BeforeAcquire(pc: Pc) {
    pc.Entered? || pc.AtAcquire?
  }

  predicate Hypothesis(s: State, a: Step) {
    && (a.FinalizeFunction? ==> !BeforeAcquire(s.pc))
    && (a.Enter? ==> !s.tsfn.phase.Finalized?)
  }

  // ------------------------------------------------------------------ effects

  predicate BadRelease(s: State) {
    s.deletions > 0 || Release(s.tsfn).0 != Ok
  }

  /** ~ReaderConfig gives back the listener it still has. */
  function DropConfig(s: State): State {
    if s.configOwns then
      s.(configOwns := false, tsfn := Release(s.tsfn).1, fault := s.fault || BadRelease(s))
    else s
  }

  /** Reader::Cleanup. */
  function CleanUp(s: State): State {
    if s.readerOwns then
      s.(readerOwns := false, tsfn := Release(s.tsfn).1, releases := s.releases + 1,
         refs := if s.refs == 0 then 0 else s.refs - 1,
         fault := s.fault || BadRelease(s) || s.refs == 0)
    else s
  }

  function AfterCreationFails(s: State): State {
    DropConfig(s.(phase := Failed))
  }

  function AfterPublish(s: State): State {
    s.(phase := Published, configOwns := false, readerOwns := s.configOwns, reachable := true,
       refs := s.refs + Bit(s.configOwns), fault := s.fault || s.deletions > 0)
  }

  function AfterEnter(s: State): State {
    s.(pc := Entered, stage := Unused, dispatched := s.dispatched + 1)
  }

  function AfterReadPointer(s: State): State {
    s.(pc := AtAcquire(s.phase.Published?), fault := s.fault || s.deletions > 0)
  }

  function AfterAcquireToken(s: State): State
    requires s.pc.AtAcquire?
  {
    var (status, f) := Acquire(s.tsfn);
    s.(tsfn := f,
       pc := if status == Ok then AtCall(s.pc.reader) else Idle,
       refused := if status == Ok then s.refused else s.refused + [Current(s)],
       fault := s.fault || s.deletions > 0)
  }

  function AfterQueueCall(s: State): State
    requires s.pc.AtCall? && CallReturns(s.tsfn)
  {
    s.(tsfn := BlockingCall(s.tsfn, Current(s)).1, stage := Queued(s.pc.reader), pc := Pc.AtRelease,
       fault := s.fault || s.deletions > 0)
  }

  function AfterReleaseToken(s: State): State {
    s.(tsfn := Release(s.tsfn).1, pc := AtWait, fault := s.fault || BadRelease(s))
  }

  /** The proxy follows the pointer that was read, unless it is null, and calls the handler with the
      object found there, which the handler then holds; with a null pointer it signals at once. */
  function AfterRunProxy(s: State): State
    requires CanDispatch(s.tsfn)
  {
    var (m, f) := Dispatch(s.tsfn);
    var lost := m != Current(s) || !s.stage.Queued? || s.pc.Idle?;
    if s.stage == Queued(true) then
      s.(tsfn := f, stage := Running, inHandler := true, handled := s.handled + [m],
         reachable := s.reachable || !s.collected,
         fault := s.fault || lost || s.collected, stale := s.stale || s.collected)
    else
      s.(tsfn := f, stage := Signalled, skipped := s.skipped + [m],
         completions := s.completions + multiset{Current(s)}, fault := s.fault || lost)
  }

  /** data->callback() after the handler returned or fulfilled: the promise on the stack of the thread
      in flight is set. */
  function Finish(s: State): State {
    s.(inHandler := false, stage := Signalled, finished := s.finished + {Current(s)},
       completions := s.completions + multiset{Current(s)},
       fault := s.fault || s.stage.Signalled? || s.stage.Unused? || s.pc.Idle?)
  }

  function AfterFinalizeFunction(s: State): State
    requires CanFinalize(s.tsfn)
  {
    s.(tsfn := Finalize(s.tsfn), deletions := s.deletions + 1, fault := s.fault || s.deletions > 0)
  }

  function Next(s: State, a: Step): State
    requires Enabled(s, a)
  {
    match a
    case CreationFails => AfterCreationFails(s)
    case CreateReader => s.(phase := Created)
    case Publish => AfterPublish(s)
    case Enter => AfterEnter(s)
    case ReadPointer => AfterReadPointer(s)
    case AcquireToken => AfterAcquireToken(s)
    case QueueCall => AfterQueueCall(s)
    case ReleaseToken => AfterReleaseToken(s)
    case Resume => s.(pc := Idle)
    case RunProxy => AfterRunProxy(s)
    case HandlerReturns => Finish(s)
    case HandlerThrows => s.(inHandler := false, stage := Abandoned)
    case HandlerReturnsPromise => s.(inHandler := false, stage := Pending)
    case PromiseFulfils => s.(stage := Fulfilled)
    case PromiseRejects => s.(stage := Abandoned)
    case RunThen => Finish(s)
    case CloseReader => CleanUp(s)
    case Forget => s.(reachable := false)
    case Collect => CleanUp(s.(collected := true))
    case CloseFunction => s.(tsfn := Close(s.tsfn))
    case FinalizeFunction => AfterFinalizeFunction(s)
  }

  predicate Legal(s: State, steps: seq<Step>)
    decreases steps
  {
    steps != [] ==>
      Enabled(s, steps[0]) && Hypothesis(s, steps[0]) && Legal(Next(s, steps[0]), steps[1..])
  }

  function After(s: State, steps: seq<Step>): State
    requires Legal(s, steps)
    decreases steps
  {
    if steps == [] then s else After(Next(s, steps[0]), steps[1..])
  }

  ghost predicate Reachable(s: State) {
    exists steps: seq<Step> :: Legal(Init(), steps) && After(Init(), steps) == s
  }

  // ------------------------------------------------------------- the invariant

  /** The messages lo, lo + 1, ..., hi - 1. */
  function Segment(lo: nat, hi: nat): seq<nat>
    requires lo <= hi
  {
    seq(hi - lo, i requires 0 <= i => lo + i)
  }

  lemma SegmentAppend(lo: nat, hi: nat)
    requires lo <= hi
    ensures Segment(lo, hi + 1) == Segment(lo, hi) + [hi]
  {
  }

  /** Whether the current message has not been skipped, handled or refused yet. */
  predicate Undecided(s: State) {
    BeforeAcquire(s.pc) || s.pc.AtCall? || (!s.pc.Idle? && s.stage.Queued?)
  }

  /** The pointer the current, undecided message has read was null. */
  predicate ReadNull(s: State) {
    (s.pc.AtAcquire? && !s.pc.reader) || (s.pc.AtCall? && !s.pc.reader) ||
    (!s.pc.Idle? && s.stage == Queued(false))
  }

  predicate HoldsToken(pc: Pc) {
    pc.AtCall? || pc.AtRelease?
  }

  /** The only fault there is: a collected Reader was used. */
  predicate Sound(s: State) {
    (s.fault ==> s.stale) && (s.stale ==> s.collected)
  }

  predicate Tokens(s: State) {
    && s.tsfn.bound == 1
    && s.tsfn.count == Bit(s.configOwns) + Bit(s.readerOwns) + Bit(HoldsToken(s.pc))
    && (s.configOwns <==> s.phase.Creating? || s.phase.Created?)
    && (s.readerOwns ==> s.phase.Published?)
    && (s.collected ==> s.phase.Published? && !s.readerOwns)
    && s.refs == Bit(s.readerOwns)
    && s.releases == Bit(s.phase.Published? && !s.readerOwns)
    && s.deletions == Bit(s.tsfn.phase.Finalized?)
    && (!s.tsfn.phase.Open? ==> s.tsfn.count == 0 && s.tsfn.queue == [])
    && (s.tsfn.phase.Finalized? ==> !BeforeAcquire(s.pc))
  }

  predicate Flight(s: State) {
    && (s.phase.Creating? || s.phase.Failed? ==> s.pc.Idle? && s.dispatched == 0)
    && (!s.pc.Idle? ==> s.dispatched > 0)
    && s.tsfn.queue == (if !s.pc.Idle? && s.stage.Queued? then [Current(s)] else [])
    && (BeforeAcquire(s.pc) || s.pc.AtCall? ==> s.stage.Unused?)
    && (s.pc.AtRelease? || s.pc.AtWait? ==> !s.stage.Unused?)
    && (s.pc.Idle? ==> s.stage.Unused? || s.stage.Signalled?)
    && (s.inHandler <==> s.stage.Running?)
  }

  /** Skipped, handled and refused messages are three consecutive segments of the dispatched ones. */
  predicate Delivery(s: State) {
    var p, q := |s.skipped|, |s.skipped| + |s.handled|;
    var end := if Undecided(s) then Current(s) else s.dispatched;
    && q + |s.refused| == end
    && s.skipped == Segment(0, p)
    && s.handled == Segment(p, q)
    && s.refused == Segment(q, end)
    && (s.handled != [] ==> s.phase.Published?)
    && (s.refused != [] ==> !s.tsfn.phase.Open?)
    && (ReadNull(s) ==> s.handled == [])
    && ((s.pc.AtAcquire? || s.pc.AtCall?) && s.pc.reader ==> s.phase.Published?)
    && (!s.pc.Idle? && s.stage == Queued(true) ==> s.phase.Published?)
  }

  /** A completion has fired once for each skipped message and each handler that returned or
      fulfilled, and for no other; and every handler but that of the message in flight has. */
  ghost predicate Completion(s: State) {
    var p, q := |s.skipped|, |s.skipped| + |s.handled|;
    && (forall m: nat :: s.completions[m] == Bit(m < p || m in s.finished))
    && (forall m :: m in s.finished ==> p <= m < q)
    && (forall m: nat :: p <= m < q && (m != Current(s) || s.pc.Idle?) ==> m in s.finished)
    && (!s.pc.Idle? && !Undecided(s) ==>
          && (s.stage.Signalled? <==> Current(s) < p || Current(s) in s.finished)
          && Current(s) < q)
  }

  ghost predicate Inv(s: State) {
    Sound(s) && Tokens(s) && Flight(s) && Delivery(s) && Completion(s)
  }

  lemma InitInv()
    ensures Inv(Init())
  {
  }

  /** What delivery and completion are about has not changed. */
  predicate SameFlight(s: State, n: State) {
    && n.pc == s.pc && n.stage == s.stage && n.dispatched == s.dispatched && n.inHandler == s.inHandler
    && n.skipped == s.skipped && n.handled == s.handled && n.refused == s.refused
    && n.finished == s.finished && n.completions == s.completions
  }

  lemma SameFlightInv(s: State, n: State)
    requires Inv(s) && SameFlight(s, n) && Sound(n) && Tokens(n)
    requires n.tsfn.queue == s.tsfn.queue && (s.phase.Published? ==> n.phase.Published?)
    requires n.phase.Creating? || n.phase.Failed? ==> s.phase.Creating? || s.phase.Failed?
    requires !s.tsfn.phase.Open? ==> !n.tsfn.phase.Open?
    ensures Inv(n)
  {
    hide Segment;
  }

  lemma OwnerInv(s: State, a: Step)
    requires Inv(s) && Enabled(s, a)
    requires a.CreationFails? || a.CreateReader? || a.Publish? || a.CloseReader? || a.Forget? || a.Collect?
    ensures Inv(Next(s, a))
  {
    hide Delivery, Completion;
    match a {
      case CreationFails => assert Tokens(AfterCreationFails(s));
      case CreateReader =>
      case Publish => assert Tokens(AfterPublish(s));
      case CloseReader => assert Tokens(CleanUp(s));
      case Forget =>
      case Collect => assert Tokens(CleanUp(s.(collected := true)));
    }
    SameFlightInv(s, Next(s, a));
  }

  lemma FunctionInv(s: State, a: Step)
    requires Inv(s) && Enabled(s, a) && Hypothesis(s, a) && (a.CloseFunction? || a.FinalizeFunction?)
    ensures Inv(Next(s, a))
  {
    hide Delivery, Completion;
    match a {
      case CloseFunction =>
      case FinalizeFunction => assert Tokens(AfterFinalizeFunction(s));
    }
    SameFlightInv(s, Next(s, a));
  }

  lemma EnterInv(s: State)
    requires Inv(s) && Enabled(s, Enter) && Hypothesis(s, Enter)
    ensures Inv(AfterEnter(s))
  {
    hide Segment;
    assert Delivery(AfterEnter(s));
    assert Completion(AfterEnter(s));
  }

  lemma ReadPointerInv(s: State)
    requires Inv(s) && Enabled(s, ReadPointer)
    ensures Inv(AfterReadPointer(s))
  {
    hide Segment;
    assert Delivery(AfterReadPointer(s));
    assert Completion(AfterReadPointer(s));
  }

  lemma AcquireTokenInv(s: State)
    requires Inv(s) && Enabled(s, AcquireToken)
    ensures Inv(AfterAcquireToken(s))
  {
    hide Segment;
    var n := AfterAcquireToken(s);
    if !s.tsfn.phase.Open? {
      SegmentAppend(|s.skipped| + |s.handled|, Current(s));
    }
    assert Delivery(n);
    assert Completion(n);
  }

  lemma QueueCallInv(s: State)
    requires Inv(s) && Enabled(s, QueueCall)
    ensures Inv(AfterQueueCall(s))
  {
    hide Segment;
    assert Delivery(AfterQueueCall(s));
    assert Completion(AfterQueueCall(s));
  }

  lemma ReleaseTokenInv(s: State)
    requires Inv(s) && Enabled(s, ReleaseToken)
    ensures Inv(AfterReleaseToken(s))
  {
    hide Segment;
    assert Delivery(AfterReleaseToken(s));
    assert Completion(AfterReleaseToken(s));
  }

  lemma ResumeInv(s: State)
    requires Inv(s) && Enabled(s, Resume)
    ensures Inv(s.(pc := Idle))
  {
    hide Segment;
    assert Delivery(s.(pc := Idle));
    assert Completion(s.(pc := Idle));
  }

  lemma ProxyCallsInv(s: State)
    requires Inv(s) && Enabled(s, RunProxy) && s.stage == Queued(true)
    ensures Inv(AfterRunProxy(s))
  {
    SegmentAppend(|s.skipped|, Current(s));
    assert Delivery(AfterRunProxy(s));
    assert Completion(AfterRunProxy(s));
  }

  lemma ProxySkipsInv(s: State)
    requires Inv(s) && Enabled(s, RunProxy) && s.stage != Queued(true)
    ensures Inv(AfterRunProxy(s))
  {
    SegmentAppend(0, Current(s));
    assert Delivery(AfterRunProxy(s));
    assert Completion(AfterRunProxy(s));
  }

  lemma FinishInv(s: State)
    requires Inv(s) && (s.stage.Running? || s.stage.Fulfilled?)
    ensures Inv(Finish(s))
  {
    hide Segment;
    assert Delivery(Finish(s));
    assert Completion(Finish(s));
  }

  /** A handler that has not signalled changes its stage. */
  lemma StageInv(s: State, n: State)
    requires Inv(s) && (s.stage.Running? || s.stage.Pending?)
    requires n.stage.Pending? || n.stage.Fulfilled? || n.stage.Abandoned?
    requires n == s.(inHandler := false, stage := n.stage)
    ensures Inv(n)
  {
    hide Segment;
  }

  lemma ThreadInv(s: State, a: Step)
    requires Inv(s) && Enabled(s, a) && Hypothesis(s, a)
    requires a.Enter? || a.ReadPointer? || a.AcquireToken? || a.QueueCall? || a.ReleaseToken? || a.Resume?
    ensures Inv(Next(s, a))
  {
    hide Inv, AfterEnter, AfterReadPointer, AfterAcquireToken, AfterQueueCall, AfterReleaseToken;
    match a
    case Enter => EnterInv(s);
    case ReadPointer => ReadPointerInv(s);
    case AcquireToken => AcquireTokenInv(s);
    case QueueCall => QueueCallInv(s);
    case ReleaseToken => ReleaseTokenInv(s);
    case Resume => ResumeInv(s);
  }

  lemma HandlerInv(s: State, a: Step)
    requires Inv(s) && Enabled(s, a)
    requires a.RunProxy? || a.HandlerReturns? || a.HandlerThrows? || a.HandlerReturnsPromise?
             || a.PromiseFulfils? || a.PromiseRejects? || a.RunThen?
    ensures Inv(Next(s, a))
  {
    hide Tokens, Delivery, Completion, Finish, AfterRunProxy;
    match a
    case RunProxy => if s.stage == Queued(true) { ProxyCallsInv(s); } else { ProxySkipsInv(s); }
    case HandlerReturns => FinishInv(s);
    case HandlerThrows => StageInv(s, Next(s, a));
    case HandlerReturnsPromise => StageInv(s, Next(s, a));
    case PromiseFulfils => StageInv(s, Next(s, a));
    case PromiseRejects => StageInv(s, Next(s, a));
    case RunThen => FinishInv(s);
  }

  lemma StepInv(s: State, a: Step)
    requires Inv(s) && Enabled(s, a) && Hypothesis(s, a)
    ensures Inv(Next(s, a))
  {
    hide Inv, Next, Enabled, Hypothesis;
    if a.Enter? || a.ReadPointer? || a.AcquireToken? || a.QueueCall? || a.ReleaseToken? || a.Resume? {
      ThreadInv(s, a);
    } else if a.CloseFunction? || a.FinalizeFunction? {
      FunctionInv(s, a);
    } else if a.CreationFails? || a.CreateReader? || a.Publish? || a.CloseReader? || a.Forget? || a.Collect? {
      OwnerInv(s, a);
    } else {
      HandlerInv(s, a);
    }
  }

  lemma {:induction false} RunInv(s: State, steps: seq<Step>)
    requires Inv(s) && Legal(s, steps)
    ensures Inv(After(s, steps))
    decreases steps
  {
    hide Inv, Next, Enabled, Hypothesis;
    if steps == [] {
    } else {
      StepInv(s, steps[0]);
      RunInv(Next(s, steps[0]), steps[1..]);
    }
  }

  lemma ReachableInv(s: State)
    requires Reachable(s)
    ensures Inv(s)
  {
    hide Inv, Next;
    var steps: seq<Step> :| Legal(Init(), steps) && After(Init(), steps) == s;
    InitInv();
    RunInv(Init(), steps);
  }

  // ------------------------------------------------------------------ theorems

  /** For any timing of publication and close: the messages given to JavaScript are a contiguous
      segment of those dispatched. Those before it read a null pointer, those after it were refused
      by Acquire, and at most the message in flight is none of the three. */
  lemma DeliveredMessagesAreContiguous(s: State)
    requires Reachable(s)
    ensures
      var p, q := |s.skipped|, |s.skipped| + |s.handled|;
      var decided := q + |s.refused|;
      && s.dispatched - 1 <= decided <= s.dispatched
      && s.skipped == Segment(0, p) && s.handled == Segment(p, q) && s.refused == Segment(q, decided)
      && (decided < s.dispatched ==> !s.pc.Idle?)
      && (s.refused != [] ==> !s.tsfn.phase.Open? && !s.configOwns && !s.readerOwns)
  {
    ReachableInv(s);
  }

  lemma Members(s: State, m: nat)
    requires Delivery(s)
    ensures m in s.skipped <==> m < |s.skipped|
    ensures m in s.handled <==> |s.skipped| <= m < |s.skipped| + |s.handled|
  {
    var p, q := |s.skipped|, |s.skipped| + |s.handled|;
    assert m < p ==> s.skipped[m] == m;
    assert p <= m < q ==> s.handled[m - p] == m;
  }

  /** Completion fires exactly once for every skipped message and for every message whose handler
      returned or fulfilled, and never for another; the thread in flight resumes only after it. */
  lemma CompletionOnce(s: State, m: nat)
    requires Reachable(s)
    ensures s.completions[m] == Bit(m in s.skipped || m in s.finished)
    ensures m in s.finished ==> m in s.handled
    ensures m in s.handled && m !in s.finished ==> m == Current(s) && !s.pc.Idle?
    ensures Enabled(s, Resume) ==> s.completions[Current(s)] == 1
  {
    hide Segment;
    ReachableInv(s);
    Members(s, m);
  }

  /** The token, the record and the extra reference, over any number of closes. The only freed thing
      that can ever be used is a Reader collected too early (module ReaderLifetime says when). */
  lemma ReaderTokens(s: State)
    requires Reachable(s)
    ensures s.fault ==> s.stale && s.collected
    ensures s.tsfn.count == Bit(s.configOwns) + Bit(s.readerOwns) + Bit(HoldsToken(s.pc))
    ensures s.deletions <= 1
    ensures s.deletions == 1 ==> !s.configOwns && !s.readerOwns && (s.pc.Idle? || s.pc.AtWait?)
    ensures s.refs == Bit(s.readerOwns) && s.releases == Bit(s.phase.Published? && !s.readerOwns)
    ensures s.collected ==> !s.readerOwns
  {
    ReachableInv(s);
  }
}
