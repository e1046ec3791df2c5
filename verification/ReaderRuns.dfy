/** The reader's protocol read off its runs: which messages JavaScript is given, in terms of the order of
    the run's steps. */
module ReaderRuns {
  import opened Common
  import opened ThreadSafeFunction
  import opened ReaderProtocol

  /** How many messages read the record's pointer to the Reader before it was published. */
  function NullReads(steps: seq<Step>, published: bool): nat {
    if steps == [] then 0
    else Bit(steps[0].ReadPointer? && !published) + NullReads(steps[1..], published || steps[0].Publish?)
  }

  function Dispatches(steps: seq<Step>): nat {
    if steps == [] then 0 else Bit(steps[0].Enter?) + Dispatches(steps[1..])
  }

  /** How many messages have read the pointer. */
  function Reads(s: State): nat {
    if s.pc.Entered? && s.dispatched > 0 then s.dispatched - 1 else s.dispatched
  }

  /** b messages read null: skipped ones are among them, handled ones are not, and the message in flight
      carries the pointer it read. */
  predicate Sorted(s: State, b: nat) {
    && b <= Reads(s)
    && (!s.phase.Published? ==> b == Reads(s) && s.handled == [])
    && |s.skipped| <= b
    && (s.handled != [] ==> b <= |s.skipped|)
    && ((s.pc.AtAcquire? || s.pc.AtCall?) ==> (s.pc.reader <==> b <= Current(s)))
    && (!s.pc.Idle? && s.stage.Queued? ==> (s.stage.reader <==> b <= Current(s)))
  }

  lemma ThreadSorts(s: State, a: Step, b: nat)
    requires Tokens(s) && Flight(s) && Delivery(s) && Enabled(s, a) && Sorted(s, b)
    requires a.Enter? || a.ReadPointer? || a.AcquireToken? || a.QueueCall? || a.ReleaseToken? || a.Resume?
    ensures Sorted(Next(s, a), b + Bit(a.ReadPointer? && !s.phase.Published?))
  {
    hide Segment, Delivery, Tokens;
    match a
    case Enter =>
    case ReadPointer =>
    case AcquireToken =>
    case QueueCall =>
    case ReleaseToken =>
    case Resume =>
  }

  lemma HandlerSorts(s: State, a: Step, b: nat)
    requires Flight(s) && Delivery(s) && Enabled(s, a) && Sorted(s, b)
    requires a.HandlerReturns? || a.HandlerThrows? || a.HandlerReturnsPromise?
             || a.PromiseFulfils? || a.PromiseRejects? || a.RunThen?
    ensures Sorted(Next(s, a), b)
  {
    hide Segment, Delivery;
    match a
    case HandlerReturns =>
    case HandlerThrows =>
    case HandlerReturnsPromise =>
    case PromiseFulfils =>
    case PromiseRejects =>
    case RunThen =>
  }

  lemma ProxySorts(s: State, b: nat)
    requires Flight(s) && Delivery(s) && Enabled(s, RunProxy) && Sorted(s, b)
    ensures Sorted(AfterRunProxy(s), b)
  {
    hide Segment;
    assert s.stage.Queued?;
    if s.stage == Queued(true) {
    }
  }

  lemma OwnerSorts(s: State, a: Step, b: nat)
    requires Flight(s) && Enabled(s, a) && Sorted(s, b)
    requires a.CreationFails? || a.CreateReader? || a.Publish? || a.CloseReader? || a.Forget? || a.Collect?
             || a.CloseFunction? || a.FinalizeFunction?
    ensures Sorted(Next(s, a), b)
  {
    match a
    case CreationFails =>
    case CreateReader =>
    case Publish =>
    case CloseReader =>
    case Forget =>
    case Collect =>
    case CloseFunction =>
    case FinalizeFunction =>
  }

  lemma StepSorts(s: State, a: Step, b: nat)
    requires Inv(s) && Enabled(s, a) && Sorted(s, b)
    ensures Sorted(Next(s, a), b + Bit(a.ReadPointer? && !s.phase.Published?))
  {
    hide Tokens, Flight, Delivery, Completion, Sound, Sorted, Enabled, AfterRunProxy;
    if a.Enter? || a.ReadPointer? || a.AcquireToken? || a.QueueCall? || a.ReleaseToken? || a.Resume? {
      ThreadSorts(s, a, b);
    } else if a.RunProxy? {
      ProxySorts(s, b);
    } else if a.HandlerReturns? || a.HandlerThrows? || a.HandlerReturnsPromise? || a.PromiseFulfils?
              || a.PromiseRejects? || a.RunThen? {
      HandlerSorts(s, a, b);
    } else {
      OwnerSorts(s, a, b);
    }
  }

  /** Only Publish publishes, for good, and only Enter dispatches. */
  lemma PublishedBy(s: State, a: Step)
    requires Enabled(s, a)
    ensures Next(s, a).phase.Published? <==> s.phase.Published? || a.Publish?
    ensures Next(s, a).dispatched == s.dispatched + Bit(a.Enter?)
  {
    match a
    case CreationFails =>
    case CreateReader =>
    case Publish =>
    case Enter =>
    case ReadPointer =>
    case AcquireToken =>
    case QueueCall =>
    case ReleaseToken =>
    case Resume =>
    case RunProxy =>
    case HandlerReturns =>
    case HandlerThrows =>
    case HandlerReturnsPromise =>
    case PromiseFulfils =>
    case PromiseRejects =>
    case RunThen =>
    case CloseReader =>
    case Forget =>
    case Collect =>
    case CloseFunction =>
    case FinalizeFunction =>
  }

  lemma {:induction false} RunSorts(s: State, steps: seq<Step>, b: nat)
    requires Inv(s) && Legal(s, steps) && Sorted(s, b)
    ensures Sorted(After(s, steps), b + NullReads(steps, s.phase.Published?))
    ensures After(s, steps).dispatched == s.dispatched + Dispatches(steps)
    decreases steps
  {
    hide Inv, Sorted, Next, Enabled, Hypothesis;
    if steps == [] {
    } else {
      StepSorts(s, steps[0], b);
      PublishedBy(s, steps[0]);
      StepInv(s, steps[0]);
      RunSorts(Next(s, steps[0]), steps[1..], b + Bit(steps[0].ReadPointer? && !s.phase.Published?));
    }
  }

  /** In terms of the run's own steps: of the messages it dispatched, every one that was proxied before it
      was refused is skipped if it read the pointer before Publish, and given to JavaScript otherwise. */
  lemma HandledIffReadAfterPublish(steps: seq<Step>, m: nat)
    requires Legal(Init(), steps)
    ensures
      var s := After(Init(), steps);
      && s.dispatched == Dispatches(steps)
      && (m in s.skipped ==> m < NullReads(steps, false))
      && (m in s.handled ==> NullReads(steps, false) <= m)
      && (m < s.dispatched ==>
            m in s.skipped || m in s.handled || m in s.refused || (m == Current(s) && !s.pc.Idle?))
  {
    hide Inv, Next, Enabled, Hypothesis, Segment;
    var s := After(Init(), steps);
    InitInv();
    RunInv(Init(), steps);
    assert Sorted(Init(), 0);
    RunSorts(Init(), steps, 0);
    Where(s, m);
  }

  /** Every dispatched message is in one of the segments, or in flight. */
  lemma Where(s: State, m: nat)
    requires Inv(s)
    ensures m in s.skipped <==> m < |s.skipped|
    ensures m in s.handled ==> s.handled != [] && |s.skipped| <= m
    ensures m < s.dispatched ==>
              m in s.skipped || m in s.handled || m in s.refused || (m == Current(s) && !s.pc.Idle?)
  {
    hide Tokens, Completion, Sound;
    Members(s, m);
    var q := |s.skipped| + |s.handled|;
    assert q <= m < q + |s.refused| ==> s.refused[m - q] == m;
  }

  // -------------------------------------------------------------------- close

  /** Once closed, the reader has given its token back for good, exactly once. */
  lemma {:induction false} CloseReleasesOnce(s: State, steps: seq<Step>)
    requires Inv(s) && s.phase.Published? && !s.readerOwns && Legal(s, steps)
    ensures var n := After(s, steps); !n.readerOwns && n.refs == 0 && n.releases == 1
    decreases steps
  {
    hide Next, Enabled, Hypothesis, Flight, Delivery, Completion, Sound;
    if steps == [] {
    } else {
      StaysReleased(s, steps[0]);
      PublishedBy(s, steps[0]);
      StepInv(s, steps[0]);
      CloseReleasesOnce(Next(s, steps[0]), steps[1..]);
    }
  }

  lemma StaysReleased(s: State, a: Step)
    requires s.phase.Published? && !s.readerOwns && Enabled(s, a)
    ensures !Next(s, a).readerOwns
  {
    match a
    case Enter =>
    case ReadPointer =>
    case AcquireToken =>
    case QueueCall =>
    case ReleaseToken =>
    case Resume =>
    case RunProxy =>
    case HandlerReturns =>
    case HandlerThrows =>
    case HandlerReturnsPromise =>
    case PromiseFulfils =>
    case PromiseRejects =>
    case RunThen =>
    case CloseReader =>
    case Forget =>
    case Collect =>
    case CloseFunction =>
    case FinalizeFunction =>
  }

  lemma CloseReleases(s: State)
    requires Enabled(s, CloseReader)
    ensures Next(s, CloseReader).phase.Published? && !Next(s, CloseReader).readerOwns
  {
  }
}
