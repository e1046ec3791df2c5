/** The listener protocol read off its runs: what the steps of a run did with a call, with a thread's
    messages and with close, and that the state says exactly that. Nothing here is defined through
    what a step does to the state; a step is only asked which call or thread it is about. */
module ListenerRuns {
  import opened Common
  import opened ThreadSafeFunction
  import opened ListenerProtocol
  import opened ListenerInvariant
  import opened ListenerSafety
  import opened ListenerProgress

  // ------------------------------------------------------- what happens to a call

  datatype Deed =
    | Starts                     // the proxy calls the handler
    | Returns                    // the handler returns a plain value
    | Throws
    | Promises                   // the handler returns a promise
    | Settles(rejected: bool)
    | Reacts                     // catch and finally have run
    | Resumes                    // the listener thread has come back

  /** The call a step is about, and what it does with it. */
  function DeedOf(s: State, a: Step): Option<(nat, Deed)>
    requires Enabled(s, a)
  {
    match a
    case RunProxy => Some((s.tsfn.queue[0], Starts))
    case HandlerReturns => Some((s.handler.value, Returns))
    case HandlerThrows => Some((s.handler.value, Throws))
    case HandlerReturnsPromise => Some((s.handler.value, Promises))
    case SettlePromise(c, rejected) => Some((c, Settles(rejected)))
    case RunFinally(c) => Some((c, Reacts))
    case Resume(t) => Some((s.threads[t].call, Resumes))
    case _ => None
  }

  function DeedFor(s: State, a: Step, c: nat): seq<Deed>
    requires Enabled(s, a)
  {
    match DeedOf(s, a)
    case None => []
    case Some(d) => if d.0 == c then [d.1] else []
  }

  /** What a run did with call c, in order. */
  function Deeds(s: State, steps: seq<Step>, c: nat): seq<Deed>
    requires Legal(s, steps)
    decreases steps
  {
    if steps == [] then [] else DeedFor(s, steps[0], c) + Deeds(Next(s, steps[0]), steps[1..], c)
  }

  /** The only histories a call can have, and the stage each of them means. */
  predicate Tells(ds: seq<Deed>, st: Stage) {
    match st
    case Queued => ds == []
    case Running => ds == [Starts]
    case Pending => ds == [Starts, Promises]
    case Settled(rejected) => ds == [Starts, Promises, Settles(rejected)]
    case Signalled => IsOver(ds)
    case Freed => ds != [] && ds[|ds| - 1] == Resumes && IsOver(ds[..|ds| - 1])
  }

  /** The completion has been signalled: at once after a return or a throw, and after the reactions of a
      promise that was settled. */
  predicate IsOver(ds: seq<Deed>) {
    || ds == [Starts, Returns]
    || ds == [Starts, Throws]
    || ds == [Starts, Promises, Settles(false), Reacts]
    || ds == [Starts, Promises, Settles(true), Reacts]
  }

  predicate TellsAll(s: State, past: seq<Deed>, c: nat) {
    if c < |s.calls| then Tells(past, s.calls[c].stage) else past == []
  }

  lemma DeedAtStage(s: State, n: State, c: nat, past: seq<Deed>, d: Deed, from: Stage, to: Stage)
    requires c < |s.calls| && s.calls[c].stage == from && n.calls == WithStage(s.calls, c, to)
    requires Tells(past, from) ==> Tells(past + [d], to)
    requires TellsAll(s, past, c)
    ensures TellsAll(n, past + [d], c)
  {
  }

  lemma OtherCall(s: State, n: State, c: nat, e: nat, st: Stage, past: seq<Deed>)
    requires c < |s.calls| && n.calls == WithStage(s.calls, c, st) && e != c && TellsAll(s, past, e)
    ensures TellsAll(n, past, e)
  {
  }

  lemma Extends(past: seq<Deed>, rejected: bool)
    ensures Tells(past, Queued) ==> Tells(past + [Starts], Running)
    ensures Tells(past, Running) ==> Tells(past + [Returns], Signalled)
    ensures Tells(past, Running) ==> Tells(past + [Throws], Signalled)
    ensures Tells(past, Running) ==> Tells(past + [Promises], Pending)
    ensures Tells(past, Pending) ==> Tells(past + [Settles(rejected)], Settled(rejected))
    ensures Tells(past, Settled(rejected)) ==> Tells(past + [Reacts], Signalled)
    ensures Tells(past, Signalled) ==> Tells(past + [Resumes], Freed)
  {
    assert (past + [Resumes])[..|past|] == past;
  }

  /** One call moves on by one deed. */
  lemma Moves(s: State, n: State, c: nat, d: Deed, to: Stage, e: nat, past: seq<Deed>)
    requires c < |s.calls| && n.calls == WithStage(s.calls, c, to)
    requires match d
             case Starts => s.calls[c].stage == Queued && to == Running
             case Returns => s.calls[c].stage == Running && to == Signalled
             case Throws => s.calls[c].stage == Running && to == Signalled
             case Promises => s.calls[c].stage == Running && to == Pending
             case Settles(r) => s.calls[c].stage == Pending && to == Settled(r)
             case Reacts => s.calls[c].stage.Settled? && to == Signalled
             case Resumes => s.calls[c].stage == Signalled && to == Freed
    requires TellsAll(s, past, e)
    ensures TellsAll(n, past + if c == e then [d] else [], e)
  {
    hide Tells;
    if c == e {
      Extends(past, if d.Settles? then d.rejected else s.calls[c].stage.Settled? && s.calls[c].stage.rejected);
      DeedAtStage(s, n, c, past, d, s.calls[c].stage, to);
    } else {
      OtherCall(s, n, c, e, to, past);
      assert past + [] == past;
    }
  }

  lemma HandlingTells(s: State, a: Step, e: nat, past: seq<Deed>)
    requires Main(s) && Enabled(s, a) && Handling(a) && TellsAll(s, past, e)
    ensures TellsAll(Next(s, a), past + DeedFor(s, a, e), e)
  {
    hide TellsAll, Signal;
    match a
    case RunProxy => ProxyTells(s, e, past);
    case HandlerReturns => LeaveTells(s, false, e, past);
    case HandlerThrows => LeaveTells(s, true, e, past);
    case HandlerReturnsPromise => Moves(s, AfterHandlerReturnsPromise(s), s.handler.value, Promises, Pending, e, past);
    case SettlePromise(c, r) => Moves(s, AfterSettlePromise(s, c, r), c, Settles(r), Settled(r), e, past);
    case RunFinally(c) => FinallyTells(s, c, e, past);
  }

  lemma ProxyTells(s: State, e: nat, past: seq<Deed>)
    requires Main(s) && Enabled(s, RunProxy) && TellsAll(s, past, e)
    ensures TellsAll(AfterRunProxy(s), past + if s.tsfn.queue[0] == e then [Starts] else [], e)
  {
    hide TellsAll;
    assert HasStage(s, s.tsfn.queue[0], Queued);
    Moves(s, AfterRunProxy(s), s.tsfn.queue[0], Starts, Running, e, past);
  }

  /** The code signals at once, whether the handler returned or threw. */
  lemma LeaveTells(s: State, threw: bool, e: nat, past: seq<Deed>)
    requires Main(s) && s.handler.Some? && TellsAll(s, past, e)
    ensures TellsAll(LeaveHandler(s, threw),
                     past + if s.handler.value == e then [if threw then Throws else Returns] else [], e)
  {
    hide TellsAll;
    Moves(s, LeaveHandler(s, threw), s.handler.value, if threw then Throws else Returns, Signalled, e, past);
  }

  lemma FinallyTells(s: State, c: nat, e: nat, past: seq<Deed>)
    requires Enabled(s, RunFinally(c)) && TellsAll(s, past, e)
    ensures TellsAll(AfterRunFinally(s, c), past + if c == e then [Reacts] else [], e)
  {
    hide TellsAll;
    Moves(s, AfterRunFinally(s, c), c, Reacts, Signalled, e, past);
  }

  lemma ListeningTells(s: State, a: Step, e: nat, past: seq<Deed>)
    requires Enabled(s, a) && Listening(a) && TellsAll(s, past, e)
    ensures TellsAll(Next(s, a), past + DeedFor(s, a, e), e)
  {
    match a
    case Enter(_, _) => assert past + [] == past;
    case GetConsumer(_) => assert past + [] == past;
    case AcquireToken(_) => assert past + [] == past;
    case QueueCall(t) => assert past + [] == past;
    case ReleaseToken(_) => assert past + [] == past;
    case Resume(t) => Moves(s, AfterResume(s, t), s.threads[t].call, Resumes, Freed, e, past);
  }

  /** The other steps leave calls and log alone. */
  lemma WorkKeptElsewhere(s: State, a: Step)
    requires Core(s) && Enabled(s, a) && (Setup(a) || Teardown(a))
    ensures Next(s, a).calls == s.calls && Next(s, a).log == s.log
  {
    hide Core, Accounts, Next, Enabled;
    if Setup(a) { SetupAccounts(s, a); } else { TeardownAccounts(s, a); }
  }

  lemma NoDeedElsewhere(s: State, a: Step)
    requires Enabled(s, a) && (Setup(a) || Teardown(a))
    ensures DeedOf(s, a).None?
  {
  }

  lemma StepTells(s: State, a: Step, e: nat, past: seq<Deed>)
    requires Core(s) && Enabled(s, a) && TellsAll(s, past, e)
    ensures TellsAll(Next(s, a), past + DeedFor(s, a, e), e)
  {
    hide Accounts, Calls, Main, Histories, Next, Enabled, Tells, DeedOf;
    if Handling(a) {
      HandlingTells(s, a, e, past);
    } else if Listening(a) {
      ListeningTells(s, a, e, past);
    } else {
      WorkKeptElsewhere(s, a);
      NoDeedElsewhere(s, a);
      assert past + [] == past;
    }
  }

  lemma {:induction false} RunTells(s: State, steps: seq<Step>, c: nat, past: seq<Deed>)
    requires Inv(s) && Legal(s, steps) && TellsAll(s, past, c)
    ensures TellsAll(After(s, steps), past + Deeds(s, steps, c), c)
    decreases steps
  {
    hide Core, Guarded, Next, Enabled, Hypothesis, TellsAll, DeedFor;
    if steps == [] {
      assert past + [] == past;
    } else {
      var n := Next(s, steps[0]);
      StepInv(s, steps[0]);
      StepTells(s, steps[0], c, past);
      RunTells(n, steps[1..], c, past + DeedFor(s, steps[0], c));
      assert past + DeedFor(s, steps[0], c) + Deeds(n, steps[1..], c) == past + Deeds(s, steps, c);
    }
  }

  /** A call is in the stage that the run's own steps tell: it waits for a promise if and only if its
      handler returned one that was not settled since, it is settled as it was settled, and it is
      signalled at once when its handler returns or throws. */
  lemma StageIsWhatHappened(k: nat, steps: seq<Step>, c: nat)
    requires Legal(Init(k), steps) && c < |After(Init(k), steps).calls|
    ensures var st, ds := After(Init(k), steps).calls[c].stage, Deeds(Init(k), steps, c);
            && Tells(ds, st)
            && (st.Pending? <==> ds == [Starts, Promises])
            && (forall r :: st == Settled(r) <==> ds == [Starts, Promises, Settles(r)])
            && (ds == [Starts, Returns] || ds == [Starts, Throws] ==> st.Signalled?)
  {
    InitInv(k);
    RunTells(Init(k), steps, c, []);
    assert [] + Deeds(Init(k), steps, c) == Deeds(Init(k), steps, c);
  }

  // --------------------------------------------- handlers that return no promise

  predicate NoPromises(steps: seq<Step>) {
    forall i :: 0 <= i < |steps| ==> !steps[i].HandlerReturnsPromise?
  }

  lemma {:induction false} NothingPromised(s: State, steps: seq<Step>, c: nat)
    requires Legal(s, steps) && NoPromises(steps)
    ensures Promises !in Deeds(s, steps, c)
    decreases steps
  {
    hide Next, Enabled, Hypothesis;
    if steps == [] {
    } else {
      NoDeedPromises(s, steps[0], c);
      NothingPromised(Next(s, steps[0]), steps[1..], c);
    }
  }

  lemma NoDeedPromises(s: State, a: Step, c: nat)
    requires Enabled(s, a) && !a.HandlerReturnsPromise?
    ensures Promises !in DeedFor(s, a, c)
  {
  }

  lemma SecondDeed(ds: seq<Deed>)
    requires ds == [Starts, Promises]
    ensures Promises in ds
  {
    assert ds[1] == Promises;
  }

  /** If no handler returned a promise, a run that cannot be extended without input from outside has
      every thread back, and not by settling anything: there is nothing to settle. */
  lemma PlainHandlersResume(k: nat, steps: seq<Step>)
    requires Legal(Init(k), steps) && NoPromises(steps) && Quiet(After(Init(k), steps))
    ensures AllIdle(After(Init(k), steps))
  {
    hide Inv, Next, Hypothesis, Tells;
    var n := After(Init(k), steps);
    InitInv(k);
    RunInv(Init(k), steps);
    QuietState(n);
    forall t | 0 <= t < |n.threads| ensures n.threads[t].Idle? {
      if WaitsForUser(n, t) {
        var c := n.threads[t].call;
        StageIsWhatHappened(k, steps, c);
        NothingPromised(Init(k), steps, c);
        SecondDeed(Deeds(Init(k), steps, c));
      }
    }
  }

  // ------------------------------------------------------ the messages of a thread

  /** The messages dispatched on thread t, read off the steps. */
  function EnteredBy(steps: seq<Step>, t: nat): seq<Msg> {
    if steps == [] then []
    else (if steps[0].Enter? && steps[0].t == t then [steps[0].msg] else []) + EnteredBy(steps[1..], t)
  }

  /** The dispatches in a log. */
  function Arrivals(log: seq<Event>): seq<Msg> {
    if log == [] then []
    else Arrivals(log[..|log| - 1]) + if log[|log| - 1].Dispatched? then [log[|log| - 1].msg] else []
  }

  lemma {:induction false} ArrivalsConcat(a: seq<Event>, b: seq<Event>)
    ensures Arrivals(a + b) == Arrivals(a) + Arrivals(b)
    decreases b
  {
    if b == [] {
      assert a + b == a;
    } else {
      assert (a + b)[..|a + b| - 1] == a + b[..|b| - 1];
      ArrivalsConcat(a, b[..|b| - 1]);
    }
  }

  lemma OneMore(log: seq<Event>, e: Event)
    ensures Arrivals(log + [e]) == Arrivals(log) + if e.Dispatched? then [e.msg] else []
  {
    assert (log + [e])[..|log|] == log;
  }

  lemma BlockArrives(t: nat, m: Msg, k: nat)
    requires 1 <= k <= 4
    ensures Arrivals(Block(t, m)[..k]) == [m]
    decreases k
  {
    hide Arrivals;
    var b := Block(t, m);
    assert b[..k] == b[..k - 1] + [b[k - 1]];
    OneMore(b[..k - 1], b[k - 1]);
    if k == 1 {
      NothingArrives();
    } else {
      BlockArrives(t, m, k - 1);
    }
  }

  lemma NothingArrives()
    ensures Arrivals([]) == []
  {
  }

  lemma {:induction false} BlocksArrive(t: nat, msgs: seq<Msg>)
    ensures Arrivals(Blocks(t, msgs)) == msgs
  {
    hide Block;
    if msgs == [] {
    } else {
      var init, m := msgs[..|msgs| - 1], msgs[|msgs| - 1];
      BlocksArrive(t, init);
      ArrivalsConcat(Blocks(t, init), Block(t, m));
      BlockArrives(t, m, 4);
      WholeBlock(t, m);
    }
  }

  lemma WholeBlock(t: nat, m: Msg)
    ensures Block(t, m)[..4] == Block(t, m)
  {
  }

  /** The message a thread inside the listener is working on. */
  function InFlight(v: View): seq<Msg> {
    match v
    case Holding(m) => [m]
    case InHandler(m) => [m]
    case Done(m) => [m]
    case _ => []
  }

  lemma PartialArrives(t: nat, v: View)
    ensures Arrivals(Partial(t, v)) == InFlight(v)
  {
    hide Block;
    match v
    case Holding(m) => BlockArrives(t, m, 1);
    case InHandler(m) => BlockArrives(t, m, 2);
    case Done(m) => BlockArrives(t, m, 3);
    case _ =>
  }

  /** Only Enter adds a dispatch to the log, for the thread and message it is about. */
  lemma LogOfStep(s: State, a: Step, t: nat)
    requires Inv(s) && Enabled(s, a)
    ensures Arrivals(ThreadLog(Next(s, a).log, t)) == Arrivals(ThreadLog(s.log, t)) + EnteredBy([a], t)
  {
    hide Core, Guarded, Next, Enabled;
    assert [a][1..] == [];
    if Handling(a) {
      HandlingLog(s, a, t);
    } else if Listening(a) {
      ListeningLog(s, a, t);
    } else {
      WorkKeptElsewhere(s, a);
    }
  }

  lemma LogAppend(log: seq<Event>, e: Event, t: nat)
    ensures Arrivals(ThreadLog(log + [e], t)) ==
            Arrivals(ThreadLog(log, t)) + if e.Dispatched? && e.thread == t then [e.msg] else []
  {
    assert (log + [e])[..|log|] == log;
    var before := ThreadLog(log, t);
    if e.thread == t {
      assert (before + [e])[..|before|] == before;
    } else {
      assert before + [] == before;
    }
  }

  lemma HandlingLog(s: State, a: Step, t: nat)
    requires Inv(s) && Enabled(s, a) && Handling(a)
    ensures Arrivals(ThreadLog(Next(s, a).log, t)) == Arrivals(ThreadLog(s.log, t))
  {
    hide Accounts, Calls, Main, Histories, ThreadLog, Arrivals, Guarded;
    var c := WorkedOn(s, a);
    var call := s.calls[c];
    match a
    case RunProxy => LogAppend(s.log, Started(call.thread, call.msg), t);
    case HandlerReturns => LogAppend(s.log, Completed(call.thread, call.msg), t);
    case HandlerThrows => LogAppend(s.log, Completed(call.thread, call.msg), t);
    case HandlerReturnsPromise =>
    case SettlePromise(_, _) =>
    case RunFinally(_) => LogAppend(s.log, Completed(call.thread, call.msg), t);
  }

  lemma ListeningLog(s: State, a: Step, t: nat)
    requires Enabled(s, a) && Listening(a)
    ensures Arrivals(ThreadLog(Next(s, a).log, t)) == Arrivals(ThreadLog(s.log, t)) + EnteredBy([a], t)
  {
    hide ThreadLog, Arrivals;
    assert [a][1..] == [] && EnteredBy([], t) == [];
    match a
    case Enter(u, m) => LogAppend(s.log, Dispatched(u, m), t);
    case GetConsumer(_) =>
    case AcquireToken(u) => LogAppend(s.log, Dropped(u, s.threads[u].msg), t);
    case QueueCall(_) =>
    case ReleaseToken(_) =>
    case Resume(u) => LogAppend(s.log, Resumed(u, s.calls[s.threads[u].call].msg), t);
  }

  lemma EnteredFirst(steps: seq<Step>, t: nat)
    ensures EnteredBy([], t) == []
    ensures steps != [] ==> EnteredBy(steps, t) == EnteredBy([steps[0]], t) + EnteredBy(steps[1..], t)
  {
    if steps != [] {
      assert [steps[0]][1..] == [];
    }
  }

  lemma {:induction false} LogOfRun(s: State, steps: seq<Step>, t: nat)
    requires Inv(s) && Legal(s, steps)
    ensures Arrivals(ThreadLog(After(s, steps).log, t)) == Arrivals(ThreadLog(s.log, t)) + EnteredBy(steps, t)
    decreases steps
  {
    hide Inv, Next, Enabled, Hypothesis, ThreadLog, Arrivals, EnteredBy;
    EnteredFirst(steps, t);
    if steps == [] {
    } else {
      LogOfStep(s, steps[0], t);
      StepInv(s, steps[0]);
      LogOfRun(Next(s, steps[0]), steps[1..], t);
    }
  }

  /** Each thread has handled, completely and in order, all messages the run dispatched on it but the one
      it is working on. */
  lemma HandledAsDispatched(k: nat, steps: seq<Step>, t: nat) returns (handled: seq<Msg>)
    requires Legal(Init(k), steps) && t < |After(Init(k), steps).threads|
    ensures var s := After(Init(k), steps);
            && ThreadLog(s.log, t) == Blocks(t, handled) + Partial(t, ViewOf(s, t))
            && EnteredBy(steps, t) == handled + InFlight(ViewOf(s, t))
  {
    hide Inv, Next, Enabled, Hypothesis, Blocks, Partial, ThreadLog, Arrivals;
    var s := After(Init(k), steps);
    InitInv(k);
    LogOfRun(Init(k), steps, t);
    NoArrivals(t);
    handled := MessagesInOrder(s, t);
    ArrivalsConcat(Blocks(t, handled), Partial(t, ViewOf(s, t)));
    BlocksArrive(t, handled);
    PartialArrives(t, ViewOf(s, t));
  }

  lemma NoArrivals(t: nat)
    ensures Arrivals(ThreadLog([], t)) == []
  {
  }

  // -------------------------------------------------------------------- close

  /** The consumer is being cleaned up or has been. */
  predicate Closed(s: State) {
    s.consumer.Some? && (s.closing || !s.consumer.value.listener)
  }

  lemma StaysClosed(s: State, a: Step)
    requires Inv(s) && Closed(s) && Enabled(s, a)
    ensures Closed(Next(s, a))
  {
    hide Tokens, Life, Calls, Histories, Guarded;
    if Handling(a) {
      HandlingFrame(s, a);
    } else if Setup(a) {
      assert a.RunDeferred? ==> s.consumer.None?;
      SetupKeepsClosed(s, a);
    } else if Listening(a) {
      ListeningKeepsClosed(s, a);
    } else {
      TeardownKeepsClosed(s, a);
    }
  }

  lemma SetupKeepsClosed(s: State, a: Step)
    requires Closed(s) && Enabled(s, a) && Setup(a) && !a.RunDeferred?
    ensures Closed(Next(s, a))
  {
    match a
    case Configure(_) =>
    case RefuseConfig =>
    case ThrowConfig =>
    case Subscribe =>
    case ReturnFromNewInstance =>
    case CreateConsumer =>
    case SubscribeFails =>
    case SubscribeSucceeds =>
  }

  lemma ListeningKeepsClosed(s: State, a: Step)
    requires Closed(s) && Enabled(s, a) && Listening(a)
    ensures Closed(Next(s, a))
  {
    match a
    case Enter(_, _) =>
    case GetConsumer(_) =>
    case AcquireToken(_) =>
    case QueueCall(_) =>
    case ReleaseToken(_) =>
    case Resume(_) =>
  }

  lemma TeardownKeepsClosed(s: State, a: Step)
    requires Closed(s) && Enabled(s, a) && Teardown(a)
    ensures Closed(Next(s, a))
  {
    match a
    case CloseCall =>
    case FinishCleanup =>
    case Forget =>
    case Collect =>
    case CloseFunction =>
    case FinalizeFunction =>
  }

  lemma {:induction false} ClosedRun(s: State, steps: seq<Step>)
    requires Inv(s) && Closed(s) && Legal(s, steps)
    ensures Closed(After(s, steps))
    decreases steps
  {
    hide Inv, Closed, Next, Enabled, Hypothesis;
    if steps == [] {
    } else {
      StaysClosed(s, steps[0]);
      StepInv(s, steps[0]);
      ClosedRun(Next(s, steps[0]), steps[1..]);
    }
  }

  /** After a call of close, however many follow, the token has been given back and the reference
      dropped exactly once as soon as the main thread is out of Cleanup, and the listener stays gone. */
  lemma CloseReleasesOnce(s: State, steps: seq<Step>)
    requires Reachable(s) && Enabled(s, CloseCall) && Legal(Next(s, CloseCall), steps)
    requires !After(Next(s, CloseCall), steps).closing
    ensures var n := After(Next(s, CloseCall), steps);
            && n.consumer.Some? && !n.consumer.value.listener && n.consumer.value.refs == 0
            && n.consumer.value.releases == n.consumer.value.unrefs == Bit(n.record)
            && (n.record ==> n.paused)
  {
    hide Reachable, Inv, Next;
    ReachableInv(s);
    StepInv(s, CloseCall);
    assert Closed(Next(s, CloseCall)) by { assert Closed(AfterCloseCall(s)); CloseIsNext(s); }
    ClosedRun(Next(s, CloseCall), steps);
    RunInv(Next(s, CloseCall), steps);
    ObjectOf(After(Next(s, CloseCall), steps));
  }

  lemma CloseIsNext(s: State)
    requires Enabled(s, CloseCall)
    ensures Next(s, CloseCall) == AfterCloseCall(s)
  {
  }

  lemma ObjectOf(s: State)
    requires Inv(s)
    ensures Object(s)
  {
    hide Tokens, Phases, Object, Life, Work, Guarded, Sound;
  }

  // --------------------------------------------------------- while a handler runs

  /** A handler on the stack holds the consumer it was given. */
  predicate HandlerHolds(s: State) {
    s.handler.Some? && OpenConsumer(s) ==> s.consumer.value.reachable
  }

  lemma StepHolds(s: State, a: Step)
    requires Inv(s) && HandlerHolds(s) && Enabled(s, a)
    ensures HandlerHolds(Next(s, a))
  {
    hide Tokens, Life, Calls, Histories, Guarded, Sound;
    if a.RunProxy? {
      assert HasStage(s, s.tsfn.queue[0], Queued);
      assert HandlerHolds(AfterRunProxy(s));
    } else if Handling(a) {
      HandlingHolds(s, a);
    } else if Setup(a) {
      SetupAccounts(s, a);
      SetupHolds(s, a);
    } else if Listening(a) {
      ListeningHolds(s, a);
    } else {
      TeardownHolds(s, a);
    }
  }

  lemma HandlingHolds(s: State, a: Step)
    requires HandlerHolds(s) && Enabled(s, a) && Handling(a) && !a.RunProxy?
    ensures HandlerHolds(Next(s, a))
  {
    hide LeaveHandler, AfterHandlerReturnsPromise, AfterSettlePromise, AfterRunFinally;
    match a
    case HandlerReturns => StackIsEmpty(s, false);
    case HandlerThrows => StackIsEmpty(s, true);
    case HandlerReturnsPromise => PromiseLeaves(s);
    case SettlePromise(c, r) => StackIsKept(s, c, r);
    case RunFinally(c) => FinallyKeeps(s, c);
  }

  lemma SignalLeaves(s: State, c: nat, h: Option<nat>, logs: bool)
    requires c < |s.calls|
    ensures Signal(s, c, h, logs).handler == h
  {
  }

  lemma StackIsEmpty(s: State, threw: bool)
    requires s.handler.Some?
    ensures LeaveHandler(s, threw).handler.None?
  {
    hide Signal;
    if s.handler.value < |s.calls| {
      SignalLeaves(s, s.handler.value, None, threw);
    }
  }

  lemma PromiseLeaves(s: State)
    requires s.handler.Some?
    ensures AfterHandlerReturnsPromise(s).handler.None?
  {
    if s.handler.value < |s.calls| {
      PromiseInPlace(s);
    }
  }

  lemma PromiseInPlace(s: State)
    requires s.handler.Some? && s.handler.value < |s.calls|
    ensures AfterHandlerReturnsPromise(s).handler.None?
  {
  }

  lemma StackIsKept(s: State, c: nat, r: bool)
    requires c < |s.calls| && HandlerHolds(s)
    ensures HandlerHolds(AfterSettlePromise(s, c, r))
  {
  }

  lemma FinallyKeeps(s: State, c: nat)
    requires Enabled(s, RunFinally(c)) && HandlerHolds(s)
    ensures HandlerHolds(AfterRunFinally(s, c))
  {
  }

  lemma SetupHolds(s: State, a: Step)
    requires HandlerHolds(s) && Enabled(s, a) && Setup(a) && Next(s, a).handler == s.handler
    ensures HandlerHolds(Next(s, a))
  {
    hide BuildConsumer, SetListenerCallback;
    match a
    case Configure(_) =>
    case RefuseConfig =>
    case ThrowConfig =>
    case Subscribe =>
    case ReturnFromNewInstance =>
    case CreateConsumer =>
    case SubscribeFails =>
    case SubscribeSucceeds =>
    case RunDeferred =>
  }

  lemma ListeningHolds(s: State, a: Step)
    requires HandlerHolds(s) && Enabled(s, a) && Listening(a)
    ensures HandlerHolds(Next(s, a))
  {
    match a
    case Enter(_, _) =>
    case GetConsumer(_) =>
    case AcquireToken(_) =>
    case QueueCall(_) =>
    case ReleaseToken(_) =>
    case Resume(_) =>
  }

  lemma TeardownHolds(s: State, a: Step)
    requires HandlerHolds(s) && Enabled(s, a) && Teardown(a)
    ensures HandlerHolds(Next(s, a))
  {
    match a
    case CloseCall =>
    case FinishCleanup =>
    case Forget =>
    case Collect =>
    case CloseFunction =>
    case FinalizeFunction =>
  }

  /** The Consumer is not collected under a running handler: it was reachable when the handler was
      called, or gone before. */
  lemma {:induction false} HandlerHoldsConsumer(s: State, steps: seq<Step>)
    requires Inv(s) && HandlerHolds(s) && Legal(s, steps)
    ensures HandlerHolds(After(s, steps))
    decreases steps
  {
    hide Inv, HandlerHolds, Next, Enabled, Hypothesis;
    if steps == [] {
    } else {
      StepHolds(s, steps[0]);
      StepInv(s, steps[0]);
      HandlerHoldsConsumer(Next(s, steps[0]), steps[1..]);
    }
  }
}
