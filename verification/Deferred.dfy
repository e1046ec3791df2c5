/** src/ThreadSafeDeferred.cc: a promise that any thread may settle and that the
    main thread hands to JavaScript from the finalizer of a thread-safe function.

    The class at the end is the object itself. The step system in the middle runs
    its methods statement by statement, with any number of threads, and is shown
    to behave like an atomic one-shot promise. */
module Deferred {
  import opened Common
  import opened ThreadSafeFunction

  // ---------------------------------------------------------------- the object

  datatype Fate = Unresolved | Resolved | Rejected

  /** What a caller asks for, and equally what the JavaScript promise ends with. */
  datatype Outcome = Undefined | Value(resolver: nat) | Error(message: string)

  /** The fields of one ThreadSafeDeferred. `self` is the shared pointer to itself. */
  datatype Core = Core(
    fate: Fate,
    createValueCb: Option<nat>,
    errorMsg: string,
    tsf: Tsfn<nat>,
    self: bool)

  function Fresh(): Core {
    Core(Unresolved, None, "", Create(0, 1), true)
  }

  function FateOf(o: Outcome): Fate {
    if o.Error? then Rejected else Resolved
  }

  /** The first write of Resolve and Reject: the value callback or the message. */
  function StoreValue(d: Core, o: Outcome): Core {
    match o
    case Undefined => d
    case Value(r) => d.(createValueCb := Some(r))
    case Error(m) => d.(errorMsg := m)
  }

  function StoreFate(d: Core, o: Outcome): Core {
    d.(fate := FateOf(o))
  }

  /** What the finalizer gives to the JavaScript promise. */
  function Settlement(d: Core): Outcome {
    if d.fate.Resolved? then
      if d.createValueCb.None? then Undefined else Value(d.createValueCb.value)
    else Error(d.errorMsg)
  }

  /** Resolve or Reject as one uninterrupted call that passed its check. */
  function Decide(d: Core, o: Outcome): Core {
    var e := StoreFate(StoreValue(d, o), o);
    e.(tsf := Release(e.tsf).1)
  }

  // ----------------------------------------------------------- the step system

  /** Where a thread stands inside Resolve or Reject, after the check has passed. */
  datatype Pc = AtValue | AtFate | AtRelease

  datatype InCall = InCall(outcome: Outcome, pc: Pc)

  /** `owners` counts the shared pointers outside the object, one per thread inside a call
      among them. `calls` lists the outcomes of the calls that passed the check, `settlements`
      and `resolverRuns` what the finalizer did, `fault` whether anything was touched after it
      was freed, released too often or settled twice. */
  datatype State = State(
    core: Core,
    owners: nat,
    callers: map<nat, InCall>,
    calls: seq<Outcome>,
    refused: nat,
    settlements: seq<Outcome>,
    resolverRuns: seq<nat>,
    releases: nat,
    fault: bool)

  datatype Step =
    | Share
    | Drop
    | Begin(thread: nat, outcome: Outcome)
    | WriteValue(thread: nat)
    | WriteFate(thread: nat)
    | ReleaseToken(thread: nat)
    | CloseFunction
    | RunFinalizer

  /** ThreadSafeDeferred::New. */
  function Init(): State {
    State(Fresh(), 1, map[], [], 0, [], [], 0, false)
  }

  predicate Alive(s: State) {
    s.owners > 0 || s.core.self
  }

  predicate At(s: State, t: nat, pc: Pc) {
    t in s.callers && s.callers[t].pc == pc
  }

  predicate Enabled(s: State, a: Step) {
    match a
    case Share => s.owners > 0
    case Drop => s.owners > |s.callers|
    case Begin(t, _) => t !in s.callers && s.owners > |s.callers|
    case WriteValue(t) => At(s, t, AtValue)
    case WriteFate(t) => At(s, t, AtFate)
    case ReleaseToken(t) => At(s, t, Pc.AtRelease)
    case CloseFunction => CanClose(s.core.tsf)
    case RunFinalizer => CanFinalize(s.core.tsf)
  }

  /** The environment's promise: each callback fires once, so that no call begins while another one
      is under way that has not written its fate yet. */
  predicate Serial(s: State, a: Step) {
    a.Begin? ==> s.callers == map[] || s.core.fate != Unresolved
  }

  function Next(s: State, a: Step): State
    requires Enabled(s, a)
  {
    match a
    case Share => s.(owners := s.owners + 1)
    case Drop => s.(owners := s.owners - 1)
    case Begin(t, o) =>
      if s.core.fate != Unresolved then s.(refused := s.refused + 1, fault := s.fault || !Alive(s))
      else s.(callers := s.callers[t := InCall(o, AtValue)], calls := s.calls + [o],
              fault := s.fault || !Alive(s))
    case WriteValue(t) =>
      var c := s.callers[t];
      s.(core := StoreValue(s.core, c.outcome), callers := s.callers[t := c.(pc := AtFate)],
         fault := s.fault || !Alive(s))
    case WriteFate(t) =>
      var c := s.callers[t];
      s.(core := StoreFate(s.core, c.outcome), callers := s.callers[t := c.(pc := Pc.AtRelease)],
         fault := s.fault || !Alive(s))
    case ReleaseToken(t) =>
      var (status, f) := Release(s.core.tsf);
      s.(core := s.core.(tsf := f), callers := s.callers - {t}, releases := s.releases + 1,
         fault := s.fault || !Alive(s) || status != Ok)
    case CloseFunction => s.(core := s.core.(tsf := Close(s.core.tsf)))
    case RunFinalizer =>
      var o := Settlement(s.core);
      s.(core := s.core.(tsf := Finalize(s.core.tsf), self := false),
         settlements := s.settlements + [o],
         resolverRuns := s.resolverRuns + (if o.Value? then [o.resolver] else []),
         fault := s.fault || !Alive(s) || s.settlements != [])
  }

  /** A run whose calls do not overlap before a fate is written. */
  predicate Legal(s: State, steps: seq<Step>)
    decreases steps
  {
    steps != [] ==>
      Enabled(s, steps[0]) && Serial(s, steps[0]) && Legal(Next(s, steps[0]), steps[1..])
  }

  function After(s: State, steps: seq<Step>): State
    requires Legal(s, steps)
    decreases steps
  {
    if steps == [] then s else After(Next(s, steps[0]), steps[1..])
  }

  // ------------------------------------------------------------- the invariant

  predicate Untouched(s: State) {
    && s.core == Fresh()
    && s.callers == map[]
    && s.settlements == [] && s.resolverRuns == [] && s.releases == 0
  }

  predicate InProgress(s: State, t: nat)
    requires |s.calls| == 1
  {
    var o := s.calls[0];
    var stored := StoreValue(Fresh(), o);
    && t in s.callers && s.callers == map[t := s.callers[t]]
    && s.callers[t].outcome == o
    && s.settlements == [] && s.resolverRuns == [] && s.releases == 0
    && s.core == match s.callers[t].pc
                 case AtValue => Fresh()
                 case AtFate => stored
                 case AtRelease => StoreFate(stored, o)
  }

  predicate Decided(s: State)
    requires |s.calls| == 1
  {
    var o := s.calls[0];
    var d := Decide(Fresh(), o);
    && s.callers == map[]
    && s.releases == 1
    && s.core == d.(tsf := d.tsf.(phase := s.core.tsf.phase), self := !s.core.tsf.phase.Finalized?)
    && (if s.core.tsf.phase.Finalized? then
          && s.settlements == [o]
          && s.resolverRuns == (if o.Value? then [o.resolver] else [])
        else s.settlements == [] && s.resolverRuns == [])
  }

  ghost predicate Inv(s: State) {
    && !s.fault
    && |s.calls| <= 1
    && |s.callers| <= s.owners
    && if s.calls == [] then Untouched(s) else (exists t :: InProgress(s, t)) || Decided(s)
  }

  lemma InitInv()
    ensures Inv(Init())
  {
  }

  lemma StepFromUntouched(s: State, a: Step)
    requires Inv(s) && s.calls == [] && Enabled(s, a)
    ensures Inv(Next(s, a))
  {
    if a.Begin? {
      assert Next(s, a).callers == map[a.thread := InCall(a.outcome, AtValue)];
      assert InProgress(Next(s, a), a.thread);
    }
  }

  lemma StepInProgress(s: State, t: nat, a: Step)
    requires Inv(s) && s.calls != [] && InProgress(s, t) && Enabled(s, a) && Serial(s, a)
    ensures Inv(Next(s, a))
  {
    var n := Next(s, a);
    assert |s.callers| == 1;
    match a
    case Share => assert InProgress(n, t);
    case Drop => assert InProgress(n, t);
    case Begin(_, _) => assert InProgress(n, t);
    case WriteValue(_) =>
      assert n.callers == map[t := n.callers[t]];
      assert InProgress(n, t);
    case WriteFate(_) =>
      assert n.callers == map[t := n.callers[t]];
      assert InProgress(n, t);
    case ReleaseToken(_) =>
      assert n.callers == map[];
      assert Decided(n);
    case _ => assert false;
  }

  lemma StepFromDecided(s: State, a: Step)
    requires Inv(s) && s.calls != [] && Decided(s) && Enabled(s, a)
    ensures Inv(Next(s, a))
  {
    assert Decided(Next(s, a));
  }

  lemma StepInv(s: State, a: Step)
    requires Inv(s) && Enabled(s, a) && Serial(s, a)
    ensures Inv(Next(s, a))
  {
    if s.calls == [] {
      StepFromUntouched(s, a);
    } else if t :| InProgress(s, t) {
      StepInProgress(s, t, a);
    } else {
      StepFromDecided(s, a);
    }
  }

  lemma {:induction false} RunInv(s: State, steps: seq<Step>)
    requires Inv(s) && Legal(s, steps)
    ensures Inv(After(s, steps))
    decreases steps
  {
    if steps == [] {
    } else {
      StepInv(s, steps[0]);
      RunInv(Next(s, steps[0]), steps[1..]);
    }
  }

  // ------------------------------------------- refinement of a one-shot promise

  /** The specification: decided once, then settled with what was decided. */
  datatype Promise = Pending | Chosen(outcome: Outcome) | Fulfilled(outcome: Outcome)

  predicate PromiseStep(p: Promise, q: Promise) {
    || p == q
    || (p.Pending? && q.Chosen?)
    || (p.Chosen? && q == Fulfilled(p.outcome))
  }

  function Abstract(s: State): Promise {
    if s.calls == [] then Pending
    else if s.core.tsf.phase.Finalized? then Fulfilled(s.calls[0])
    else Chosen(s.calls[0])
  }

  /** The first Resolve or Reject of a run, read off the run itself. */
  function FirstCall(steps: seq<Step>): Option<Outcome> {
    if steps == [] then None
    else if steps[0].Begin? then Some(steps[0].outcome)
    else FirstCall(steps[1..])
  }

  /** A call passes its check only if it is the first, and only the finalizer finalizes. */
  lemma CallsAndPhase(s: State, a: Step)
    requires Inv(s) && Enabled(s, a)
    ensures Next(s, a).calls == if a.Begin? && s.core.fate.Unresolved? then s.calls + [a.outcome] else s.calls
    ensures a.Begin? && s.calls != [] && Serial(s, a) ==> !s.core.fate.Unresolved?
    ensures a.RunFinalizer? ==> s.calls != [] && !s.core.tsf.phase.Finalized?
    ensures !a.RunFinalizer? ==> (Next(s, a).core.tsf.phase.Finalized? <==> s.core.tsf.phase.Finalized?)
  {
    match a
    case Share =>
    case Drop =>
    case Begin(_, _) =>
    case WriteValue(_) =>
    case WriteFate(_) =>
    case ReleaseToken(_) =>
    case CloseFunction =>
    case RunFinalizer =>
  }

  /** Each step of the code is a step of the promise or invisible. */
  lemma StepRefines(s: State, a: Step)
    requires Inv(s) && Enabled(s, a) && Serial(s, a)
    ensures PromiseStep(Abstract(s), Abstract(Next(s, a)))
    ensures Next(s, a).settlements ==
            if Abstract(Next(s, a)).Fulfilled? then [Abstract(Next(s, a)).outcome] else []
  {
    hide Next;
    StepInv(s, a);
    CallsAndPhase(s, a);
  }

  lemma {:induction false} CallsOfRun(s: State, steps: seq<Step>)
    requires Inv(s) && Legal(s, steps)
    ensures s.calls != [] ==> After(s, steps).calls == s.calls
    ensures s.calls == [] ==>
              After(s, steps).calls == match FirstCall(steps) case None => [] case Some(o) => [o]
    decreases steps
  {
    if steps == [] {
    } else {
      StepInv(s, steps[0]);
      CallsOfRun(Next(s, steps[0]), steps[1..]);
    }
  }

  /** Over every run: nothing is touched after it is freed, the JavaScript promise is settled at
      most once and with the outcome of the first call of the run, the function's single token is
      released at most once, the resolver runs exactly when the promise is fulfilled by it, and
      the object is alive until its finalizer has run. */
  lemma RunRefinesPromise(steps: seq<Step>)
    requires Legal(Init(), steps)
    ensures
      var s := After(Init(), steps);
      var first := FirstCall(steps);
      && !s.fault
      && (s.settlements == [] || (first.Some? && s.settlements == [first.value]))
      && s.releases <= 1
      && s.resolverRuns == (if s.settlements != [] && first.value.Value? then [first.value.resolver] else [])
      && (Alive(s) || s.settlements != [])
      && (s.core.tsf.phase.Finalized? <==> s.settlements != [])
      && Abstract(s) == (match first
                         case None => Pending
                         case Some(o) => if s.settlements == [] then Chosen(o) else Fulfilled(o))
  {
    InitInv();
    RunInv(Init(), steps);
    CallsOfRun(Init(), steps);
  }

  /** A deferred that nobody decides keeps its token and itself for good. */
  lemma UndecidedForGood(steps: seq<Step>)
    requires Legal(Init(), steps) && FirstCall(steps).None?
    ensures var s := After(Init(), steps);
            s.core == Fresh() && Alive(s) && s.settlements == [] && s.releases == 0
  {
    InitInv();
    RunInv(Init(), steps);
    CallsOfRun(Init(), steps);
  }

  /** How many steps the code itself still has to take. */
  ghost function Remaining(s: State): nat {
    (match s.core.tsf.phase case Open => 2 case ClosingDown => 1 case Finalized => 0)
    + if s.callers == map[] then 0
      else if exists t :: At(s, t, AtValue) then 3
      else if exists t :: At(s, t, AtFate) then 2
      else 1
  }

  predicate Internal(a: Step) {
    a.WriteValue? || a.WriteFate? || a.ReleaseToken? || a.CloseFunction? || a.RunFinalizer?
  }

  lemma RemainingInCall(s: State, t: nat)
    requires t in s.callers && s.callers == map[t := s.callers[t]]
    ensures Remaining(s) == (match s.core.tsf.phase case Open => 2 case ClosingDown => 1 case Finalized => 0)
                            + (match s.callers[t].pc case AtValue => 3 case AtFate => 2 case AtRelease => 1)
  {
    assert At(s, t, s.callers[t].pc);
  }

  lemma CallEnds(s: State, t: nat, a: Step)
    requires s.calls != [] && |s.calls| == 1 && InProgress(s, t) && Enabled(s, a) && Internal(a)
    ensures Remaining(Next(s, a)) < Remaining(s)
  {
    hide Remaining;
    var n := Next(s, a);
    RemainingInCall(s, t);
    if a.ReleaseToken? {
      assert n.callers == map[];
      RemainingOutside(n);
    } else {
      assert n.callers == map[t := n.callers[t]];
      RemainingInCall(n, t);
    }
  }

  lemma RemainingOutside(s: State)
    requires s.callers == map[]
    ensures Remaining(s) == match s.core.tsf.phase case Open => 2 case ClosingDown => 1 case Finalized => 0
  {
  }

  /** Nothing the code does is repeated forever. */
  lemma InternalStepsEnd(s: State, a: Step)
    requires Inv(s) && Enabled(s, a) && Internal(a)
    ensures Remaining(Next(s, a)) < Remaining(s)
  {
    hide Remaining;
    if s.calls != [] && exists t :: InProgress(s, t) {
      var t :| InProgress(s, t);
      CallEnds(s, t, a);
    } else {
      RemainingOutside(s);
      RemainingOutside(Next(s, a));
    }
  }

  /** A promise that was decided is not left hanging: either the code has a step to take or the
      promise has been settled. */
  lemma DecidedIsDelivered(s: State)
    requires Inv(s) && s.calls != []
    requires forall a :: Internal(a) ==> !Enabled(s, a)
    ensures s.settlements == [s.calls[0]]
  {
    if exists t :: InProgress(s, t) {
      var t :| InProgress(s, t);
      assert Enabled(s, WriteValue(t)) || Enabled(s, WriteFate(t)) || Enabled(s, ReleaseToken(t));
      assert Internal(WriteValue(t)) && Internal(WriteFate(t)) && Internal(ReleaseToken(t));
      assert false;
    } else {
      assert Decided(s);
      assert Internal(CloseFunction) && Internal(RunFinalizer);
    }
  }

  // -------------------------------------------------------- why calls are serial

  /** The three steps that complete a call which has passed its check. */
  function Finish(t: nat, pc: Pc): seq<Step> {
    match pc
    case AtValue => [WriteValue(t), WriteFate(t), ReleaseToken(t)]
    case AtFate => [WriteFate(t), ReleaseToken(t)]
    case AtRelease => [ReleaseToken(t)]
  }

  /** Runs with no promise from the environment. */
  predicate Possible(s: State, steps: seq<Step>)
    decreases steps
  {
    steps != [] ==> Enabled(s, steps[0]) && Possible(Next(s, steps[0]), steps[1..])
  }

  function Reached(s: State, steps: seq<Step>): State
    requires Possible(s, steps)
    decreases steps
  {
    if steps == [] then s else Reached(Next(s, steps[0]), steps[1..])
  }

  /** Completing one call, whatever the other threads have done. */
  lemma FinishReached(s: State, t: nat)
    requires t in s.callers
    ensures Possible(s, Finish(t, s.callers[t].pc))
    ensures var n := Reached(s, Finish(t, s.callers[t].pc));
            && n.callers == s.callers - {t}
            && n.core.tsf == Release(s.core.tsf).1
            && n.releases == s.releases + 1
            && (s.fault || Release(s.core.tsf).0 != Ok ==> n.fault)
  {
    match s.callers[t].pc
    case AtRelease =>
      assert Reached(s, [ReleaseToken(t)]) == Reached(Next(s, ReleaseToken(t)), []);
    case AtFate =>
      var s1 := Next(s, WriteFate(t));
      assert [WriteFate(t), ReleaseToken(t)][1..] == [ReleaseToken(t)];
      FinishReached1(s1, t);
    case AtValue =>
      var s1 := Next(s, WriteValue(t));
      assert [WriteValue(t), WriteFate(t), ReleaseToken(t)][1..] == [WriteFate(t), ReleaseToken(t)];
      var s2 := Next(s1, WriteFate(t));
      assert [WriteFate(t), ReleaseToken(t)][1..] == [ReleaseToken(t)];
      FinishReached1(s2, t);
      assert Possible(s1, [WriteFate(t), ReleaseToken(t)]);
  }

  lemma FinishReached1(s: State, t: nat)
    requires At(s, t, Pc.AtRelease)
    ensures Possible(s, [ReleaseToken(t)])
    ensures Reached(s, [ReleaseToken(t)]) == Next(s, ReleaseToken(t))
  {
    assert Reached(s, [ReleaseToken(t)]) == Reached(Next(s, ReleaseToken(t)), []);
  }

  lemma {:induction false} PossibleConcat(s: State, first: seq<Step>, second: seq<Step>)
    requires Possible(s, first) && Possible(Reached(s, first), second)
    ensures Possible(s, first + second)
    ensures Reached(s, first + second) == Reached(Reached(s, first), second)
    decreases first
  {
    if first == [] {
      assert first + second == second;
    } else {
      assert (first + second)[1..] == first[1..] + second;
      PossibleConcat(Next(s, first[0]), first[1..], second);
    }
  }

  /** The environment's promise is needed, and exactly it (StepInv is the other half): whenever a
      call begins against it, it passes its check, and completing both releases the token twice. */
  lemma OverlapFaults(s: State, u: nat, o: Outcome) returns (rest: seq<Step>)
    requires Inv(s) && Enabled(s, Begin(u, o)) && !Serial(s, Begin(u, o))
    ensures Possible(Next(s, Begin(u, o)), rest)
    ensures Reached(Next(s, Begin(u, o)), rest).fault
  {
    hide Finish, Reached, Possible;
    var n := Next(s, Begin(u, o));
    var t :| t in s.callers;
    var one := Finish(t, n.callers[t].pc);
    FinishReached(n, t);
    var m := Reached(n, one);
    var two := Finish(u, m.callers[u].pc);
    FinishReached(m, u);
    PossibleConcat(n, one, two);
    rest := one + two;
  }

  // ------------------------------------------------------------------ the class

  class ThreadSafeDeferred {
    var fate: Fate
    var createValueCb: Option<nat>
    var errorMsg: string
    var tsf: Tsfn<nat>
    var self: bool
    var settled: seq<Outcome>

    ghost function View(): Core
      reads this
    {
      Core(fate, createValueCb, errorMsg, tsf, self)
    }

    constructor New()
      ensures View() == Fresh() && settled == []
    {
      fate, createValueCb, errorMsg := Unresolved, None, "";
      tsf, self := Create(0, 1), true;
      settled := [];
    }

    method Resolve() returns (threw: bool)
      modifies this
      ensures threw <==> old(fate) != Unresolved
      ensures View() == if threw then old(View()) else Decide(old(View()), Undefined)
      ensures settled == old(settled)
    {
      if fate != Unresolved {
        return true;
      }
      fate := Resolved;
      tsf := Release(tsf).1;
      return false;
    }

    method ResolveWith(resolver: nat) returns (threw: bool)
      modifies this
      ensures threw <==> old(fate) != Unresolved
      ensures View() == if threw then old(View()) else Decide(old(View()), Value(resolver))
      ensures settled == old(settled)
    {
      if fate != Unresolved {
        return true;
      }
      createValueCb := Some(resolver);
      fate := Resolved;
      tsf := Release(tsf).1;
      return false;
    }

    method Reject(message: string) returns (threw: bool)
      modifies this
      ensures threw <==> old(fate) != Unresolved
      ensures View() == if threw then old(View()) else Decide(old(View()), Error(message))
      ensures settled == old(settled)
    {
      if fate != Unresolved {
        return true;
      }
      errorMsg := message;
      fate := Rejected;
      tsf := Release(tsf).1;
      return false;
    }

    method IsDone() returns (done: bool)
      ensures done <==> fate != Unresolved
    {
      done := fate == Resolved || fate == Rejected;
    }

    /** The lambda given to the thread-safe function, run by the main thread. `throws` says whether
        the value callback, if it is called, throws: then nothing is settled and the object keeps
        itself alive. */
    method RunFinalizer(throws: bool)
      requires CanFinalize(tsf)
      modifies this
      ensures var calls := old(fate == Resolved && createValueCb.Some?);
              if calls && throws then
                settled == old(settled) && View() == old(View()).(tsf := Finalize(old(tsf)))
              else
                && settled == old(settled) + [old(Settlement(View()))]
                && View() == old(View()).(tsf := Finalize(old(tsf)), self := false)
    {
      tsf := Finalize(tsf);
      if fate == Resolved {
        if createValueCb == None {
          settled := settled + [Undefined];
        } else {
          if throws {
            return;
          }
          settled := settled + [Value(createValueCb.value)];
        }
      } else {
        settled := settled + [Error(errorMsg)];
      }
      self := false;
    }
  }

  lemma CallFinishes(s: State, t: nat)
    requires At(s, t, AtValue)
    ensures Legal(s, Finish(t, AtValue))
    ensures After(s, Finish(t, AtValue)).core == Decide(s.core, s.callers[t].outcome)
  {
    var steps := Finish(t, AtValue);
    var s1 := Next(s, steps[0]);
    var s2 := Next(s1, steps[1]);
    var s3 := Next(s2, steps[2]);
    assert steps[1..][1..][1..] == [];
    assert Legal(s3, []) && After(s3, []) == s3;
    assert Legal(s2, steps[1..][1..]) && After(s2, steps[1..][1..]) == s3;
    assert Legal(s1, steps[1..]) && After(s1, steps[1..]) == s3;
  }

  /** The methods of the class are the step system's three writes taken in a row. */
  lemma CallIsItsSteps(s: State, t: nat, o: Outcome)
    requires Inv(s) && s.callers == map[] && Enabled(s, Begin(t, o)) && s.core.fate == Unresolved
    ensures
      var call := [Begin(t, o)] + Finish(t, AtValue);
      && Legal(s, call)
      && After(s, call).core == Decide(s.core, o)
  {
    var call := [Begin(t, o)] + Finish(t, AtValue);
    var s1 := Next(s, call[0]);
    CallFinishes(s1, t);
    assert call[1..] == Finish(t, AtValue);
  }
}
