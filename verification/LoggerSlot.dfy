/** The process-wide log handler (src/Client.cc:261-285, 356-367 and LogMessage): a static pointer
    to a record with a thread-safe function, replaced and cleared by setLogHandler and by the
    `log` option of every client. LogMessage is one atomic step here. */
module LoggerSlot {
  import opened Common
  import opened ThreadSafeFunction

  datatype Argument = Null | Function | Other

  /** `configured`: the constructor got past its checks of the service URL. */
  datatype Op =
    | SetLogHandler(argument: Argument)
    | NewClient(configured: bool, log: Argument)
    | LogMessage(text: nat)

  /** Functions are numbered in the order they were created. `releases` lists the functions whose
      token was released, `records` counts the LogCallback objects that exist. */
  datatype State = State(
    slot: Option<nat>,
    functions: seq<Tsfn<nat>>,
    releases: seq<nat>,
    records: nat,
    errors: nat)

  function Init(): State {
    State(None, [], [], 0, 0)
  }

  /** The slot's function is released, if there is one. */
  function ReleaseCurrent(s: State): State {
    if s.slot.None? || s.slot.value >= |s.functions| then s
    else
      var i := s.slot.value;
      s.(functions := s.functions[i := Release(s.functions[i]).1], releases := s.releases + [i])
  }

  /** A new function takes the slot; an existing record is reused. */
  function Install(s: State): State {
    var n := ReleaseCurrent(s);
    n.(functions := n.functions + [Create(0, 1)], slot := Some(|n.functions|),
       records := if s.slot.Some? then s.records else s.records + 1)
  }

  function Clear(s: State): State {
    if s.slot.None? then s
    else ReleaseCurrent(s).(slot := None, records := if s.records == 0 then 0 else s.records - 1)
  }

  /** Acquire, BlockingCall and Release on the current function. */
  function Log(s: State, text: nat): State {
    if s.slot.None? || s.slot.value >= |s.functions| then s
    else
      var i := s.slot.value;
      var (status, f) := Acquire(s.functions[i]);
      if status != Ok || !CallReturns(f) then s
      else s.(functions := s.functions[i := Release(BlockingCall(f, text).1).1])
  }

  function Apply(s: State, op: Op): State {
    match op
    case SetLogHandler(Null) => Clear(s)
    case SetLogHandler(Function) => Install(s)
    case SetLogHandler(Other) => s.(errors := s.errors + 1)
    case NewClient(configured, log) => if configured && log.Function? then Install(s) else s
    case LogMessage(text) => Log(s, text)
  }

  function Run(s: State, ops: seq<Op>): State {
    if ops == [] then s else Apply(Run(s, ops[..|ops| - 1]), ops[|ops| - 1])
  }

  // -------------------------------------------------------------- the invariant

  predicate Inv(s: State) {
    && (s.slot.Some? ==> s.slot.value < |s.functions|)
    && (forall i :: 0 <= i < |s.functions| ==>
          s.functions[i].phase.Open? && s.functions[i].bound == 0
          && s.functions[i].count == Bit(s.slot == Some(i)))
    && (forall k :: 0 <= k < |s.releases| ==> s.releases[k] < |s.functions| && s.slot != Some(s.releases[k]))
    && (forall k, l :: 0 <= k < l < |s.releases| ==> s.releases[k] != s.releases[l])
    && (forall i :: 0 <= i < |s.functions| && s.slot != Some(i) ==> i in s.releases)
    && s.records == Bit(s.slot.Some?)
  }

  lemma ReleaseInv(s: State)
    requires Inv(s) && s.slot.Some?
    ensures var n := ReleaseCurrent(s);
            Inv(n.(slot := None, records := 0)) && |n.functions| == |s.functions|
  {
    var n := ReleaseCurrent(s);
    var i := s.slot.value;
    assert s.functions[i].count == 1;
    assert n.releases[|s.releases|] == i;
    assert forall k :: 0 <= k < |s.releases| ==> n.releases[k] == s.releases[k];
  }

  lemma InstallInv(s: State)
    requires Inv(s)
    ensures Inv(Install(s))
  {
    if s.slot.Some? {
      ReleaseInv(s);
    }
  }

  lemma LogInv(s: State, text: nat)
    requires Inv(s)
    ensures Inv(Log(s, text))
  {
  }

  lemma ApplyInv(s: State, op: Op)
    requires Inv(s)
    ensures Inv(Apply(s, op))
  {
    InstallInv(s);
    if op.LogMessage? {
      LogInv(s, op.text);
    }
    if s.slot.Some? {
      ReleaseInv(s);
    }
  }

  lemma {:induction false} RunInv(ops: seq<Op>)
    ensures Inv(Run(Init(), ops))
  {
    if ops == [] {
    } else {
      RunInv(ops[..|ops| - 1]);
      ApplyInv(Run(Init(), ops[..|ops| - 1]), ops[|ops| - 1]);
    }
  }

  /** Over any sequence of operations, the only token not released is that of the function in the
      slot, every function that was replaced or cleared was released exactly once and can be
      finalized once its queue is empty, and exactly one record exists while the slot is set. */
  lemma OneLoggerToken(ops: seq<Op>, i: nat)
    requires i < |Run(Init(), ops).functions|
    ensures
      var s := Run(Init(), ops);
      && s.functions[i].count == Bit(s.slot == Some(i))
      && multiset(s.releases)[i] == 1 - Bit(s.slot == Some(i))
      && (s.slot != Some(i) && s.functions[i].queue == [] <==> CanClose(s.functions[i]))
      && s.records == Bit(s.slot.Some?)
  {
    RunInv(ops);
    var s := Run(Init(), ops);
    Occurrences(s.releases, i);
    assert s.slot == Some(i) ==> i !in s.releases;
  }

  lemma {:induction false} Occurrences(xs: seq<nat>, x: nat)
    requires forall k, l :: 0 <= k < l < |xs| ==> xs[k] != xs[l]
    ensures multiset(xs)[x] == Bit(x in xs)
  {
    if xs != [] {
      var init, last := xs[..|xs| - 1], xs[|xs| - 1];
      assert xs == init + [last];
      Occurrences(init, x);
    }
  }

  /** The operations that decide the handler. */
  predicate Decides(op: Op) {
    match op
    case SetLogHandler(a) => !a.Other?
    case NewClient(configured, log) => configured && log.Function?
    case LogMessage(_) => false
  }

  /** Whether a handler should be set, read off the history alone: the last deciding operation. */
  function HandlerExpected(ops: seq<Op>): bool {
    if ops == [] then false
    else
      var last := ops[|ops| - 1];
      if Decides(last) then !last.SetLogHandler? || last.argument.Function?
      else HandlerExpected(ops[..|ops| - 1])
  }

  /** The slot is set exactly if the last operation that decides it set it, and then it holds the
      newest function of all. */
  lemma {:induction false} SlotFollowsLastSetting(ops: seq<Op>)
    ensures Run(Init(), ops).slot ==
            if HandlerExpected(ops) then Some(|Run(Init(), ops).functions| - 1) else None
    ensures HandlerExpected(ops) ==> Run(Init(), ops).functions != []
  {
    if ops == [] {
    } else {
      SlotFollowsLastSetting(ops[..|ops| - 1]);
    }
  }

  // ----------------------------------------------- read off the history alone

  predicate Installs(op: Op) {
    match op
    case SetLogHandler(a) => a.Function?
    case NewClient(configured, log) => configured && log.Function?
    case LogMessage(_) => false
  }

  /** How many handlers a history installed. */
  function Installed(ops: seq<Op>): nat {
    if ops == [] then 0 else Installed(ops[..|ops| - 1]) + Bit(Installs(ops[|ops| - 1]))
  }

  /** The texts logged while handler i, counted in the order of installation, was the current one. */
  function LoggedTo(ops: seq<Op>, i: nat): seq<nat> {
    if ops == [] then []
    else
      var before, last := ops[..|ops| - 1], ops[|ops| - 1];
      LoggedTo(before, i) +
      if last.LogMessage? && HandlerExpected(before) && Installed(before) == i + 1 then [last.text] else []
  }

  function Errors(ops: seq<Op>): nat {
    if ops == [] then 0
    else Errors(ops[..|ops| - 1]) + Bit(ops[|ops| - 1] == SetLogHandler(Other))
  }

  lemma OpInstalls(s: State, op: Op)
    ensures |Apply(s, op).functions| == |s.functions| + Bit(Installs(op))
    ensures Apply(s, op).errors == s.errors + Bit(op == SetLogHandler(Other))
  {
    match op
    case SetLogHandler(a) =>
    case NewClient(_, _) =>
    case LogMessage(_) =>
  }

  lemma {:induction false} HandlersInstalled(ops: seq<Op>)
    ensures |Run(Init(), ops).functions| == Installed(ops) && Run(Init(), ops).errors == Errors(ops)
  {
    hide Apply;
    if ops == [] {
    } else {
      HandlersInstalled(ops[..|ops| - 1]);
      OpInstalls(Run(Init(), ops[..|ops| - 1]), ops[|ops| - 1]);
    }
  }

  /** A step adds to a queue only what is logged to its function. */
  lemma QueueAfter(s: State, op: Op, i: nat)
    requires Inv(s) && i < |s.functions|
    ensures i < |Apply(s, op).functions|
    ensures Apply(s, op).functions[i].queue ==
            s.functions[i].queue + if op.LogMessage? && s.slot == Some(i) then [op.text] else []
  {
  }

  lemma NewQueueEmpty(s: State, op: Op)
    requires Inv(s) && |Apply(s, op).functions| > |s.functions|
    ensures !op.LogMessage? && Apply(s, op).functions[|s.functions|].queue == []
  {
  }

  lemma {:induction false} LoggedToNobody(ops: seq<Op>, i: nat)
    requires Installed(ops) <= i
    ensures LoggedTo(ops, i) == []
  {
    if ops == [] {
    } else {
      LoggedToNobody(ops[..|ops| - 1], i);
    }
  }

  /** Over any history: each handler's queue holds exactly the texts that were logged while it was the
      current handler, in order (none is dispatched in this model), and an argument that is neither
      a function nor null is an error each time. */
  lemma {:induction false} TextsReachCurrentHandler(ops: seq<Op>, i: nat)
    requires i < Installed(ops)
    ensures i < |Run(Init(), ops).functions| && Run(Init(), ops).functions[i].queue == LoggedTo(ops, i)
    ensures Run(Init(), ops).errors == Errors(ops)
  {
    hide Inv, Apply, HandlerExpected;
    HandlersInstalled(ops);
    var before, last := ops[..|ops| - 1], ops[|ops| - 1];
    var s := Run(Init(), before);
    RunInv(before);
    HandlersInstalled(before);
    SlotFollowsLastSetting(before);
    if i < Installed(before) {
      TextsReachCurrentHandler(before, i);
      QueueAfter(s, last, i);
    } else {
      LoggedToNobody(before, i);
      NewQueueEmpty(s, last);
    }
  }

  // ------------------------------------------------------------------ the class

  /** The static member of Client and what it points to. */
  class Logger {
    var slot: Option<nat>
    var functions: seq<Tsfn<nat>>
    var releases: seq<nat>
    var records: nat
    var errors: nat

    ghost function View(): State
      reads this
    {
      State(slot, functions, releases, records, errors)
    }

    constructor ()
      ensures View() == Init()
    {
      slot, functions, releases, records, errors := None, [], [], 0, 0;
    }

    method ReleaseFunction(i: nat)
      requires i < |functions|
      modifies this
      ensures View() == old(View()).(functions := old(functions)[i := Release(old(functions)[i]).1],
                                     releases := old(releases) + [i])
    {
      functions := functions[i := Release(functions[i]).1];
      releases := releases + [i];
    }

    method SetLogHandler(argument: Argument)
      requires Inv(View())
      modifies this
      ensures View() == Apply(old(View()), Op.SetLogHandler(argument))
    {
      if argument.Null? {
        if slot.Some? {
          ReleaseFunction(slot.value);
          records := records - 1;
          slot := None;
        }
      } else if argument.Function? {
        ReplaceFunction();
      } else {
        errors := errors + 1;
      }
    }

    /** The part of the Client constructor that looks at the `log` option. */
    method LogOption(log: Argument)
      requires Inv(View())
      modifies this
      ensures View() == Apply(old(View()), NewClient(true, log))
    {
      if log.Function? {
        ReplaceFunction();
      }
    }

    method ReplaceFunction()
      requires Inv(View())
      modifies this
      ensures View() == Install(old(View()))
    {
      var logFunction := Create(0, 1);
      if slot.Some? {
        ReleaseFunction(slot.value);
      } else {
        records := records + 1;
      }
      functions := functions + [logFunction];
      slot := Some(|functions| - 1);
    }
  }
}
