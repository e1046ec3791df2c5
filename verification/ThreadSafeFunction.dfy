/** The Node-API thread-safe function, as its documentation describes it
    ("Asynchronous thread-safe function calls"): a count of the threads that may
    still use it, a call queue that may be bounded, and a finalizer that the main
    thread runs after the count has dropped to zero and the queue is empty.

    The operations are functions on values, so that the protocols built on top
    can use them as atomic steps. Each returns the status its caller sees.
    No environment teardown is modelled, so nothing aborts the function. */
module ThreadSafeFunction {

  datatype Status = Ok | Closing | InvalidArg

  /** Open until the main thread finds it unused; Finalized once the finalizer has run. */
  datatype Phase = Open | ClosingDown | Finalized

  /** `bound == 0` stands for an unbounded queue. */
  datatype Tsfn<C> = Tsfn(count: nat, queue: seq<C>, bound: nat, phase: Phase)

  function Create<C>(bound: nat, threads: nat): Tsfn<C> {
    Tsfn(threads, [], bound, Open)
  }

  function Acquire<C>(f: Tsfn<C>): (Status, Tsfn<C>) {
    if f.phase.Open? then (Ok, f.(count := f.count + 1)) else (Closing, f)
  }

  function Release<C>(f: Tsfn<C>): (Status, Tsfn<C>) {
    if f.count == 0 then (InvalidArg, f) else (Ok, f.(count := f.count - 1))
  }

  /** A blocking call waits while the function is open and its queue is full. */
  predicate CallReturns<C>(f: Tsfn<C>) {
    f.phase.Open? ==> f.bound == 0 || |f.queue| < f.bound
  }

  /** The end of a blocking call. On a closing function the caller loses its token. */
  function BlockingCall<C>(f: Tsfn<C>, c: C): (Status, Tsfn<C>)
    requires CallReturns(f)
  {
    if f.phase.Open? then (Ok, f.(queue := f.queue + [c]))
    else if f.count == 0 then (InvalidArg, f)
    else (Closing, f.(count := f.count - 1))
  }

  predicate CanDispatch<C>(f: Tsfn<C>) {
    f.phase.Open? && f.queue != []
  }

  /** The main thread takes the oldest call. */
  function Dispatch<C>(f: Tsfn<C>): (C, Tsfn<C>)
    requires CanDispatch(f)
  {
    (f.queue[0], f.(queue := f.queue[1..]))
  }

  predicate CanClose<C>(f: Tsfn<C>) {
    f.phase.Open? && f.queue == [] && f.count == 0
  }

  function Close<C>(f: Tsfn<C>): Tsfn<C>
    requires CanClose(f)
  {
    f.(phase := ClosingDown)
  }

  predicate CanFinalize<C>(f: Tsfn<C>) {
    f.phase.ClosingDown?
  }

  function Finalize<C>(f: Tsfn<C>): Tsfn<C>
    requires CanFinalize(f)
  {
    f.(phase := Finalized)
  }
}
