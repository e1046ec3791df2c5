/** The objects whose fields the listener protocol speaks about: MessageListenerCallback and
    Consumer, updated in place by the methods of the source. Each method is shown to change its
    object as the protocol's step changes the state the object stands for. ConsumerConfig, the
    third of them, is in the module of its own name. */
module ListenerObjects {
  import opened Common
  import opened ThreadSafeFunction
  import P = ListenerProtocol

  /** src/MessageListener.h: the thread-safe function and the promise of the consumer. */
  class ListenerRecord {
    var callback: Tsfn<nat>
    var consumerSets: nat

    ghost predicate Shows(s: P.State)
      reads this
    {
      callback == s.tsfn && consumerSets == s.futureSets
    }

    /** InitConfig's listener option: a queue of one call and one token. */
    constructor ()
      ensures callback == Create(1, 1) && consumerSets == 0
    {
      callback, consumerSets := Create(1, 1), 0;
    }
  }

  class Consumer {
    var listener: ListenerRecord?
    var refs: nat
    var paused: bool

    ghost predicate Shows(s: P.State)
      reads this, listener
    {
      && s.consumer.Some?
      && (listener != null <==> s.consumer.value.listener)
      && refs == s.consumer.value.refs
      && paused == s.paused
      && (listener != null ==> listener.Shows(s) && refs > 0)
    }

    constructor ()
      ensures listener == null && refs == 0 && !paused
    {
      listener, refs, paused := null, 0, false;
    }

    /** Takes over the lambda's listener, unless one is set already. */
    method SetListenerCallback(l: ListenerRecord?, ghost s: P.State)
      requires Shows(s)
      requires l != null <==> s.lambda
      requires l != null ==> l.Shows(s)
      modifies this, l
      ensures Shows(P.SetListenerCallback(s))
      ensures listener == if old(listener) != null then old(listener) else l
    {
      if listener != null {
        return;
      }
      if l != null {
        l.consumerSets := l.consumerSets + 1;
        refs := refs + 1;
        listener := l;
      }
    }

    /** Pause, release, forget, unref; nothing at all without a listener. Called by close and by the
        destructor. */
    method Cleanup(ghost s: P.State)
      requires Shows(s)
      modifies this, listener
      ensures listener == null
      ensures Shows(P.CleanUp(s))
      ensures old(listener) != null ==> old(listener).Shows(P.CleanUp(s))
    {
      if listener != null {
        paused := true;
        listener.callback := Release(listener.callback).1;
        listener := null;
        refs := refs - 1;
      }
    }
  }

  /** Cleanup called by close, in two steps of the protocol. */
  lemma CloseIsItsSteps(s: P.State)
    requires P.Enabled(s, P.CloseCall)
    ensures s.consumer.value.listener ==>
              P.Enabled(P.AfterCloseCall(s), P.FinishCleanup) && P.ReleaseListener(P.AfterCloseCall(s)) == P.CleanUp(s)
    ensures !s.consumer.value.listener ==> P.AfterCloseCall(s) == P.CleanUp(s)
  {
    if s.consumer.value.listener {
      assert P.ReleaseListener(P.AfterCloseCall(s)) == P.CleanUp(s);
    }
  }
}
