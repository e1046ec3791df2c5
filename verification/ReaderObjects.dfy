/** ReaderListenerCallback, ReaderConfig and Reader, updated in place by the methods of
    src/Reader.cc and src/ReaderConfig.cc, each as the reader protocol's step says. */
module ReaderObjects {
  import opened Common
  import opened ThreadSafeFunction
  import P = ReaderProtocol

  class ListenerRecord {
    var callback: Tsfn<nat>
    var readerSet: bool     // the pointer is non-null

    ghost predicate Shows(s: P.State)
      reads this
    {
      callback == s.tsfn && readerSet == s.phase.Published?
    }

    constructor ()
      ensures Shows(P.Init())
    {
      callback, readerSet := Create(1, 1), false;
    }
  }

  class ReaderConfig {
    var listener: ListenerRecord?

    ghost predicate Shows(s: P.State)
      reads this, listener
    {
      && (listener != null <==> s.configOwns)
      && (listener != null ==> listener.Shows(s))
    }

    constructor (l: ListenerRecord)
      requires l.Shows(P.Init())
      ensures Shows(P.Init()) && listener == l
    {
      listener := l;
    }

    method GetListenerCallback() returns (cb: ListenerRecord?)
      modifies this
      ensures cb == old(listener) && listener == null
    {
      cb := listener;
      listener := null;
    }

    /** ~ReaderConfig: after a creation that failed it gives back the token, after the reader took
        the record over there is nothing to give back. */
    method Destroy(ghost s: P.State)
      requires Shows(s)
      modifies this, listener
      ensures Shows(P.DropConfig(s))
      ensures old(listener) != null ==> old(listener).Shows(P.DropConfig(s))
    {
      if listener != null {
        listener.callback := Release(listener.callback).1;
        listener := null;
      }
    }
  }

  class Reader {
    var listener: ListenerRecord?
    var refs: nat

    ghost predicate Shows(s: P.State)
      reads this, listener
    {
      && (listener != null <==> s.readerOwns)
      && refs == s.refs
      && (listener != null ==> listener.Shows(s) && refs > 0)
    }

    constructor ()
      ensures listener == null && refs == 0
    {
      listener, refs := null, 0;
    }

    /** Takes the record over and tells it its reader, unless a listener is set already. */
    method SetListenerCallback(l: ListenerRecord?)
      modifies this, l
      ensures old(listener) != null || l == null ==>
                listener == old(listener) && refs == old(refs) && (l != null ==> l.readerSet == old(l.readerSet))
      ensures old(listener) == null && l != null ==> listener == l && refs == old(refs) + 1 && l.readerSet
      ensures l != null ==> l.callback == old(l.callback)
    {
      if listener != null {
        return;
      }
      if l != null {
        l.readerSet := true;
        refs := refs + 1;
        listener := l;
      }
    }

    /** Called by close and by the destructor; the second time there is nothing to do. */
    method Cleanup(ghost s: P.State)
      requires Shows(s)
      modifies this, listener
      ensures Shows(P.CleanUp(s))
      ensures old(listener) != null ==> old(listener).Shows(P.CleanUp(s))
    {
      if listener != null {
        listener.callback := Release(listener.callback).1;
        refs := refs - 1;
        listener := null;
      }
    }
  }

  /** The resolver of createReaderCallback: a new Reader takes the record over from the config, as the
      protocol's step says. */
  method ResolveReader(config: ReaderConfig, ghost s: P.State) returns (reader: Reader)
    requires config.Shows(s) && P.Enabled(s, P.Publish) && P.Tokens(s)
    modifies config, config.listener
    ensures fresh(reader) && reader.listener == old(config.listener)
    ensures reader.Shows(P.Next(s, P.Publish)) && config.Shows(P.Next(s, P.Publish))
  {
    reader := new Reader();
    var l := config.GetListenerCallback();
    reader.SetListenerCallback(l);
  }
}
