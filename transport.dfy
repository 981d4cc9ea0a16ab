/**
 * The connection abstraction the servers and clients write to: a WebSocket reduced to
 * its ready state, the `id` property the servers attach to it, the frames written to it,
 * and the `onopen` handler that `sendMessage` chains deferred writes onto.
 */
module Transport {
  import opened Wrappers
  import opened Values

  /** The `readyState` of a WebSocket. */
  datatype ReadyState = Connecting | Open | Closing | Closed

  /**
   * The value of `ws.onopen` as `sendMessage` builds it (src/base.js:110-114): either no
   * handler, or a closure that first runs the previous handler and then writes its frame.
   */
  datatype OnOpen<F> = NoHandler | Then(previous: OnOpen<F>, data: F)

  /** The frames the handler writes when the socket opens, in the order it writes them. */
  function Writes<F>(h: OnOpen<F>): seq<F>
  {
    match h
    case NoHandler => []
    case Then(previous, data) => Writes(previous) + [data]
  }

  /** The handler after chaining `ds` onto `h` one after another, as successive deferred sends do. */
  function ChainAll<F>(h: OnOpen<F>, ds: seq<F>): OnOpen<F>
    decreases |ds|
  {
    if ds == [] then h else ChainAll(Then(h, ds[0]), ds[1..])
  }

  /**
   * Deferred writes happen once each and in the order they were chained: opening a socket
   * whose handler was built by chaining `ds` writes exactly `ds` after what `h` writes.
   */
  lemma {:induction false} ChainedWritesKeepCallOrder<F>(h: OnOpen<F>, ds: seq<F>)
    ensures Writes(ChainAll(h, ds)) == Writes(h) + ds
    decreases |ds|
  {
    if ds != [] {
      ChainedWritesKeepCallOrder(Then(h, ds[0]), ds[1..]);
      assert [ds[0]] + ds[1..] == ds;
      assert Writes(Then(h, ds[0])) + ds[1..] == Writes(h) + ([ds[0]] + ds[1..]);
    }
  }

  /** What a socket in `state` will carry of the frames `fs` written to it now. */
  function Accepting<F>(state: ReadyState, fs: seq<F>): seq<F>
  {
    if state == Open || state == Connecting then fs else []
  }

  class Socket<F> {
    var state: ReadyState
    /** The identity a server attached to the connection after a successful SIGN_IN. */
    var id: Option<Id>
    /** The frames `ws.send` has put on the wire, oldest first. */
    var sent: seq<F>
    var onopen: OnOpen<F>

    /**
     * Everything the peer will receive, in order: what is on the wire, plus, while the
     * socket is still connecting, what its open handler will write. A socket that is
     * closing or closed never opens, so its deferred writes are lost.
     */
    ghost function Outbox(): seq<F>
      reads this`state, this`sent, this`onopen
    {
      if state == Connecting then sent + Writes(onopen) else sent
    }

    /** A connection a server has just accepted. */
    constructor Accepted()
      ensures state == Open && id == None && sent == [] && onopen == NoHandler
    {
      state, id, sent, onopen := Open, None, [], NoHandler;
    }

    /** A connection a client has just started to open. */
    constructor Dialed()
      ensures state == Connecting && id == None && sent == [] && onopen == NoHandler
    {
      state, id, sent, onopen := Connecting, None, [], NoHandler;
    }

    /**
     * `ws.send(data)`: on an open socket the frame goes on the wire; a closing or closed
     * socket drops it. Sending while still connecting throws, so callers never do.
     */
    method Send(data: F)
      requires state != Connecting
      modifies this`sent
      ensures sent == old(sent) + Accepting(state, [data])
    {
      if state == Open {
        sent := sent + [data];
      }
    }

    /** The `open` event: the socket opens and its handler performs the deferred writes. */
    method Opened()
      requires state == Connecting
      modifies this`state, this`sent
      ensures state == Open
      ensures sent == old(sent) + Writes(onopen)
      ensures Outbox() == old(Outbox())
    {
      state := Open;
      sent := sent + Writes(onopen);
    }

    /** The socket starts closing (`ws.close()`), or the peer goes away. */
    method Close()
      requires state == Connecting || state == Open
      modifies this`state
      ensures state == Closing
    {
      state := Closing;
    }
  }
}
