/** The control station's outbound logging channel: a socket handle that may be
    absent, and a FIFO queue of log messages that could not be sent yet. */
module Logging {
  import opened Values

  /** `WebSocket.readyState` of a live handle. */
  datatype ReadyState = Connecting | Open | Closing

  /** `loggingWs` (None when the handle is null), `loggingMessageQueue`, and
      `wire`: the messages the transport has accepted, in order. */
  datatype ChannelState = ChannelState(socket: Option<ReadyState>, queue: seq<Object>, wire: seq<Object>)

  /** One call of `sendGCSLogMessage(m)`; `throws` says whether the transport's
      `send` raises. */
  function AfterSend(c: ChannelState, m: Object, throws: bool): (r: ChannelState)
    ensures r.socket == c.socket
    // sent on an open socket, queued at the back otherwise: never dropped
    ensures c.socket == Some(Open) && !throws ==> r.wire == c.wire + [m] && r.queue == c.queue
    ensures c.socket != Some(Open) || throws ==> r.queue == c.queue + [m] && r.wire == c.wire
  {
    if c.socket == Some(Open) && !throws then c.(wire := c.wire + [m])
    else c.(queue := c.queue + [m])
  }

  /** Whether the `attempt`-th send of a flush raises. Attempts past the end of
      `throwsAt` succeed. */
  predicate Throws(throwsAt: seq<bool>, attempt: nat)
  {
    attempt < |throwsAt| && throwsAt[attempt]
  }

  /** The order in which the flush run by `onopen` hands `queue` to the
      transport. Each round takes the front message and sends it; a send that
      raises puts the message back at the end of the queue. */
  function FlushOrder(queue: seq<Object>, throwsAt: seq<bool>, attempt: nat): (delivered: seq<Object>)
    ensures |delivered| == |queue|
    decreases if attempt < |throwsAt| then |throwsAt| - attempt else 0, |queue|
  {
    if queue == [] then []
    else if Throws(throwsAt, attempt) then FlushOrder(queue[1..] + [queue[0]], throwsAt, attempt + 1)
    else [queue[0]] + FlushOrder(queue[1..], throwsAt, attempt + 1)
  }

  /** The flush delivers every queued message exactly once, whatever fails. */
  lemma {:induction false} FlushDeliversEveryMessage(queue: seq<Object>, throwsAt: seq<bool>, attempt: nat)
    ensures multiset(FlushOrder(queue, throwsAt, attempt)) == multiset(queue)
    decreases if attempt < |throwsAt| then |throwsAt| - attempt else 0, |queue|
  {
    if queue != [] {
      assert queue == [queue[0]] + queue[1..];
      if Throws(throwsAt, attempt) {
        FlushDeliversEveryMessage(queue[1..] + [queue[0]], throwsAt, attempt + 1);
      } else {
        FlushDeliversEveryMessage(queue[1..], throwsAt, attempt + 1);
      }
    }
  }

  /** With no failing send, the flush delivers the queue in its FIFO order. */
  lemma {:induction false} FlushKeepsFifoOrder(queue: seq<Object>, throwsAt: seq<bool>, attempt: nat)
    requires forall k :: attempt <= k < |throwsAt| ==> !throwsAt[k]
    ensures FlushOrder(queue, throwsAt, attempt) == queue
    decreases |queue|
  {
    if queue != [] {
      FlushKeepsFifoOrder(queue[1..], throwsAt, attempt + 1);
    }
  }

  /** A send that raises moves its message behind the rest of the queue: the
      messages queued after it are delivered before it. */
  lemma FailedSendRequeuesAtBack(queue: seq<Object>, throwsAt: seq<bool>)
    requires |queue| >= 2 && |throwsAt| >= 1 && throwsAt[0]
    requires forall k :: 1 <= k < |throwsAt| ==> !throwsAt[k]
    ensures FlushOrder(queue, throwsAt, 0) == queue[1..] + [queue[0]]
  {
    FlushKeepsFifoOrder(queue[1..] + [queue[0]], throwsAt, 1);
  }

  class LoggingChannel {
    var socket: Option<ReadyState>
    var queue: seq<Object>
    var wire: seq<Object>

    function State(): ChannelState
      reads this
    {
      ChannelState(socket, queue, wire)
    }

    /** `connectLoggingWebSocket`: a new socket, still connecting. */
    constructor Connect()
      ensures State() == ChannelState(Some(Connecting), [], [])
    {
      socket, queue, wire := Some(Connecting), [], [];
    }

    /** `sendGCSLogMessage`. */
    method Send(m: Object, throws: bool)
      modifies this
      ensures State() == AfterSend(old(State()), m, throws)
    {
      if socket == Some(Open) {
        if throws {
          queue := queue + [m];
        } else {
          wire := wire + [m];
        }
      } else {
        queue := queue + [m];
      }
    }

    /** `loggingWs.onopen`: the socket is open and the queue is drained from the
        front, each message through `sendGCSLogMessage`. */
    method OnOpen(throwsAt: seq<bool>)
      requires socket == Some(Connecting)
      modifies this
      ensures socket == Some(Open) && queue == []
      ensures wire == old(wire) + FlushOrder(old(queue), throwsAt, 0)
    {
      socket := Some(Open);
      var attempt: nat := 0;
      while |queue| > 0
        invariant socket == Some(Open)
        invariant wire + FlushOrder(queue, throwsAt, attempt) == old(wire) + FlushOrder(old(queue), throwsAt, 0)
        decreases if attempt < |throwsAt| then |throwsAt| - attempt else 0, |queue|
      {
        var msg := queue[0];
        var throws := Throws(throwsAt, attempt);
        ghost var rest := queue[1..];
        ghost var sentBefore := wire;
        assert FlushOrder(queue, throwsAt, attempt) ==
          if throws then FlushOrder(rest + [msg], throwsAt, attempt + 1)
          else [msg] + FlushOrder(rest, throwsAt, attempt + 1);
        queue := queue[1..];
        Send(msg, throws);
        if !throws {
          assert wire == sentBefore + [msg];
        }
        attempt := attempt + 1;
      }
    }

    /** The socket starts its closing handshake (`readyState` CLOSING). */
    method StartClosing()
      requires socket.Some?
      modifies this
      ensures State() == old(State()).(socket := Some(Closing))
    {
      socket := Some(Closing);
    }

    /** `loggingWs.onclose`: the handle becomes null and is never reconnected. */
    method OnClose()
      modifies this
      ensures State() == old(State()).(socket := None)
    {
      socket := None;
    }
  }

  /** Once the handle is null, every send is queued and nothing reaches the wire. */
  lemma SendAfterCloseQueues(c: ChannelState, m: Object, throws: bool)
    requires c.socket.None?
    ensures AfterSend(c, m, throws) == c.(queue := c.queue + [m])
  {
  }
}
