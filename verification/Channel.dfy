/**
 A channel: the events its owner wants to see on one descriptor, and the dispatch of the events that occurred.
 */
module Channel {

  /** The wanted events; `read` stands for POLLIN | POLLPRI, `write` for POLLOUT. */
  datatype Interest = Interest(read: bool, write: bool)

  const NONE := Interest(false, false)

  /** The events that occurred. */
  datatype Mask = Mask(pollin: bool, pollpri: bool, pollout: bool, pollerr: bool, pollhup: bool, pollnval: bool)

  datatype Callback = CloseCallback | ErrorCallback | ReadCallback | WriteCallback

  const NO_EVENTS := Mask(false, false, false, false, false, false)

  class Channel {
    const fd: nat
    var events: Interest
    var revents: Mask
    var index: int
    var eventHandling: bool
    const callbacks: set<Callback>

    constructor (fd: nat, callbacks: set<Callback>)
      ensures this.fd == fd && this.callbacks == callbacks
      ensures events == NONE && revents == NO_EVENTS && index == -1 && !eventHandling
    {
      this.fd := fd;
      this.callbacks := callbacks;
      events := NONE;
      revents := NO_EVENTS;
      index := -1;
      eventHandling := false;
    }

    predicate IsNoneEvent()
      reads this
    {
      events == NONE
    }

    predicate IsWriting()
      reads this
    {
      events.write
    }

    /** Runs the installed callbacks that the event mask calls for, in a fixed order. */
    method HandleEvent() returns (calls: seq<Callback>)
      modifies this`eventHandling
      ensures !eventHandling
      ensures calls == Dispatch(revents, callbacks)
    {
      calls := [];
      eventHandling := true;
      if revents.pollhup && !revents.pollin && CloseCallback in callbacks {
        calls := calls + [CloseCallback];
      }
      assert calls == IfCalled(CloseCallback, revents, callbacks);
      if (revents.pollerr || revents.pollnval) && ErrorCallback in callbacks {
        calls := calls + [ErrorCallback];
      }
      ghost var first := IfCalled(CloseCallback, revents, callbacks) + IfCalled(ErrorCallback, revents, callbacks);
      assert calls == first;
      if (revents.pollin || revents.pollpri || revents.pollhup) && ReadCallback in callbacks {
        calls := calls + [ReadCallback];
      }
      assert calls == first + IfCalled(ReadCallback, revents, callbacks);
      if revents.pollout && WriteCallback in callbacks {
        calls := calls + [WriteCallback];
      }
      eventHandling := false;
    }
  }

  /** Whether the dispatcher runs a callback for a mask. */
  predicate CallsFor(mask: Mask, callback: Callback) {
    match callback
    case CloseCallback => mask.pollhup && !mask.pollin
    case ErrorCallback => mask.pollerr || mask.pollnval
    case ReadCallback => mask.pollin || mask.pollpri || mask.pollhup
    case WriteCallback => mask.pollout
  }

  function Rank(c: Callback): nat {
    match c
    case CloseCallback => 0
    case ErrorCallback => 1
    case ReadCallback => 2
    case WriteCallback => 3
  }

  function IfCalled(c: Callback, mask: Mask, callbacks: set<Callback>): seq<Callback> {
    if c in callbacks && CallsFor(mask, c) then [c] else []
  }

  /** The dispatch: of the callbacks close, error, read, write, those installed and called for. */
  function Dispatch(mask: Mask, callbacks: set<Callback>): (calls: seq<Callback>)
    ensures forall c :: c in calls <==> c in callbacks && CallsFor(mask, c)
    ensures forall i, j :: 0 <= i < j < |calls| ==> Rank(calls[i]) < Rank(calls[j])
  {
    IfCalled(CloseCallback, mask, callbacks) + IfCalled(ErrorCallback, mask, callbacks)
    + IfCalled(ReadCallback, mask, callbacks) + IfCalled(WriteCallback, mask, callbacks)
  }
}
