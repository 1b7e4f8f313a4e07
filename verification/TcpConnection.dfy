/**
 A TCP connection on its I/O thread: sending over a socket that may take any part of a message, with the rest
 in an output buffer, and the steps from connection to teardown.
 */
module TcpConnection {
  import opened Channel
  import opened ConnStates
  import B = Buffer

  /** What write(2) answers for a number of bytes offered: how many it took, or an error of any kind. */
  datatype WriteResult = Wrote(n: nat) | Failed

  // ----- What each handler does -----

  /** `pending` is the output buffer. History: `accepted` is what the socket took, `completes` counts the
      write-complete callbacks queued (the user has installed one), `closes` the calls of `handleClose`. */
  datatype Conn = Conn(state: ConnState, reading: bool, writing: bool, pending: seq<char>, shut: bool,
                       accepted: seq<char>, completes: nat, closes: nat)

  const NEW_CONN := Conn(Connecting, false, false, [], false, [], 0, 0)

  /** The bytes of a message that the socket takes at once: none unless nothing is waiting. */
  function TakenAtOnce(v: Conn, result: WriteResult): nat {
    if !v.writing && v.pending == [] && result.Wrote? then result.n else 0
  }

  predicate PossibleSend(v: Conn, message: seq<char>, result: WriteResult) {
    result.Wrote? ==> result.n <= |message|
  }

  function AfterSendInLoop(v: Conn, message: seq<char>, result: WriteResult): Conn
    requires PossibleSend(v, message, result)
  {
    var n := TakenAtOnce(v, result);
    var complete := !v.writing && v.pending == [] && result == Wrote(|message|);
    v.(accepted := v.accepted + message[..n],
       pending := v.pending + message[n..],
       writing := v.writing || n < |message|,
       completes := v.completes + if complete then 1 else 0)
  }

  function AfterShutdownInLoop(v: Conn): Conn {
    if v.writing then v else v.(shut := true)
  }

  function AfterShutdown(v: Conn): Conn {
    if v.state == Connected then AfterShutdownInLoop(v.(state := Disconnecting)) else v
  }

  /** The half-close at the end is for the state that no writing connection is in. */
  function AfterHandleWrite(v: Conn, result: WriteResult): Conn
    requires result.Wrote? ==> result.n <= |v.pending|
  {
    if !v.writing || result.Failed? || result.n == 0 then v
    else
      var sent := v.(accepted := v.accepted + v.pending[..result.n], pending := v.pending[result.n..]);
      if sent.pending != [] then sent
      else
        var drained := sent.(writing := false, completes := sent.completes + 1);
        if drained.state == Disconnected then AfterShutdownInLoop(drained) else drained
  }

  function AfterHandleClose(v: Conn): Conn {
    v.(reading := false, writing := false, closes := v.closes + 1)
  }

  function AfterConnectEstablished(v: Conn): Conn {
    v.(state := Connected, reading := true)
  }

  function AfterConnectDestroyed(v: Conn): Conn {
    v.(state := Disconnected, reading := false, writing := false)
  }

  class TcpConnection {
    var state: ConnState
    const channel: Channel
    const outputBuffer: B.Buffer
    const inputBuffer: B.Buffer
    var shutdownWritten: bool
    ghost var accepted: seq<char>
    ghost var completes: nat
    ghost var closes: nat

    ghost predicate Valid()
      reads this, outputBuffer, inputBuffer
    {
      && outputBuffer.Valid() && inputBuffer.Valid() && outputBuffer != inputBuffer && outputBuffer.data != inputBuffer.data
    }

    ghost function View(): Conn
      requires Valid()
      reads this, channel, outputBuffer, outputBuffer.data, inputBuffer
    {
      Conn(state, channel.events.read, channel.events.write, outputBuffer.Contents(), shutdownWritten, accepted, completes, closes)
    }

    constructor (fd: nat)
      ensures Valid() && View() == NEW_CONN
      ensures fresh(channel) && fresh(outputBuffer) && fresh(outputBuffer.data) && fresh(inputBuffer) && fresh(inputBuffer.data)
    {
      state := Connecting;
      channel := new Channel(fd, {CloseCallback, ErrorCallback, ReadCallback, WriteCallback});
      outputBuffer := new B.Buffer();
      inputBuffer := new B.Buffer();
      shutdownWritten := false;
      accepted, completes, closes := [], 0, 0;
    }

    method SendInLoop(message: seq<char>, result: WriteResult)
      requires Valid() && PossibleSend(View(), message, result)
      modifies this, channel, outputBuffer, outputBuffer.data
      ensures Valid() && (outputBuffer.data == old(outputBuffer.data) || fresh(outputBuffer.data))
      ensures View() == AfterSendInLoop(old(View()), message, result)
    {
      var nwrote := 0;
      if !channel.IsWriting() && outputBuffer.ReadableBytes() == 0 {
        nwrote := WriteAtOnce(message, result);
      }
      if nwrote < |message| {
        KeepRest(message[nwrote..]);
      }
    }

    /** The direct write. */
    method WriteAtOnce(message: seq<char>, result: WriteResult) returns (nwrote: nat)
      requires result.Wrote? ==> result.n <= |message|
      modifies this`accepted, this`completes
      ensures nwrote == if result.Wrote? then result.n else 0
      ensures accepted == old(accepted) + message[..nwrote]
      ensures completes == old(completes) + if result == Wrote(|message|) then 1 else 0
    {
      match result
      case Wrote(n) =>
        nwrote := n;
        accepted := accepted + message[..n];
        if nwrote >= |message| {
          completes := completes + 1;
        }
      case Failed =>
        nwrote := 0;
    }

    /** What the socket did not take waits in the output. */
    method KeepRest(rest: seq<char>)
      requires Valid()
      modifies channel`events, outputBuffer, outputBuffer.data
      ensures Valid() && (outputBuffer.data == old(outputBuffer.data) || fresh(outputBuffer.data))
      ensures outputBuffer.Contents() == old(outputBuffer.Contents()) + rest
      ensures channel.events == old(channel.events).(write := true)
    {
      outputBuffer.Append(rest);
      if !channel.IsWriting() {
        channel.events := channel.events.(write := true);
      }
    }

    method Send(message: seq<char>, result: WriteResult)
      requires Valid() && PossibleSend(View(), message, result)
      modifies this, channel, outputBuffer, outputBuffer.data
      ensures Valid() && (outputBuffer.data == old(outputBuffer.data) || fresh(outputBuffer.data))
      ensures View() == if old(state) == Connected then AfterSendInLoop(old(View()), message, result) else old(View())
    {
      if state == Connected {
        SendInLoop(message, result);
      }
    }

    method ShutdownInLoop()
      requires Valid()
      modifies this`shutdownWritten
      ensures Valid() && View() == AfterShutdownInLoop(old(View()))
    {
      if !channel.IsWriting() {
        shutdownWritten := true;
      }
    }

    method Shutdown()
      requires Valid()
      modifies this`state, this`shutdownWritten
      ensures Valid() && View() == AfterShutdown(old(View()))
    {
      if state == Connected {
        state := Disconnecting;
        ShutdownInLoop();
      }
    }

    method HandleWrite(result: WriteResult)
      requires Valid() && (result.Wrote? ==> result.n <= |View().pending|)
      modifies this, channel, outputBuffer
      ensures Valid() && outputBuffer.data == old(outputBuffer.data)
      ensures View() == AfterHandleWrite(old(View()), result)
    {
      if channel.IsWriting() {
        if result.Wrote? && result.n > 0 {
          accepted := accepted + outputBuffer.Contents()[..result.n];
          outputBuffer.Retrieve(result.n);
          if outputBuffer.ReadableBytes() == 0 {
            channel.events := channel.events.(write := false);
            completes := completes + 1;
            if state == Disconnected {
              ShutdownInLoop();
            }
          }
        }
      }
    }

    method HandleClose()
      requires Valid() && state in {Connected, Disconnecting}
      modifies this`closes, channel
      ensures Valid() && View() == AfterHandleClose(old(View()))
    {
      channel.events := NONE;
      closes := closes + 1;
    }

    /** A read of no bytes is the end of the stream and closes; an error is only logged. */
    method HandleRead(result: B.ReadResult) returns (messageCallback: bool)
      requires Valid() && state in {Connected, Disconnecting}
      requires result.Received? ==> |result.bytes| <= inputBuffer.WritableBytes() + B.EXTRA_SIZE
      modifies this`closes, channel, inputBuffer, inputBuffer.data
      ensures Valid()
      ensures View() == if result == B.Received([]) then AfterHandleClose(old(View())) else old(View())
      ensures inputBuffer.Contents() == old(inputBuffer.Contents()) + (if result.Received? then result.bytes else [])
      ensures messageCallback <==> result.Received? && result.bytes != []
    {
      var n, savedErrno := inputBuffer.ReadFd(result);
      messageCallback := n > 0;
      if n == 0 {
        HandleClose();
      }
    }

    method ConnectEstablished()
      requires Valid() && state == Connecting
      modifies this`state, channel
      ensures Valid() && View() == AfterConnectEstablished(old(View()))
    {
      state := Connected;
      channel.events := channel.events.(read := true);
    }

    method ConnectDestroyed()
      requires Valid() && state in {Connected, Disconnecting}
      modifies this`state, channel
      ensures Valid() && View() == AfterConnectDestroyed(old(View()))
    {
      state := Disconnected;
      channel.events := NONE;
    }
  }

  // ----- Every run -----

  /** What happens to a connection on its I/O thread, with whatever write(2) answers. */
  datatype Action =
    | Send(message: seq<char>, result: WriteResult) | Writable(result: WriteResult) | Shutdown | Close | Establish | Destroy

  predicate Enabled(v: Conn, a: Action) {
    match a
    case Send(message, result) => PossibleSend(v, message, result)
    case Writable(result) => result.Wrote? ==> result.n <= |v.pending|
    case Shutdown => true
    case Close => v.state in {Connected, Disconnecting}
    case Establish => v.state == Connecting
    case Destroy => v.state in {Connected, Disconnecting}
  }

  function Do(v: Conn, a: Action): Conn
    requires Enabled(v, a)
  {
    match a
    case Send(message, result) => if v.state == Connected then AfterSendInLoop(v, message, result) else v
    case Writable(result) => AfterHandleWrite(v, result)
    case Shutdown => AfterShutdown(v)
    case Close => AfterHandleClose(v)
    case Establish => AfterConnectEstablished(v)
    case Destroy => AfterConnectDestroyed(v)
  }

  /** The bytes that an action hands over to the connection. */
  function Given(v: Conn, a: Action): seq<char> {
    if a.Send? && v.state == Connected then a.message else []
  }

  predicate Legal(v: Conn, run: seq<Action>)
    decreases |run|
  {
    run == [] || (Enabled(v, run[0]) && Legal(Do(v, run[0]), run[1..]))
  }

  function After(v: Conn, run: seq<Action>): Conn
    requires Legal(v, run)
    decreases |run|
  {
    if run == [] then v else After(Do(v, run[0]), run[1..])
  }

  /** The concatenation of the messages that were sent while connected. */
  function Stream(v: Conn, run: seq<Action>): seq<char>
    requires Legal(v, run)
    decreases |run|
  {
    if run == [] then [] else Given(v, run[0]) + Stream(Do(v, run[0]), run[1..])
  }

  lemma SendKeepsOrder(v: Conn, message: seq<char>, result: WriteResult)
    requires PossibleSend(v, message, result)
    ensures var v' := AfterSendInLoop(v, message, result); v'.accepted + v'.pending == v.accepted + v.pending + message
  {
    var n := TakenAtOnce(v, result);
    if n > 0 {
      assert v.pending == [];
    }
    assert message == message[..n] + message[n..];
  }

  lemma WriteKeepsOrder(v: Conn, result: WriteResult)
    requires result.Wrote? ==> result.n <= |v.pending|
    ensures var v' := AfterHandleWrite(v, result); v'.accepted + v'.pending == v.accepted + v.pending
  {
    if v.writing && result.Wrote? && result.n > 0 {
      assert v.pending == v.pending[..result.n] + v.pending[result.n..];
    }
  }

  lemma StepKeepsOrder(v: Conn, a: Action)
    requires Enabled(v, a)
    ensures Do(v, a).accepted + Do(v, a).pending == v.accepted + v.pending + Given(v, a)
  {
    match a
    case Send(message, result) => SendKeepsOrder(v, message, result);
    case Writable(result) => WriteKeepsOrder(v, result);
    case _ =>
      hide AfterSendInLoop, AfterHandleWrite;
  }

  /** Until the connection is closed, write interest is on exactly while output is pending, and a half-closed
      socket has nothing pending. */
  predicate Inv(v: Conn) {
    && (v.closes == 0 && v.state != Disconnected ==> (v.writing <==> v.pending != []))
    && (v.closes == 0 && v.state != Disconnected && v.shut ==> v.pending == [])
    && (v.shut ==> v.state in {Disconnecting, Disconnected})
    && (v.state == Connecting ==> v.pending == [] && !v.writing && v.closes == 0)
    && (v.state == Disconnected ==> !v.writing)
  }

  lemma StepKeepsInv(v: Conn, a: Action)
    requires Inv(v) && Enabled(v, a)
    ensures Inv(Do(v, a))
  {
  }

  lemma {:induction false} RunKeepsInv(v: Conn, run: seq<Action>)
    requires Inv(v) && Legal(v, run)
    ensures Inv(After(v, run))
    ensures After(v, run).accepted + After(v, run).pending == v.accepted + v.pending + Stream(v, run)
    decreases |run|
  {
    if run != [] {
      StepKeepsInv(v, run[0]);
      StepKeepsOrder(v, run[0]);
      RunKeepsInv(Do(v, run[0]), run[1..]);
      var given, rest := Given(v, run[0]), Stream(Do(v, run[0]), run[1..]);
      assert v.accepted + v.pending + given + rest == v.accepted + v.pending + (given + rest);
    }
  }

  /** Whatever the socket takes of each write, the bytes it took and the bytes pending are the messages sent,
      in order; until the connection is closed, a half-closed socket has taken all of them. */
  lemma StreamOrder(run: seq<Action>)
    requires Legal(NEW_CONN, run)
    ensures var v := After(NEW_CONN, run);
            && v.accepted + v.pending == Stream(NEW_CONN, run)
            && (v.closes == 0 && v.state != Disconnected ==> (v.writing <==> v.pending != []))
            && (v.closes == 0 && v.state != Disconnected && v.shut ==> v.accepted == Stream(NEW_CONN, run))
  {
    RunKeepsInv(NEW_CONN, run);
  }

  /** The messages sent between the establishment and the first shutdown or teardown, read off the steps alone;
      `open` tells whether the connection is between these. */
  function SentWhileOpen(open: bool, run: seq<Action>): seq<char>
    decreases |run|
  {
    if run == [] then []
    else
      match run[0]
      case Send(message, _) => (if open then message else []) + SentWhileOpen(open, run[1..])
      case Establish => SentWhileOpen(true, run[1..])
      case Shutdown => SentWhileOpen(false, run[1..])
      case Destroy => SentWhileOpen(false, run[1..])
      case _ => SentWhileOpen(open, run[1..])
  }

  /** Whether the connection reads: from its establishment to its close or teardown. */
  predicate Reads(before: bool, run: seq<Action>)
    decreases |run|
  {
    if run == [] then before
    else Reads(if run[0].Establish? then true else if run[0].Close? || run[0].Destroy? then false else before, run[1..])
  }

  lemma StepMovesState(v: Conn, a: Action)
    requires Enabled(v, a)
    ensures Do(v, a).state ==
            match a
            case Establish => Connected
            case Shutdown => if v.state == Connected then Disconnecting else v.state
            case Destroy => Disconnected
            case _ => v.state
    ensures Do(v, a).reading <==> a.Establish? || (v.reading && !a.Close? && !a.Destroy?)
  {
    hide PossibleSend;
  }

  lemma {:induction false} StreamIsSentWhileOpen(v: Conn, run: seq<Action>)
    requires Legal(v, run)
    ensures Stream(v, run) == SentWhileOpen(v.state == Connected, run)
    ensures After(v, run).reading <==> Reads(v.reading, run)
    decreases |run|
  {
    hide Do, Enabled;
    if run != [] {
      StepMovesState(v, run[0]);
      StreamIsSentWhileOpen(Do(v, run[0]), run[1..]);
    }
  }

  /** The bytes taken and pending are the messages sent while the connection was open; it reads while it is. */
  lemma AcceptedIsWhatWasSent(run: seq<Action>)
    requires Legal(NEW_CONN, run)
    ensures After(NEW_CONN, run).accepted + After(NEW_CONN, run).pending == SentWhileOpen(false, run)
    ensures After(NEW_CONN, run).reading <==> Reads(false, run)
  {
    hide Legal, After, Stream, SentWhileOpen, Reads;
    StreamOrder(run);
    StreamIsSentWhileOpen(NEW_CONN, run);
  }

  /** A step writes to the socket if and only if it is a send while connected with nothing waiting, or a writable
      event while write interest is on, and then the connection counts exactly the bytes that the socket took. */
  lemma StepTakesExactly(v: Conn, a: Action)
    requires Enabled(v, a)
    ensures |Do(v, a).accepted| == |v.accepted| +
            match a
            case Send(_, Wrote(n)) => if v.state == Connected && !v.writing && v.pending == [] then n else 0
            case Writable(Wrote(n)) => if v.writing then n else 0
            case _ => 0
  {
  }

  /** The write-complete callback is queued if and only if such a write takes the whole message, or all that is
      pending; a write of no bytes to a writable socket does not count. */
  lemma StepCompletesExactly(v: Conn, a: Action)
    requires Enabled(v, a)
    ensures Do(v, a).completes == v.completes +
            match a
            case Send(message, Wrote(n)) =>
              if v.state == Connected && !v.writing && v.pending == [] && n == |message| then 1 else 0
            case Writable(Wrote(n)) => if v.writing && n > 0 && n == |v.pending| then 1 else 0
            case _ => 0
  {
  }

  /** A write-complete callback is queued only by a step that leaves nothing pending. */
  lemma CompleteMeansDrained(v: Conn, a: Action)
    requires Inv(v) && Enabled(v, a) && Do(v, a).completes > v.completes
    ensures Do(v, a).pending == [] && !Do(v, a).writing && Do(v, a).completes == v.completes + 1
    ensures Do(v, a).accepted == v.accepted + v.pending + Given(v, a)
  {
    StepKeepsOrder(v, a);
  }

  /** Until the connection is closed, `shutdown` half-closes the socket exactly when nothing is pending. */
  lemma ShutdownHalfClosesExactly(v: Conn)
    requires Inv(v) && v.state == Connected && v.closes == 0
    ensures Do(v, Action.Shutdown).shut <==> v.pending == []
  {
  }

  /** Whether a send leaves a byte behind that the socket does not take at once. */
  predicate Leftover(v: Conn, message: seq<char>, result: WriteResult)
    requires PossibleSend(v, message, result)
  {
    TakenAtOnce(v, result) < |message|
  }

  /** A send while write interest is off, as it is after a close, turns it on if and only if there is a byte that
      the socket does not take: any, when output is pending already. */
  lemma SendTurnsWritingOnExactly(v: Conn, message: seq<char>, result: WriteResult)
    requires PossibleSend(v, message, result) && !v.writing
    ensures AfterSendInLoop(v, message, result).writing <==> Leftover(v, message, result)
    ensures Leftover(v, message, result) <==>
            message != [] && (v.pending != [] || result.Failed? || result.n < |message|)
  {
  }

  /** A half-close that found output pending is never made up for: draining the buffer tests for a state
      in which no output is written. */
  lemma {:induction false} HalfCloseIsLost(v: Conn, run: seq<Action>)
    requires Inv(v) && v.state in {Disconnecting, Disconnected} && !v.shut && Legal(v, run)
    ensures !After(v, run).shut
    decreases |run|
  {
    if run != [] {
      StepKeepsInv(v, run[0]);
      HalfCloseIsLost(Do(v, run[0]), run[1..]);
    }
  }

  lemma {:induction false} HalfCloseStays(v: Conn, run: seq<Action>)
    requires v.shut && Legal(v, run)
    ensures After(v, run).shut
    decreases |run|
  {
    if run != [] {
      HalfCloseStays(Do(v, run[0]), run[1..]);
    }
  }

  /** After `shutdown`, at any later time, the socket is half-closed if and only if nothing was being written
      when `shutdown` was called; before the connection is closed, that is if and only if nothing was pending. */
  lemma HalfClosedExactly(v: Conn, run: seq<Action>)
    requires Inv(v) && v.state == Connected && Legal(Do(v, Action.Shutdown), run)
    ensures After(Do(v, Action.Shutdown), run).shut <==> !v.writing
    ensures v.closes == 0 ==> (After(Do(v, Action.Shutdown), run).shut <==> v.pending == [])
  {
    var v' := Do(v, Action.Shutdown);
    StepKeepsInv(v, Action.Shutdown);
    if v'.shut {
      HalfCloseStays(v', run);
    } else {
      HalfCloseIsLost(v', run);
    }
  }

  lemma Then(v: Conn, a: Action, run: seq<Action>)
    requires Enabled(v, a) && Legal(Do(v, a), run)
    ensures Legal(v, [a] + run) && After(v, [a] + run) == After(Do(v, a), run)
  {
    hide Do, Enabled;
    assert ([a] + run)[1..] == run;
  }

  const OPEN := NEW_CONN.(state := Connected, reading := true)

  lemma Establishes()
    ensures Enabled(NEW_CONN, Establish) && Do(NEW_CONN, Establish) == OPEN
  {
  }

  lemma SendsNothing(message: seq<char>)
    requires message != []
    ensures Enabled(OPEN, Send(message, Wrote(0)))
    ensures Do(OPEN, Send(message, Wrote(0))) == OPEN.(pending := message, writing := true)
  {
    assert message[..0] == [] && [] + message[0..] == message;
  }

  lemma ShutsDown(message: seq<char>)
    ensures var v := OPEN.(pending := message, writing := true);
            Enabled(v, Action.Shutdown) && Do(v, Action.Shutdown) == v.(state := Disconnecting)
  {
  }

  lemma Drains(message: seq<char>)
    requires message != []
    ensures var v, a := OPEN.(pending := message, writing := true, state := Disconnecting), Writable(Wrote(|message|));
            && Enabled(v, a)
            && Do(v, a) == v.(pending := [], accepted := message, writing := false, completes := 1)
  {
    assert [] + message[..|message|] == message && message[|message|..] == [];
  }

  /** A run that loses its half-close: the socket takes nothing of a message at first, the user shuts down,
      and then the socket takes all of it. */
  lemma DrainedButNotHalfClosed(message: seq<char>)
    requires message != []
    ensures var run := [Establish, Send(message, Wrote(0)), Action.Shutdown, Writable(Wrote(|message|))];
            && Legal(NEW_CONN, run)
            && After(NEW_CONN, run).accepted == message && After(NEW_CONN, run).pending == []
            && After(NEW_CONN, run).state == Disconnecting && !After(NEW_CONN, run).shut
  {
    hide Do, Enabled;
    Establishes();
    SendsNothing(message);
    ShutsDown(message);
    Drains(message);
    var v1 := OPEN;
    var v2 := v1.(pending := message, writing := true);
    var v3 := v2.(state := Disconnecting);
    Then(v3, Writable(Wrote(|message|)), []);
    Then(v2, Action.Shutdown, [Writable(Wrote(|message|))]);
    Then(v1, Send(message, Wrote(0)), [Action.Shutdown, Writable(Wrote(|message|))]);
    Then(NEW_CONN, Establish, [Send(message, Wrote(0)), Action.Shutdown, Writable(Wrote(|message|))]);
    assert [Writable(Wrote(|message|))] + [] == [Writable(Wrote(|message|))];
    assert [Action.Shutdown] + [Writable(Wrote(|message|))] == [Action.Shutdown, Writable(Wrote(|message|))];
    assert [Send(message, Wrote(0))] + [Action.Shutdown, Writable(Wrote(|message|))]
        == [Send(message, Wrote(0)), Action.Shutdown, Writable(Wrote(|message|))];
    assert [Establish] + [Send(message, Wrote(0)), Action.Shutdown, Writable(Wrote(|message|))]
        == [Establish, Send(message, Wrote(0)), Action.Shutdown, Writable(Wrote(|message|))];
  }

  // ----- Closing inside one event -----

  const ALL_CALLBACKS := {CloseCallback, ErrorCallback, ReadCallback, WriteCallback}

  /** How often one dispatch calls `handleClose`: from the close callback, and from a read of no bytes. */
  function ClosesIn(mask: Mask, readReturnsZero: bool): nat {
    var calls := Dispatch(mask, ALL_CALLBACKS);
    (if CloseCallback in calls then 1 else 0) + (if ReadCallback in calls && readReturnsZero then 1 else 0)
  }

  /** A hang-up without readable data closes twice exactly when the read then finds the end of the stream. */
  lemma ClosesTwiceExactly(mask: Mask, readReturnsZero: bool)
    ensures ClosesIn(mask, readReturnsZero) == 2 <==> mask.pollhup && !mask.pollin && readReturnsZero
    ensures ClosesIn(mask, readReturnsZero) == 0 <==>
            !(mask.pollhup && !mask.pollin) && !((mask.pollin || mask.pollpri || mask.pollhup) && readReturnsZero)
  {
  }
}
