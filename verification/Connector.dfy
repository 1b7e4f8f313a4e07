/**
 The connector: one connection attempt after another, each with a socket of its own, with growing delays
 between the attempts that fail.
 */
module Connector {
  import opened Channel
  import opened Wrappers

  const INIT_RETRY_DELAY_MS := 500
  const MAX_RETRY_DELAY_MS := 30 * 1000

  datatype States = Disconnected | Connecting | Connected

  /** What connect(2) may answer, as far as the source tells the cases apart. */
  datatype Errno =
    | Zero | EINPROGRESS | EINTR | EISCONN
    | EAGAIN | EADDRINUSE | EADDRNOTAVAIL | ECONNREFUSED | ENETUNREACH
    | EACCES | EPERM | EAFNOSUPPORT | EALREADY | EBADF | EFAULT | ENOTSOCK
    | OtherErrno

  predicate InProgress(e: Errno) {
    e in {Zero, EINPROGRESS, EINTR, EISCONN}
  }

  predicate Retryable(e: Errno) {
    e in {EAGAIN, EADDRINUSE, EADDRNOTAVAIL, ECONNREFUSED, ENETUNREACH}
  }

  /** What a handler finds out about its socket: SO_ERROR, and whether it is connected to itself. */
  datatype Probe = Probe(error: bool, selfConnect: bool)

  /** Sockets are numbered in the order in which they are made; the numbers, unlike descriptors, are never
      used again. */
  type Sock = nat

  /** `watched`: the channel is in the poller. `timer`: a retry is scheduled, or still to fire. `resets`: queued calls of
      `resetChannel`. History: the sockets closed and handed over, and the delays since construction or
      the last restart. */
  datatype View = View(connect: bool, state: States, channel: Option<Sock>, watched: bool, retryDelayMs: int, timer: bool,
                       resets: nat, nextSock: Sock, closed: seq<Sock>, handed: seq<Sock>, delays: seq<int>)

  const NEW_CONNECTOR := View(false, Disconnected, None, false, INIT_RETRY_DELAY_MS, false, 0, 0, [], [], [])

  function Min(a: int, b: int): int {
    if a < b then a else b
  }

  function AfterRetry(v: View, sock: Sock): View {
    var gone := v.(closed := v.closed + [sock], state := Disconnected);
    if v.connect
    then gone.(timer := true, delays := v.delays + [v.retryDelayMs], retryDelayMs := Min(v.retryDelayMs * 2, MAX_RETRY_DELAY_MS))
    else gone
  }

  function AfterConnect(v: View, e: Errno): View {
    var sock := v.nextSock;
    var made := v.(nextSock := sock + 1);
    if InProgress(e) then made.(state := Connecting, channel := Some(sock), watched := true)
    else if Retryable(e) then AfterRetry(made, sock)
    else made.(closed := made.closed + [sock])
  }

  function AfterStartInLoop(v: View, e: Errno): View {
    if v.connect then AfterConnect(v, e) else v
  }

  function AfterRestart(v: View, e: Errno): View {
    AfterStartInLoop(v.(state := Disconnected, retryDelayMs := INIT_RETRY_DELAY_MS, delays := [], connect := true), e)
  }

  function AfterStart(v: View, e: Errno): View {
    AfterStartInLoop(v.(connect := true), e)
  }

  function AfterStop(v: View, inBatch: bool): View {
    v.(connect := false, timer := v.timer && inBatch)
  }

  function AfterRemove(v: View): View {
    v.(watched := false, resets := v.resets + 1)
  }

  function AfterHandleWrite(v: View, probe: Probe): View
    requires v.channel.Some?
  {
    if v.state != Connecting then v
    else
      var removed := AfterRemove(v);
      if probe.error || probe.selfConnect then AfterRetry(removed, v.channel.value)
      else if v.connect then removed.(state := Connected, handed := v.handed + [v.channel.value])
      else removed.(state := Connected, closed := v.closed + [v.channel.value])
  }

  function AfterHandleError(v: View): View
    requires v.channel.Some?
  {
    AfterRetry(AfterRemove(v), v.channel.value)
  }

  const CALLBACKS := {ErrorCallback, WriteCallback}

  /** One event: the error handler, then the write handler, as the mask asks for them. */
  function AfterEvent(v: View, mask: Mask, probe: Probe): View
    requires v.channel.Some?
  {
    var calls := Dispatch(mask, CALLBACKS);
    var v1 := if ErrorCallback in calls then AfterHandleError(v) else v;
    if WriteCallback in calls then AfterHandleWrite(v1, probe) else v1
  }

  class Connector {
    var connect: bool
    var state: States
    var channel: Option<Sock>
    var watched: bool
    var retryDelayMs: int
    var timer: bool
    var resets: nat
    var nextSock: Sock
    ghost var closed: seq<Sock>
    ghost var handed: seq<Sock>
    ghost var delays: seq<int>

    ghost function Current(): View
      reads this
    {
      View(connect, state, channel, watched, retryDelayMs, timer, resets, nextSock, closed, handed, delays)
    }

    constructor ()
      ensures Current() == NEW_CONNECTOR
    {
      connect, state, channel, watched := false, Disconnected, None, false;
      retryDelayMs, timer, resets, nextSock := INIT_RETRY_DELAY_MS, false, 0, 0;
      closed, handed, delays := [], [], [];
    }

    method CloseSocket(sock: Sock)
      modifies this`closed
      ensures closed == old(closed) + [sock]
    {
      closed := closed + [sock];
    }

    method Retry(sock: Sock)
      modifies this
      ensures Current() == AfterRetry(old(Current()), sock)
    {
      CloseSocket(sock);
      state := Disconnected;
      if connect {
        timer := true;
        delays := delays + [retryDelayMs];
        retryDelayMs := Min(retryDelayMs * 2, MAX_RETRY_DELAY_MS);
      }
    }

    method StartConnecting(sock: Sock)
      requires channel.None?
      modifies this`state, this`channel, this`watched
      ensures state == Connecting && channel == Some(sock) && watched
    {
      state := Connecting;
      channel := Some(sock);
      watched := true;
    }

    method Connect(e: Errno)
      requires channel.None?
      modifies this
      ensures Current() == AfterConnect(old(Current()), e)
    {
      var sock := nextSock;
      nextSock := nextSock + 1;
      match e
      case Zero | EINPROGRESS | EINTR | EISCONN =>
        StartConnecting(sock);
      case EAGAIN | EADDRINUSE | EADDRNOTAVAIL | ECONNREFUSED | ENETUNREACH =>
        Retry(sock);
      case EACCES | EPERM | EAFNOSUPPORT | EALREADY | EBADF | EFAULT | ENOTSOCK =>
        CloseSocket(sock);
      case OtherErrno =>
        CloseSocket(sock);
    }

    method StartInLoop(e: Errno)
      requires state == Disconnected && channel.None?
      modifies this
      ensures Current() == AfterStartInLoop(old(Current()), e)
    {
      if connect {
        Connect(e);
      }
    }

    method Start(e: Errno)
      requires state == Disconnected && channel.None?
      modifies this
      ensures Current() == AfterStart(old(Current()), e)
    {
      connect := true;
      StartInLoop(e);
    }

    method Restart(e: Errno)
      requires channel.None?
      modifies this
      ensures Current() == AfterRestart(old(Current()), e)
    {
      state := Disconnected;
      retryDelayMs := INIT_RETRY_DELAY_MS;
      delays := [];
      connect := true;
      StartInLoop(e);
    }

    /** `inBatch`: the retry is among the timers that are due, and its turn is still to come; then cancelling it
        comes too late. */
    method Stop(inBatch: bool)
      modifies this`connect, this`timer
      ensures Current() == AfterStop(old(Current()), inBatch)
    {
      connect := false;
      if !inBatch {
        timer := false;
      }
    }

    method RemoveAndResetChannel() returns (sock: Sock)
      requires channel.Some?
      modifies this`watched, this`resets
      ensures sock == channel.value && Current() == AfterRemove(old(Current()))
    {
      watched := false;
      sock := channel.value;
      resets := resets + 1;
    }

    method ResetChannel()
      modifies this`channel
      ensures channel.None?
    {
      channel := None;
    }

    method HandleWrite(probe: Probe)
      requires channel.Some? && state != Connected
      modifies this
      ensures Current() == AfterHandleWrite(old(Current()), probe)
    {
      if state == Connecting {
        var sock := RemoveAndResetChannel();
        if probe.error {
          Retry(sock);
        } else if probe.selfConnect {
          Retry(sock);
        } else {
          state := Connected;
          if connect {
            handed := handed + [sock];
          } else {
            CloseSocket(sock);
          }
        }
      } else {
        assert state == Disconnected;
      }
    }

    method HandleError()
      requires channel.Some? && state == Connecting
      modifies this
      ensures Current() == AfterHandleError(old(Current()))
    {
      var sock := RemoveAndResetChannel();
      Retry(sock);
    }

    method HandleEvent(mask: Mask, probe: Probe)
      requires channel.Some? && state == Connecting
      modifies this
      ensures Current() == AfterEvent(old(Current()), mask, probe)
    {
      if mask.pollerr || mask.pollnval {
        HandleError();
      }
      if mask.pollout {
        HandleWrite(probe);
      }
    }
  }

  // ----- Every run -----

  datatype Action = Start(e: Errno) | TimerFires(e: Errno) | Restart(e: Errno) | Stop(inBatch: bool) | Event(mask: Mask, probe: Probe) | RunReset

  /** The hypotheses on the callers: `start` comes only when nothing is going on, and no retry is still to fire,
      be it stopped or not; `restart` when no attempt and no retry is; and a queued reset runs before the next
      retry. */
  predicate Enabled(v: View, a: Action) {
    match a
    case Start(_) => v.state == Disconnected && !v.timer && v.resets == 0
    case TimerFires(_) => v.timer && v.resets == 0
    case Restart(_) => v.state != Connecting && !v.timer && v.resets == 0
    case Stop(_) => true
    case Event(_, _) => v.watched && v.channel.Some?
    case RunReset => v.resets > 0
  }

  function Do(v: View, a: Action): View
    requires Enabled(v, a)
  {
    match a
    case Start(e) => AfterStart(v, e)
    case TimerFires(e) => AfterStartInLoop(v.(timer := false), e)
    case Restart(e) => AfterRestart(v, e)
    case Stop(inBatch) => AfterStop(v, inBatch)
    case Event(mask, probe) => AfterEvent(v, mask, probe)
    case RunReset => v.(channel := None, resets := v.resets - 1)
  }

  /** The assertions that the source makes at a step. */
  predicate AssertionsHold(v: View, a: Action)
    requires Enabled(v, a)
  {
    match a
    case Start(_) => v.state == Disconnected && v.channel.None?
    case TimerFires(_) => v.state == Disconnected && v.channel.None?
    case Restart(_) => v.channel.None?
    case Event(_, _) => v.state == Connecting
    case _ => true
  }

  /** The delay before the k-th consecutive retry. */
  function Delay(k: nat): int {
    Min(INIT_RETRY_DELAY_MS * Power2(k), MAX_RETRY_DELAY_MS)
  }

  function Power2(k: nat): nat {
    if k == 0 then 1 else 2 * Power2(k - 1)
  }

  /** How often a socket was closed or handed over. */
  function Times(v: View, sock: Sock): nat {
    multiset(v.closed)[sock] + multiset(v.handed)[sock]
  }

  /** Every socket made was disposed of once, except the one that is connecting. */
  ghost predicate SocketsAccountedFor(v: View) {
    forall sock: Sock :: Times(v, sock) == if sock < v.nextSock && !(v.state == Connecting && v.channel == Some(sock)) then 1 else 0
  }

  ghost predicate Inv(v: View) {
    && SocketsAccountedFor(v)
    && (v.state == Connecting ==> v.channel.Some? && v.channel.value < v.nextSock && v.resets == 0)
    && (v.watched <==> v.state == Connecting)
    && v.resets <= 1 && (v.state != Connecting ==> (v.channel.Some? <==> v.resets == 1))
    && (v.timer ==> v.state == Disconnected)
    && v.retryDelayMs == Delay(|v.delays|)
    && (forall k :: 0 <= k < |v.delays| ==> v.delays[k] == Delay(k))
  }

  lemma DelayDoubles(k: nat)
    ensures Delay(k + 1) == Min(Delay(k) * 2, MAX_RETRY_DELAY_MS)
    ensures Delay(0) == INIT_RETRY_DELAY_MS
  {
  }

  /** Steps that dispose of nothing and make nothing leave the accounts alone. */
  lemma AccountsStay(v: View, v': View)
    requires SocketsAccountedFor(v) && v'.closed == v.closed && v'.handed == v.handed && v'.nextSock == v.nextSock
    requires (v.state == Connecting && v' == v.(connect := v'.connect, timer := v'.timer)) || (v.state != Connecting && v'.state != Connecting)
    ensures SocketsAccountedFor(v')
  {
    forall sock: Sock
      ensures Times(v', sock) == if sock < v'.nextSock && !(v'.state == Connecting && v'.channel == Some(sock)) then 1 else 0
    {
      assert Times(v, sock) == Times(v', sock);
    }
  }

  /** Disposing of `x`, which nobody has disposed of, completes its account. */
  lemma AccountsSettle(v: View, v': View, x: Sock)
    requires forall sock: Sock :: Times(v, sock) == if sock < v'.nextSock && sock != x then 1 else 0
    requires x < v'.nextSock && v'.state != Connecting
    requires (v'.closed == v.closed + [x] && v'.handed == v.handed) || (v'.closed == v.closed && v'.handed == v.handed + [x])
    ensures SocketsAccountedFor(v')
  {
    forall sock: Sock
      ensures Times(v', sock) == if sock < v'.nextSock then 1 else 0
    {
      assert Times(v, sock) == if sock < v'.nextSock && sock != x then 1 else 0;
    }
  }

  lemma ConnectKeepsAccounts(v: View, e: Errno)
    requires SocketsAccountedFor(v) && v.state == Disconnected
    ensures SocketsAccountedFor(AfterConnect(v, e))
  {
    var v' := AfterConnect(v, e);
    forall sock: Sock
      ensures Times(v, sock) == if sock < v'.nextSock && sock != v.nextSock then 1 else 0
    {
    }
    if InProgress(e) {
      forall sock: Sock
        ensures Times(v', sock) == if sock < v'.nextSock && v'.channel != Some(sock) then 1 else 0
      {
        assert Times(v, sock) == Times(v', sock);
      }
    } else {
      AccountsSettle(v, v', v.nextSock);
    }
  }

  lemma ConnectKeepsInv(v: View, e: Errno)
    requires Inv(v) && v.state == Disconnected && v.resets == 0 && v.connect && !v.timer
    ensures Inv(AfterConnect(v, e))
  {
    DelayDoubles(|v.delays|);
    ConnectKeepsAccounts(v, e);
    hide SocketsAccountedFor, Delay;
  }

  /** After the error handler the write handler finds nothing to do. */
  lemma EventCases(v: View, mask: Mask, probe: Probe)
    requires v.state == Connecting && v.channel.Some?
    ensures AfterEvent(v, mask, probe) ==
            if mask.pollerr || mask.pollnval then AfterHandleError(v)
            else if mask.pollout then AfterHandleWrite(v, probe)
            else v
  {
    var calls := Dispatch(mask, CALLBACKS);
    assert ErrorCallback in calls <==> mask.pollerr || mask.pollnval;
    assert WriteCallback in calls <==> mask.pollout;
    hide Dispatch;
  }

  lemma EventSettles(v: View, mask: Mask, probe: Probe)
    requires SocketsAccountedFor(v) && v.state == Connecting && v.channel.Some? && v.channel.value < v.nextSock
    requires AfterEvent(v, mask, probe) != v
    ensures SocketsAccountedFor(AfterEvent(v, mask, probe))
  {
    AccountsSettle(v, AfterEvent(v, mask, probe), v.channel.value);
    hide SocketsAccountedFor, Times;
  }

  lemma EventKeepsInv(v: View, mask: Mask, probe: Probe)
    requires Inv(v) && v.state == Connecting
    ensures Inv(AfterEvent(v, mask, probe))
  {
    hide SocketsAccountedFor, Delay, Times, AfterEvent;
    DelayDoubles(|v.delays|);
    EventCases(v, mask, probe);
    if AfterEvent(v, mask, probe) != v {
      EventSettles(v, mask, probe);
    }
  }

  lemma StepKeepsInv(v: View, a: Action)
    requires Inv(v) && Enabled(v, a)
    ensures Inv(Do(v, a)) && AssertionsHold(v, a)
  {
    DelayDoubles(0);
    match a
    case Start(e) =>
      AccountsStay(v, v.(connect := true));
      ConnectKeepsInv(v.(connect := true), e);
    case TimerFires(e) =>
      AccountsStay(v, v.(timer := false));
      if v.connect {
        ConnectKeepsInv(v.(timer := false), e);
      }
    case Restart(e) =>
      var again := v.(state := Disconnected, retryDelayMs := INIT_RETRY_DELAY_MS, delays := [], connect := true);
      AccountsStay(v, again);
      ConnectKeepsInv(again, e);
    case Event(mask, probe) => EventKeepsInv(v, mask, probe);
    case Stop(_) => AccountsStay(v, Do(v, a));
    case RunReset => AccountsStay(v, Do(v, a));
  }

  predicate Legal(v: View, run: seq<Action>)
    decreases |run|
  {
    run == [] || (Enabled(v, run[0]) && Legal(Do(v, run[0]), run[1..]))
  }

  function After(v: View, run: seq<Action>): View
    requires Legal(v, run)
    decreases |run|
  {
    if run == [] then v else After(Do(v, run[0]), run[1..])
  }

  lemma {:induction false} RunKeepsInv(v: View, run: seq<Action>)
    requires Inv(v) && Legal(v, run)
    ensures Inv(After(v, run))
    decreases |run|
  {
    if run != [] {
      StepKeepsInv(v, run[0]);
      RunKeepsInv(Do(v, run[0]), run[1..]);
    }
  }

  /** On every run, each socket is closed once or handed over once, at most one is neither, and then it is
      the one that is connecting. */
  lemma SocketsDisposedOnce(run: seq<Action>, sock: Sock)
    requires Legal(NEW_CONNECTOR, run) && sock < After(NEW_CONNECTOR, run).nextSock
    ensures var v := After(NEW_CONNECTOR, run);
            && Times(v, sock) <= 1
            && (Times(v, sock) == 0 <==> v.state == Connecting && v.channel == Some(sock))
  {
    RunKeepsInv(NEW_CONNECTOR, run);
  }

  lemma {:induction false} PowersGrow(j: nat, k: nat)
    requires j <= k
    ensures Power2(j) <= Power2(k)
    decreases k
  {
    if j < k {
      PowersGrow(j, k - 1);
    }
  }

  lemma PowersOfTwo(k: nat)
    ensures if k < 6 then Power2(k) <= 32 else Power2(k) >= 64
  {
    assert Power2(3) == 8;
    assert Power2(5) == 32 && Power2(6) == 64;
    if k < 6 {
      PowersGrow(k, 5);
    } else {
      PowersGrow(6, k);
    }
  }

  /** The k-th consecutive delay since construction or the last restart is min(500 * 2^k, 30000). */
  lemma DelaysDoubleUpToMaximum(run: seq<Action>, k: nat)
    requires Legal(NEW_CONNECTOR, run) && k < |After(NEW_CONNECTOR, run).delays|
    ensures After(NEW_CONNECTOR, run).delays[k] == (if k < 6 then 500 * Power2(k) else 30000)
  {
    RunKeepsInv(NEW_CONNECTOR, run);
    PowersOfTwo(k);
  }

  /** The assertions at a `start` hold, and so do all that follow. */
  ghost predicate StartIsSafe(v: View) {
    && v.state == Disconnected && v.channel.None?
    && forall e, run, a ::
         Legal(AfterStart(v, e), run) && Enabled(After(AfterStart(v, e), run), a) ==> AssertionsHold(After(AfterStart(v, e), run), a)
  }

  /** A `start` is safe if and only if the connector is disconnected, no reset of its channel is queued, and no
      retry is still to fire. A retry that `stop` came too late for is one: it finds an attempt in progress. */
  lemma StartIsSafeExactly(v: View)
    requires Inv(v)
    ensures StartIsSafe(v) <==> v.state == Disconnected && !v.timer && v.resets == 0
  {
    if v.state == Disconnected && !v.timer && v.resets == 0 {
      forall e, run, a | Legal(AfterStart(v, e), run) && Enabled(After(AfterStart(v, e), run), a)
        ensures AssertionsHold(After(AfterStart(v, e), run), a)
      {
        StepKeepsInv(v, Start(e));
        RunKeepsInv(AfterStart(v, e), run);
        StepKeepsInv(After(AfterStart(v, e), run), a);
      }
    } else if v.state == Disconnected && v.channel.None? {
      var started := AfterStart(v, EINPROGRESS);
      hide SocketsAccountedFor, Delay;
      assert Legal(started, []) && After(started, []) == started;
      assert Enabled(started, TimerFires(Zero)) && !AssertionsHold(started, TimerFires(Zero));
    }
  }

  ghost predicate RestartIsSafe(v: View) {
    && v.channel.None?
    && forall e, run, a ::
         Legal(AfterRestart(v, e), run) && Enabled(After(AfterRestart(v, e), run), a) ==> AssertionsHold(After(AfterRestart(v, e), run), a)
  }

  /** A `restart` is safe if and only if there is no channel, so that no attempt is in progress and no reset
      queued, and no retry is still to fire. */
  lemma RestartIsSafeExactly(v: View)
    requires Inv(v)
    ensures RestartIsSafe(v) <==> v.channel.None? && !v.timer
  {
    if v.channel.None? && !v.timer {
      forall e, run, a | Legal(AfterRestart(v, e), run) && Enabled(After(AfterRestart(v, e), run), a)
        ensures AssertionsHold(After(AfterRestart(v, e), run), a)
      {
        StepKeepsInv(v, Restart(e));
        RunKeepsInv(AfterRestart(v, e), run);
        StepKeepsInv(After(AfterRestart(v, e), run), a);
      }
    } else if v.channel.None? {
      var started := AfterRestart(v, EINPROGRESS);
      hide SocketsAccountedFor, Delay;
      assert Legal(started, []) && After(started, []) == started;
      assert Enabled(started, TimerFires(Zero)) && !AssertionsHold(started, TimerFires(Zero));
    }
  }

  lemma Then(v: View, a: Action, run: seq<Action>)
    requires Enabled(v, a) && Legal(Do(v, a), run)
    ensures Legal(v, [a] + run) && After(v, [a] + run) == After(Do(v, a), run)
  {
    hide Do, Enabled;
    assert ([a] + run)[1..] == run;
  }

  /** So it can fail: a retry is due in the same round as another timer, whose callback stops the connector and
      starts it again. */
  lemma StopAndStartFails(e: Errno)
    requires Retryable(e)
    ensures var run := [Start(e), Stop(true)];
            && Legal(NEW_CONNECTOR, run)
            && var started := AfterStart(After(NEW_CONNECTOR, run), EINPROGRESS);
               Enabled(started, TimerFires(Zero)) && !AssertionsHold(started, TimerFires(Zero))
  {
    var v1 := Do(NEW_CONNECTOR, Start(e));
    assert v1.timer && v1.state == Disconnected && v1.resets == 0 && v1.channel.None?;
    var v2 := Do(v1, Stop(true));
    assert v2.timer && v2.state == Disconnected && v2.resets == 0 && v2.channel.None?;
    Then(v1, Stop(true), []);
    Then(NEW_CONNECTOR, Start(e), [Stop(true)]);
    assert [Stop(true)] + [] == [Stop(true)];
    assert [Start(e)] + [Stop(true)] == [Start(e), Stop(true)];
  }

  /** The assertions in the source hold on every run on which `start` and `restart` come when they are safe. */
  lemma AssertionsAlwaysHold(run: seq<Action>, a: Action)
    requires Legal(NEW_CONNECTOR, run) && Enabled(After(NEW_CONNECTOR, run), a)
    ensures AssertionsHold(After(NEW_CONNECTOR, run), a)
  {
    RunKeepsInv(NEW_CONNECTOR, run);
    StepKeepsInv(After(NEW_CONNECTOR, run), a);
  }

  /** An event disposes of its socket at most once, also when it is an error and writable at the same time. */
  lemma EventDisposesAtMostOnce(v: View, mask: Mask, probe: Probe)
    requires Inv(v) && v.state == Connecting
    ensures var v' := AfterEvent(v, mask, probe);
            Times(v', v.channel.value) == if mask.pollerr || mask.pollnval || mask.pollout then 1 else 0
  {
  }

  // ----- What comes of an attempt -----

  predicate Fails(mask: Mask, probe: Probe) {
    mask.pollerr || mask.pollnval || (mask.pollout && (probe.error || probe.selfConnect))
  }

  predicate Succeeds(mask: Mask, probe: Probe) {
    mask.pollout && !mask.pollerr && !mask.pollnval && !probe.error && !probe.selfConnect
  }

  /** After an event, the socket has been handed over if and only if the attempt has succeeded and a connection is
      wanted; it has been closed if and only if the attempt has failed, or has succeeded too late; and a retry is
      scheduled if and only if it has failed while a connection is wanted. */
  lemma EventOutcome(v: View, mask: Mask, probe: Probe)
    requires Inv(v) && v.state == Connecting
    ensures var v', sock := AfterEvent(v, mask, probe), v.channel.value;
            && (sock in v'.handed <==> Succeeds(mask, probe) && v.connect)
            && (sock in v'.closed <==> Fails(mask, probe) || (Succeeds(mask, probe) && !v.connect))
            && (v'.timer <==> Fails(mask, probe) && v.connect)
            && v'.state == (if Fails(mask, probe) then Disconnected else if Succeeds(mask, probe) then Connected else Connecting)
            && (v'.watched <==> v'.state == Connecting)
            && v'.connect == v.connect && v'.nextSock == v.nextSock
            && (forall other: Sock :: other != sock ==> Times(v', other) == Times(v, other))
    ensures var v' := AfterEvent(v, mask, probe);
            if Fails(mask, probe) && v.connect
            then v'.delays == v.delays + [v.retryDelayMs] && v'.retryDelayMs == Min(2 * v.retryDelayMs, 30000)
            else v'.delays == v.delays && v'.retryDelayMs == v.retryDelayMs
  {
    hide Inv, AfterEvent, Times, Min;
    ConnectingIsUndisposed(v);
    EventCases(v, mask, probe);
    OthersAsBefore(v, AfterEvent(v, mask, probe), v.channel.value);
  }

  lemma ConnectingIsUndisposed(v: View)
    requires Inv(v) && v.state == Connecting
    ensures v.channel.Some? && v.channel.value !in v.closed && v.channel.value !in v.handed && !v.timer && v.watched
  {
    hide Delay;
    assert Times(v, v.channel.value) == 0;
  }

  lemma OthersAsBefore(v: View, v': View, sock: Sock)
    requires (v'.closed == v.closed && v'.handed == v.handed) || (v'.closed == v.closed + [sock] && v'.handed == v.handed)
             || (v'.closed == v.closed && v'.handed == v.handed + [sock])
    ensures forall other: Sock :: other != sock ==> Times(v', other) == Times(v, other)
  {
  }

  /** What connect(2) answers decides: the attempt is in progress; or its socket is closed and, if a connection is
      wanted, a retry scheduled; or its socket is closed and nothing follows. */
  lemma ConnectOutcome(v: View, e: Errno)
    ensures var v' := AfterConnect(v, e);
            && v'.nextSock == v.nextSock + 1 && v'.handed == v.handed && v'.connect == v.connect && v'.resets == v.resets
            && match e
               case Zero | EINPROGRESS | EINTR | EISCONN =>
                 && v'.state == Connecting && v'.channel == Some(v.nextSock) && v'.watched
                 && v'.closed == v.closed && v'.timer == v.timer && v'.delays == v.delays
               case EAGAIN | EADDRINUSE | EADDRNOTAVAIL | ECONNREFUSED | ENETUNREACH =>
                 && v'.state == Disconnected && v'.channel == v.channel && v'.watched == v.watched
                 && v'.closed == v.closed + [v.nextSock]
                 && v'.timer == (v.timer || v.connect)
                 && v'.delays == (if v.connect then v.delays + [v.retryDelayMs] else v.delays)
               case _ =>
                 && v'.state == v.state && v'.channel == v.channel && v'.watched == v.watched
                 && v'.closed == v.closed + [v.nextSock] && v'.timer == v.timer && v'.delays == v.delays
  {
    hide Min;
  }

  /** A socket is made by `start`, by `restart`, and by a retry that fires while a connection is wanted, and by nothing
      else. */
  lemma MakesSocketExactly(v: View, a: Action)
    requires Enabled(v, a)
    ensures Do(v, a).nextSock == v.nextSock + if a.Start? || a.Restart? || (a.TimerFires? && v.connect) then 1 else 0
  {
    hide Dispatch, Min;
  }

  /** `start` and `restart` want a connection and make an attempt, `restart` with the first delay; so does a retry, if
      a connection is wanted. */
  lemma StartsAttempt(v: View, e: Errno)
    ensures AfterStart(v, e) == AfterConnect(v.(connect := true), e)
    ensures AfterRestart(v, e).connect
    ensures e == ECONNREFUSED ==> AfterRestart(v, e).delays == [500] && AfterRestart(v, e).retryDelayMs == 1000
    ensures e == EINPROGRESS ==> AfterRestart(v, e).delays == [] && AfterRestart(v, e).retryDelayMs == 500
    ensures Enabled(v, TimerFires(e)) ==>
              Do(v, TimerFires(e)) == if v.connect then AfterConnect(v.(timer := false), e) else v.(timer := false)
  {
  }

  predicate StartsNothing(run: seq<Action>) {
    forall a :: a in run ==> !a.Start? && !a.Restart?
  }

  /** After `stop`, until the next `start` or `restart`, no socket is made and none is handed over, and no retry can
      fire unless it was due already. */
  lemma StoppedStaysStopped(v: View, inBatch: bool, run: seq<Action>)
    requires Legal(Do(v, Stop(inBatch)), run) && StartsNothing(run)
    ensures var v' := After(Do(v, Stop(inBatch)), run);
            !v'.connect && v'.nextSock == v.nextSock && v'.handed == v.handed && (v'.timer ==> v.timer && inBatch)
  {
    UnwantedStaysUnwanted(Do(v, Stop(inBatch)), run);
  }

  lemma {:induction false} UnwantedStaysUnwanted(v: View, run: seq<Action>)
    requires !v.connect && Legal(v, run) && StartsNothing(run)
    ensures var v' := After(v, run); !v'.connect && v'.nextSock == v.nextSock && v'.handed == v.handed && (v'.timer ==> v.timer)
    decreases |run|
  {
    if run != [] {
      UnwantedStep(v, run[0]);
      hide Do, Enabled;
      UnwantedStaysUnwanted(Do(v, run[0]), run[1..]);
    }
  }

  lemma UnwantedStep(v: View, a: Action)
    requires !v.connect && Enabled(v, a) && !a.Start? && !a.Restart?
    ensures var v' := Do(v, a); !v'.connect && v'.nextSock == v.nextSock && v'.handed == v.handed && (v'.timer ==> v.timer)
  {
    hide Dispatch;
  }

  /** A stop changes only what is wanted and what is due. */
  lemma StopLeavesAttempt(v: View, inBatch: bool)
    ensures Do(v, Stop(inBatch)).(connect := v.connect, timer := v.timer) == v && (v.timer && inBatch ==> Do(v, Stop(inBatch)).timer)
  {
  }
}
