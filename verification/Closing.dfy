/**
 When a server's connections close once: the conditions on events and sends under which no close callback fires
 twice, and the runs that fail without them.
 */
module Closing {
  import opened Channel
  import opened ConnStates
  import opened TcpServer
  import opened Wrappers
  import T = TcpConnection

  /** A loop that is not polling is going to tear the connection down before it polls again. */
  predicate TornDownBeforePoll(s: State, c: Cid)
    requires c in s.conns
  {
    var loop := s.conns[c].loop;
    loop in s.phases && loop in s.queues &&
    match s.phases[loop]
    case Polling => false
    case Events(_, _, _) => Destroy(c) in s.queues[loop]
    case Functors(left) => left <= |s.queues[loop]| && Destroy(c) in s.queues[loop][..left]
  }

  /** What the environment has to see to: no dispatch closes twice, and no send leaves output behind on a
      connection that has closed, unless its loop tears it down before it polls again. */
  predicate Careful(s: State, a: Action)
    requires Enabled(s, a)
  {
    match a
    case BeginHandler(_, _, mask, endOfStream) => T.ClosesIn(mask, endOfStream) <= 1
    case Send(_, c, leftover) =>
      leftover && s.conns[c].state == Connected && s.conns[c].closes > 0 ==> TornDownBeforePoll(s, c)
    case _ => true
  }

  predicate CarefulAlways(s: State, run: seq<Action>)
    requires Legal(s, run)
    decreases |run|
  {
    run == [] || (Careful(s, run[0]) && CarefulAlways(Do(s, run[0]), run[1..]))
  }

  /** A connection that has closed and is still to be torn down is not reported again. */
  predicate NotReportedAgain(s: State, c: Cid)
    requires c in s.conns
  {
    var conn := s.conns[c];
    conn.closes > 0 && conn.destroyed == 0 && (conn.watched || conn.loop == ACCEPT_LOOP) ==> TornDownBeforePoll(s, c)
  }

  /** The handlers that a loop is still to run are of connections that have not closed, and the running one
      closes at most once. */
  predicate ClosesFit(s: State, loop: LoopId)
    requires loop in s.phases
  {
    match s.phases[loop]
    case Events(active, handling, closing) =>
      && (forall c :: c in active ==> c in s.conns && s.conns[c].closes == 0)
      && (handling.Some? ==>
            handling.value !in active && handling.value in s.conns && s.conns[handling.value].closes + closing <= 1)
      && (handling.None? ==> closing == 0)
    case _ => true
  }

  predicate Calm(s: State) {
    && Inv(s)
    && (forall c :: c in s.conns ==> NotReportedAgain(s, c))
    && (forall l :: l in s.phases ==> ClosesFit(s, l))
  }

  lemma CalmClosesOnce(s: State, a: Action)
    requires Calm(s) && Enabled(s, a)
    ensures ClosesOnce(s, a)
  {
    hide Inv;
    assert a.Close? ==> ClosesFit(s, a.loop);
  }

  /** How a step changes a connection's history. */
  lemma ClosesChange(s: State, a: Action, c: Cid)
    requires Enabled(s, a) && c in s.conns && c in Do(s, a).conns
    ensures Do(s, a).conns[c].closes ==
            s.conns[c].closes + (if a.Close? && s.phases[a.loop].handling == Some(c) then 1 else 0)
    ensures Do(s, a).conns[c].loop == s.conns[c].loop
    ensures Do(s, a).conns[c].destroyed == 0 ==> s.conns[c].destroyed == 0
    ensures Do(s, a).conns[c].watched && !s.conns[c].watched ==>
              (a.RunFunctor? && s.queues[a.loop][0] == Establish(c)) ||
              (a.Send? && a.c == c && a.leftover && s.conns[c].state == Connected)
  {
  }

  /** A loop's phase changes only by a step of that loop. */
  lemma PhaseChange(s: State, a: Action, l: LoopId)
    requires Enabled(s, a) && l in s.phases
    ensures l in Do(s, a).phases
    ensures a.Accept? || a.Free? || a.Send? || a.Shutdown? || a.loop != l ==> Do(s, a).phases[l] == s.phases[l]
  {
  }

  /** What is queued before stays in its place, but for the functor that runs. */
  lemma QueuePrefix(s: State, a: Action, l: LoopId)
    requires Enabled(s, a) && l in s.queues
    ensures l in Do(s, a).queues
    ensures var popped := if a.RunFunctor? && a.loop == l then s.queues[l][1..] else s.queues[l];
            popped <= Do(s, a).queues[l]
  {
    QueuesChange(s, a);
  }

  lemma HeadOrLater(queue: seq<Functor>, left: nat, f: Functor)
    requires 0 < left <= |queue| && f in queue[..left]
    ensures queue[0] == f || f in queue[1..][..left - 1]
  {
    assert queue[..left] == [queue[0]] + queue[1..][..left - 1];
  }

  lemma PrefixHas(short: seq<Functor>, long: seq<Functor>, left: nat, f: Functor)
    requires short <= long && left <= |short|
    ensures f in short ==> f in long
    ensures f in short[..left] ==> f in long[..left]
  {
    assert long[..left] == short[..left];
  }

  /** A teardown that is to come before the next poll still is, or has come. */
  lemma TeardownComes(s: State, a: Action, c: Cid)
    requires Enabled(s, a) && c in s.conns && c in Do(s, a).conns && TornDownBeforePoll(s, c)
    requires Do(s, a).conns[c].destroyed == 0
    ensures TornDownBeforePoll(Do(s, a), c)
  {
    var loop := s.conns[c].loop;
    var queue := s.queues[loop];
    ClosesChange(s, a, c);
    QueuePrefix(s, a, loop);
    if a == RunFunctor(loop) {
      HeadOrLater(queue, s.phases[loop].left, Destroy(c));
      PrefixHas(queue[1..], Do(s, a).queues[loop], s.phases[loop].left - 1, Destroy(c));
    } else {
      PhaseChange(s, a, loop);
      PrefixHas(queue, Do(s, a).queues[loop], if s.phases[loop].Functors? then s.phases[loop].left else |queue|, Destroy(c));
    }
  }

  lemma StepKeepsNotReported(s: State, a: Action, c: Cid)
    requires Calm(s) && Enabled(s, a) && Careful(s, a) && c in Do(s, a).conns
    ensures NotReportedAgain(Do(s, a), c)
  {
    if c in s.conns {
      ClosesChange(s, a, c);
      assert NotReportedAgain(s, c);
      if a.Close? && s.phases[a.loop].handling == Some(c) {
        CloseOnOwnLoop(s, a.loop);
      } else if a.RunFunctor? {
        HeadTellsStage(s, a.loop);
      }
      if TornDownBeforePoll(s, c) && Do(s, a).conns[c].destroyed == 0 {
        TeardownComes(s, a, c);
      }
    }
  }

  lemma CloseOnOwnLoop(s: State, loop: LoopId)
    requires Calm(s) && Enabled(s, Close(loop))
    ensures s.conns[s.phases[loop].handling.value].loop == loop
    ensures loop == ACCEPT_LOOP ==> TornDownBeforePoll(Do(s, Close(loop)), s.phases[loop].handling.value)
  {
    CalmClosesOnce(s, Close(loop));
    CloseFindsOpen(s, loop);
    var c := s.phases[loop].handling.value;
    if loop == ACCEPT_LOOP {
      var queue := Do(s, Close(loop)).queues[loop];
      assert queue[|queue| - 1] == Destroy(c);
    }
  }

  lemma ReportedHaveNotClosed(s: State, a: Action, c: Cid)
    requires Calm(s) && Enabled(s, a) && a.Report? && c in a.active
    ensures s.conns[c].closes == 0
  {
    assert NotReportedAgain(s, c);
    assert Staged(s, c);
    var stage :| InStage(s, c, stage);
  }

  /** The closes of a connection in the hands of its loop change only by a step of that loop. */
  lemma ClosesStay(s: State, a: Action, l: LoopId, c: Cid)
    requires Calm(s) && Enabled(s, a) && l in s.phases && Handleable(s, l, c)
    requires s.phases[l].Events? && (c in s.phases[l].active || s.phases[l].handling == Some(c))
    ensures c in Do(s, a).conns
    ensures a != Close(l) || s.phases[l].handling != Some(c) ==> Do(s, a).conns[c].closes == s.conns[c].closes
  {
    StepKeepsHandleable(s, a, l, c);
    ClosesChange(s, a, c);
    if a.Close? && a.loop != l {
      CloseOnOwnLoop(s, a.loop);
    }
  }

  lemma StepKeepsFit(s: State, a: Action, l: LoopId)
    requires Calm(s) && Enabled(s, a) && Careful(s, a) && l in Do(s, a).phases
    ensures ClosesFit(Do(s, a), l)
  {
    StepKeepsKeys(s, a);
    PhaseChange(s, a, l);
    assert ClosesFit(s, l) && GoodPhase(s, l);
    if a.Report? && a.loop == l {
      forall c | c in a.active ensures s.conns[c].closes == 0 {
        ReportedHaveNotClosed(s, a, c);
      }
    } else if s.phases[l].Events? {
      forall c | c in s.phases[l].active || s.phases[l].handling == Some(c)
        ensures c in Do(s, a).conns
        ensures a != Close(l) || s.phases[l].handling != Some(c) ==> Do(s, a).conns[c].closes == s.conns[c].closes
      {
        ClosesStay(s, a, l, c);
      }
      if a == Close(l) {
        ClosesChange(s, a, s.phases[l].handling.value);
      }
    }
  }

  lemma StepKeepsCalm(s: State, a: Action)
    requires Calm(s) && Enabled(s, a) && Careful(s, a)
    ensures ClosesOnce(s, a) && Calm(Do(s, a))
  {
    CalmClosesOnce(s, a);
    StepKeepsInv(s, a);
    hide Inv, Do, Enabled, Careful;
    forall c | c in Do(s, a).conns ensures NotReportedAgain(Do(s, a), c) {
      StepKeepsNotReported(s, a, c);
    }
    forall l | l in Do(s, a).phases ensures ClosesFit(Do(s, a), l) {
      StepKeepsFit(s, a, l);
    }
  }

  lemma {:induction false} CarefulRunsCloseOnceFrom(s: State, run: seq<Action>)
    requires Calm(s) && Legal(s, run) && CarefulAlways(s, run)
    ensures ClosesOnceAlways(s, run) && Calm(After(s, run))
    decreases |run|
  {
    hide Calm, Do, Enabled, Careful;
    if run != [] {
      StepKeepsCalm(s, run[0]);
      CarefulRunsCloseOnceFrom(Do(s, run[0]), run[1..]);
    }
  }

  lemma InitIsCalm(loops: set<LoopId>)
    requires ACCEPT_LOOP in loops
    ensures Calm(Init(loops))
  {
    InitInv(loops);
  }

  /** On every careful run no close callback fires twice. */
  lemma CarefulRunsCloseOnce(loops: set<LoopId>, run: seq<Action>)
    requires ACCEPT_LOOP in loops && Legal(Init(loops), run) && CarefulAlways(Init(loops), run)
    ensures ClosesOnceAlways(Init(loops), run)
  {
    InitIsCalm(loops);
    CarefulRunsCloseOnceFrom(Init(loops), run);
  }

  /** On the accept loop every send is careful: a closed connection is torn down before the next poll. */
  lemma AcceptLoopSendsAreCareful(s: State, a: Action)
    requires Calm(s) && Enabled(s, a) && a.Send? && a.loop == ACCEPT_LOOP
    ensures Careful(s, a)
  {
    assert Staged(s, a.c);
    var stage :| InStage(s, a.c, stage);
    assert NotReportedAgain(s, a.c);
  }

  /** The life cycle without a hypothesis on closes: on every careful run, whatever careful step comes next
      passes the source's assertions, a channel that a poller points to has an owner, and a connection is
      deleted only after one `connectDestroyed`. */
  lemma CarefulLifeCycle(loops: set<LoopId>, run: seq<Action>)
    requires ACCEPT_LOOP in loops && Legal(Init(loops), run) && CarefulAlways(Init(loops), run)
    ensures var s := After(Init(loops), run);
            && (forall a :: Enabled(s, a) && Careful(s, a) ==> AssertionsHold(s, a))
            && (forall c :: c in s.conns ==> s.conns[c].closes <= 1)
            && (forall c :: c in s.conns && s.conns[c].registered ==> Owned(s, c))
            && (forall c :: Enabled(s, Free(c)) ==> s.conns[c].destroyed == 1 && !s.conns[c].registered)
  {
    InitIsCalm(loops);
    CarefulRunsCloseOnceFrom(Init(loops), run);
    LifeCycle(loops, run);
    var s := After(Init(loops), run);
    forall a | Enabled(s, a) && Careful(s, a) ensures AssertionsHold(s, a) {
      CalmClosesOnce(s, a);
    }
    forall c | c in s.conns ensures s.conns[c].closes <= 1 {
      StagedClosesOnce(s, c);
    }
    hide Calm;
  }

  lemma StagedClosesOnce(s: State, c: Cid)
    requires Inv(s) && c in s.conns
    ensures s.conns[c].closes <= 1
  {
    assert Staged(s, c);
    var stage :| InStage(s, c, stage);
  }

  // ----- What a connection itself does -----

  /** The server's view of a connection and the connection's own: watched is interest in reading or writing. */
  predicate Shows(conn: Conn, v: T.Conn) {
    conn.state == v.state && conn.closes == v.closes && (conn.watched <==> v.reading || v.writing)
  }

  /** The step of a loop that is an action of a connection. A send leaves output behind as its message and the
      answer of write(2) have it. */
  predicate IsActionOf(s: State, a: Action, c: Cid, v: T.Conn, action: T.Action)
    requires Enabled(s, a)
  {
    match action
    case Send(message, result) =>
      T.PossibleSend(v, message, result) && a.Send? && a.c == c && a.leftover == T.Leftover(v, message, result)
    case Shutdown => a.Shutdown? && a.c == c
    case Close => a.Close? && s.phases[a.loop].handling == Some(c)
    case Establish => a.RunFunctor? && s.queues[a.loop][0] == Establish(c)
    case Destroy => a.RunFunctor? && s.queues[a.loop][0] == Destroy(c)
    case Writable(_) => false
  }

  /** The server follows its connections: its step and the connection's keep the two views together. */
  lemma ServerFollowsConnection(s: State, a: Action, c: Cid, v: T.Conn, action: T.Action)
    requires Enabled(s, a) && c in s.conns && Shows(s.conns[c], v)
    requires T.Enabled(v, action) && IsActionOf(s, a, c, v, action)
    ensures c in Do(s, a).conns && Shows(Do(s, a).conns[c], T.Do(v, action))
  {
  }

  /** Writing out the output of an open connection changes nothing that the server sees. */
  lemma WritingIsNotSeen(conn: Conn, v: T.Conn, result: T.WriteResult)
    requires Shows(conn, v) && v.reading && T.Enabled(v, T.Writable(result))
    ensures Shows(conn, T.Do(v, T.Writable(result)))
  {
  }

  /** A send on a closed connection that is not torn down in time is careful if and only if the socket takes all
      of its message at once. */
  lemma LateSendIsCarefulExactly(s: State, a: Action, v: T.Conn, message: seq<char>, result: T.WriteResult)
    requires Calm(s) && Enabled(s, a) && T.PossibleSend(v, message, result)
    requires a.Send? && a.leftover == T.Leftover(v, message, result) && Shows(s.conns[a.c], v)
    requires v.state == Connected && v.closes > 0 && !TornDownBeforePoll(s, a.c)
    ensures Careful(s, a) <==> message == [] || (v.pending == [] && result == T.Wrote(|message|))
  {
    assert Staged(s, a.c);
    var stage :| InStage(s, a.c, stage);
    assert NotReportedAgain(s, a.c);
    T.SendTurnsWritingOnExactly(v, message, result);
    hide Inv;
  }

  // ----- What goes wrong without care -----

  const HANG_UP := Mask(false, false, false, false, true, false)

  lemma {:induction false} Concat(s: State, x: seq<Action>, y: seq<Action>)
    requires Legal(s, x) && CarefulAlways(s, x) && Legal(After(s, x), y) && CarefulAlways(After(s, x), y)
    ensures Legal(s, x + y) && CarefulAlways(s, x + y)
    ensures ClosesOnceAlways(s, x + y) ==> ClosesOnceAlways(After(s, x), y)
    decreases |x|
  {
    hide Do, Enabled, Careful;
    if x == [] {
      assert x + y == y;
    } else {
      assert (x + y)[1..] == x[1..] + y;
      Concat(Do(s, x[0]), x[1..], y);
    }
  }

  /** A connection that has closed, is watched again, and is not torn down before its loop polls again. */
  predicate Exposed(s: State, loop: LoopId, c: Cid) {
    && Inv(s) && loop in s.phases && ClosesFit(s, loop)
    && c in s.conns && s.conns[c].loop == loop && loop != ACCEPT_LOOP
    && s.conns[c].closes > 0 && s.conns[c].watched && !TornDownBeforePoll(s, c)
  }

  /** The steps by which a loop comes to its next poll. */
  predicate TowardsPoll(s: State, loop: LoopId, a: Action) {
    match a
    case Close(l) => l == loop
    case EndHandler(l) => l == loop
    case BeginHandler(l, _, mask, endOfStream) => l == loop && T.ClosesIn(mask, endOfStream) == 0
    case StartFunctors(l) => l == loop
    case RunFunctor(l) => l == loop
    case FinishFunctors(l) => l == loop
    case _ => false
  }

  /** No functor of the connection runs before the poll. */
  lemma HeadIsAnother(s: State, loop: LoopId, c: Cid)
    requires Exposed(s, loop, c) && Enabled(s, RunFunctor(loop))
    ensures s.queues[loop][0].c != c
  {
    HeadTellsStage(s, loop);
    assert GoodPhase(s, loop);
    assert s.queues[loop][0] == s.queues[loop][..s.phases[loop].left][0];
  }

  lemma TowardsPollFits(s: State, loop: LoopId, a: Action)
    requires Inv(s) && loop in s.phases && ClosesFit(s, loop) && Enabled(s, a) && TowardsPoll(s, loop, a)
    ensures ClosesOnce(s, a) && loop in Do(s, a).phases && ClosesFit(Do(s, a), loop)
  {
    assert GoodPhase(s, loop);
    PhaseChange(s, a, loop);
    if s.phases[loop].Events? {
      forall c | c in s.phases[loop].active || s.phases[loop].handling == Some(c)
        ensures c in Do(s, a).conns
        ensures a != Close(loop) || s.phases[loop].handling != Some(c) ==> Do(s, a).conns[c].closes == s.conns[c].closes
      {
        StepKeepsHandleable(s, a, loop, c);
        ClosesChange(s, a, c);
      }
      if a == Close(loop) {
        ClosesChange(s, a, s.phases[loop].handling.value);
      }
    }
  }

  /** The steps towards a poll queue nothing on a loop of its own: removals go to the accept loop. */
  lemma OwnQueueOnlyShrinks(s: State, loop: LoopId, a: Action)
    requires Inv(s) && loop in s.phases && loop != ACCEPT_LOOP && Enabled(s, a) && TowardsPoll(s, loop, a)
    ensures loop in s.queues && loop in Do(s, a).queues
    ensures a.RunFunctor? ==> s.queues[loop] != []
    ensures Do(s, a).queues[loop] == if a.RunFunctor? then s.queues[loop][1..] else s.queues[loop]
  {
    QueuesChange(s, a);
    if a.RunFunctor? {
      assert WellPlaced(s, loop, s.queues[loop][0]);
    }
  }

  lemma PhaseTowardsPoll(s: State, loop: LoopId, a: Action)
    requires loop in s.phases && Enabled(s, a) && TowardsPoll(s, loop, a)
    ensures loop in Do(s, a).phases
    ensures var p, p' := s.phases[loop], Do(s, a).phases[loop];
            match a
            case StartFunctors(_) => p.Events? && loop in s.queues && p' == Functors(|s.queues[loop]|)
            case RunFunctor(_) => p.Functors? && p.left > 0 && p' == Functors(p.left - 1)
            case FinishFunctors(_) => p'.Polling?
            case _ => p.Events? && p'.Events?
  {
  }

  /** Nor is its teardown moved up. */
  lemma TeardownStaysAway(s: State, loop: LoopId, c: Cid, a: Action)
    requires Exposed(s, loop, c) && Enabled(s, a) && TowardsPoll(s, loop, a) && c in Do(s, a).conns
    requires Do(s, a).conns[c].loop == loop
    ensures !TornDownBeforePoll(Do(s, a), c)
  {
    assert GoodPhase(s, loop);
    OwnQueueOnlyShrinks(s, loop, a);
    PhaseTowardsPoll(s, loop, a);
    hide Inv, Do, Enabled;
    var queue := s.queues[loop];
    if a.RunFunctor? {
      assert queue[1..][..s.phases[loop].left - 1] == queue[..s.phases[loop].left][1..];
    } else if a.StartFunctors? {
      assert queue[..|queue|] == queue;
    }
  }

  lemma TowardsPollExposed(s: State, loop: LoopId, c: Cid, a: Action)
    requires Exposed(s, loop, c) && Enabled(s, a) && TowardsPoll(s, loop, a)
    ensures Careful(s, a) && Exposed(Do(s, a), loop, c)
  {
    TowardsPollFits(s, loop, a);
    StepKeepsInv(s, a);
    ConnSteps(s, a, c);
    ClosesChange(s, a, c);
    WatchedStays(s, loop, c, a);
    TeardownStaysAway(s, loop, c, a);
    hide Inv, ClosesFit, TornDownBeforePoll;
  }

  lemma WatchedStays(s: State, loop: LoopId, c: Cid, a: Action)
    requires Exposed(s, loop, c) && Enabled(s, a) && TowardsPoll(s, loop, a) && c in Do(s, a).conns
    ensures Do(s, a).conns[c].watched
  {
    if a.RunFunctor? {
      HeadIsAnother(s, loop, c);
    }
  }

  function Rank(phase: Phase): nat {
    match phase case Events(_, _, _) => 2 case Functors(_) => 1 case Polling => 0
  }

  function Handlers(phase: Phase): set<Cid> {
    if phase.Events? then phase.active else {}
  }

  function Remaining(phase: Phase): nat {
    match phase
    case Events(_, handling, closing) => if handling.Some? then closing + 1 else 0
    case Functors(left) => left
    case Polling => 0
  }

  /** There is always a next step towards the poll. */
  lemma NextTowardsPoll(s: State, loop: LoopId, c: Cid) returns (a: Action)
    requires Exposed(s, loop, c) && !s.phases[loop].Polling?
    ensures Enabled(s, a) && TowardsPoll(s, loop, a)
    ensures var p, p' := s.phases[loop], Do(s, a).phases[loop];
            Rank(p') < Rank(p) || (Rank(p') == Rank(p) &&
              (Handlers(p') < Handlers(p) || (Handlers(p') == Handlers(p) && Remaining(p') < Remaining(p))))
  {
    assert GoodPhase(s, loop) && loop in s.queues && ACCEPT_LOOP in s.queues;
    match s.phases[loop]
    case Events(active, handling, closing) =>
      if handling.Some? {
        a := if closing > 0 then Close(loop) else EndHandler(loop);
      } else if active != {} {
        var d :| d in active;
        a := BeginHandler(loop, d, NO_EVENTS, false);
      } else {
        a := StartFunctors(loop);
      }
    case Functors(left) =>
      if left == 0 {
        a := FinishFunctors(loop);
      } else {
        a := RunFunctor(loop);
        assert s.queues[loop][0] in s.queues[loop] && WellPlaced(s, loop, s.queues[loop][0]);
      }
  }

  /** The connection is still exposed when its loop polls. */
  lemma {:induction false} ReachesPoll(s: State, loop: LoopId, c: Cid) returns (run: seq<Action>)
    requires Exposed(s, loop, c)
    ensures Legal(s, run) && CarefulAlways(s, run)
    ensures Exposed(After(s, run), loop, c) && After(s, run).phases[loop].Polling?
    decreases Rank(s.phases[loop]), Handlers(s.phases[loop]), Remaining(s.phases[loop])
  {
    if s.phases[loop].Polling? {
      run := [];
    } else {
      var a := NextTowardsPoll(s, loop, c);
      TowardsPollExposed(s, loop, c, a);
      hide Exposed, Do, Enabled, Careful;
      var rest := ReachesPoll(Do(s, a), loop, c);
      run := [a] + rest;
      assert run[0] == a && run[1..] == rest;
    }
  }

  lemma FailsAtOnce(s: State, a: Action)
    requires Enabled(s, a) && Careful(s, a) && !ClosesOnce(s, a)
    ensures Legal(s, [a]) && CarefulAlways(s, [a]) && !ClosesOnceAlways(s, [a])
  {
    hide Do, Enabled, Careful;
    assert [a][1..] == [];
  }

  lemma FailsLater(s: State, a: Action, run: seq<Action>)
    requires Enabled(s, a) && Careful(s, a)
    requires Legal(Do(s, a), run) && CarefulAlways(Do(s, a), run) && !ClosesOnceAlways(Do(s, a), run)
    ensures Legal(s, [a] + run) && CarefulAlways(s, [a] + run) && !ClosesOnceAlways(s, [a] + run)
  {
    hide Do, Enabled, Careful;
    assert ([a] + run)[1..] == run;
  }

  /** Then a hang-up closes the connection again. */
  lemma HangUpClosesAgain(s: State, loop: LoopId, c: Cid)
    requires Exposed(s, loop, c) && s.phases[loop].Polling?
    ensures var run := [Report(loop, {c}), BeginHandler(loop, c, HANG_UP, false), Close(loop)];
            Legal(s, run) && CarefulAlways(s, run) && !ClosesOnceAlways(s, run)
  {
    assert T.ClosesIn(HANG_UP, false) == 1;
    assert loop in s.queues && ACCEPT_LOOP in s.queues;
    hide Inv, ClosesFit, TornDownBeforePoll, T.ClosesIn;
    var s1 := Do(s, Report(loop, {c}));
    var s2 := Do(s1, BeginHandler(loop, c, HANG_UP, false));
    FailsAtOnce(s2, Close(loop));
    FailsLater(s1, BeginHandler(loop, c, HANG_UP, false), [Close(loop)]);
    FailsLater(s, Report(loop, {c}), [BeginHandler(loop, c, HANG_UP, false), Close(loop)]);
    assert [Report(loop, {c})] + [BeginHandler(loop, c, HANG_UP, false), Close(loop)]
        == [Report(loop, {c}), BeginHandler(loop, c, HANG_UP, false), Close(loop)];
  }

  lemma ExposedClosesAgain(s: State, loop: LoopId, c: Cid) returns (run: seq<Action>)
    requires Exposed(s, loop, c)
    ensures Legal(s, run) && CarefulAlways(s, run) && !ClosesOnceAlways(s, run)
  {
    hide Exposed, Do, Enabled, Careful;
    var toPoll := ReachesPoll(s, loop, c);
    HangUpClosesAgain(After(s, toPoll), loop, c);
    var again := [Report(loop, {c}), BeginHandler(loop, c, HANG_UP, false), Close(loop)];
    Concat(s, toPoll, again);
    run := toPoll + again;
  }

  /** A send without care: its connection is exposed. */
  lemma LateSendExposes(s: State, a: Action)
    requires Calm(s) && Enabled(s, a) && a.Send? && !Careful(s, a)
    ensures a.c in s.conns && Exposed(Do(s, a), s.conns[a.c].loop, a.c)
  {
    StepKeepsInv(s, a);
    assert Staged(s, a.c);
    var stage :| InStage(s, a.c, stage);
    assert NotReportedAgain(s, a.c);
    assert ClosesFit(s, a.loop);
  }

  /** A dispatch without care: its handler closes twice. */
  lemma DispatchClosesTwice(s: State, a: Action)
    requires Calm(s) && Enabled(s, a) && a.BeginHandler? && !Careful(s, a)
    ensures var run := [Close(a.loop), Close(a.loop)];
            Legal(Do(s, a), run) && CarefulAlways(Do(s, a), run) && !ClosesOnceAlways(Do(s, a), run)
  {
    T.ClosesTwiceExactly(a.mask, a.endOfStream);
    assert T.ClosesIn(a.mask, a.endOfStream) == 2;
    assert GoodPhase(s, a.loop) && Handleable(s, a.loop, a.c);
    assert a.loop in s.queues && ACCEPT_LOOP in s.queues;
    hide Inv, T.ClosesIn;
    FailsAtOnce(Do(Do(s, a), Close(a.loop)), Close(a.loop));
    FailsLater(Do(s, a), Close(a.loop), [Close(a.loop)]);
  }

  /** Exactly the careful steps are safe: after any other step there is a run, careful from then on, in which a
      close callback fires a second time. */
  lemma CarefulExactly(s: State, a: Action)
    requires Calm(s) && Enabled(s, a)
    ensures Careful(s, a) <==>
            forall run :: Legal(Do(s, a), run) && CarefulAlways(Do(s, a), run) ==> ClosesOnceAlways(Do(s, a), run)
  {
    hide Calm, Do, Enabled;
    assert !Careful(s, a) ==> a.BeginHandler? || a.Send?;
    if Careful(s, a) {
      StepKeepsCalm(s, a);
      forall run | Legal(Do(s, a), run) && CarefulAlways(Do(s, a), run) ensures ClosesOnceAlways(Do(s, a), run) {
        CarefulRunsCloseOnceFrom(Do(s, a), run);
      }
    } else if a.BeginHandler? {
      DispatchClosesTwice(s, a);
    } else {
      LateSendExposes(s, a);
      var run := ExposedClosesAgain(Do(s, a), s.conns[a.c].loop, a.c);
    }
  }

  // ----- A failing run of either kind -----

  const IO_LOOP: LoopId := 1
  const CONN: Cid := 1

  /** Up to the first poll of an open connection on a loop of its own. */
  const OPENING := [Report(ACCEPT_LOOP, {}), Accept(CONN, IO_LOOP), Report(IO_LOOP, {}), StartFunctors(IO_LOOP),
                    RunFunctor(IO_LOOP), FinishFunctors(IO_LOOP)]

  /** The server with this one connection. */
  function Alone(watched: bool, closes: nat, removals: seq<Functor>, phase: Phase): State {
    State(map[CONN := Conn(IO_LOOP, Connected, true, true, watched, closes, 0)],
          map[ACCEPT_LOOP := removals, IO_LOOP := []],
          map[ACCEPT_LOOP := Events({}, None, 0), IO_LOOP := phase])
  }

  /** A run that fails in the end. */
  predicate Fails(s: State, run: seq<Action>) {
    Legal(s, run) && !ClosesOnceAlways(s, run)
  }

  lemma Then(s: State, a: Action, t: State, run: seq<Action>) returns (longer: seq<Action>)
    requires Enabled(s, a) && Do(s, a) == t && Fails(t, run)
    ensures longer == [a] + run && Fails(s, longer)
  {
    hide Do, Enabled;
    longer := [a] + run;
    assert longer[1..] == run;
  }

  lemma ThenFails(s: State, a: Action)
    requires Enabled(s, a) && !ClosesOnce(s, a)
    ensures Fails(s, [a])
  {
    hide Do, Enabled;
    assert [a][0] == a && [a][1..] == [];
    assert Legal(s, [a]);
  }

  /** The server while the connection is opened. */
  function Opening(conns: map<Cid, Conn>, functors: seq<Functor>, accepting: Phase, phase: Phase): State {
    State(conns, map[ACCEPT_LOOP := [], IO_LOOP := functors], map[ACCEPT_LOOP := accepting, IO_LOOP := phase])
  }

  const CALLBACKS := Events({}, None, 0)
  const NEW_CONN := map[CONN := Conn(IO_LOOP, Connecting, true, false, false, 0, 0)]

  lemma StartsEmpty()
    ensures Init({ACCEPT_LOOP, IO_LOOP}) == Opening(map[], [], Polling, Polling)
  {
  }

  lemma OpeningPolls()
    ensures var s := Opening(map[], [], Polling, Polling);
            Enabled(s, OPENING[0]) && Do(s, OPENING[0]) == Opening(map[], [], CALLBACKS, Polling)
  {
  }

  lemma OpeningAccepts()
    ensures var s := Opening(map[], [], CALLBACKS, Polling);
            Enabled(s, OPENING[1]) && Do(s, OPENING[1]) == Opening(NEW_CONN, [Establish(CONN)], CALLBACKS, Polling)
  {
    assert [] + [Establish(CONN)] == [Establish(CONN)];
  }

  lemma OpeningWakes()
    ensures var s := Opening(NEW_CONN, [Establish(CONN)], CALLBACKS, Polling);
            Enabled(s, OPENING[2]) && Do(s, OPENING[2]) == Opening(NEW_CONN, [Establish(CONN)], CALLBACKS, CALLBACKS)
  {
  }

  lemma OpeningSwaps()
    ensures var s := Opening(NEW_CONN, [Establish(CONN)], CALLBACKS, CALLBACKS);
            Enabled(s, OPENING[3]) && Do(s, OPENING[3]) == Opening(NEW_CONN, [Establish(CONN)], CALLBACKS, Functors(1))
  {
  }

  lemma OpeningEstablishes()
    ensures var s := Opening(NEW_CONN, [Establish(CONN)], CALLBACKS, Functors(1));
            Enabled(s, OPENING[4]) && Do(s, OPENING[4]) == Alone(true, 0, [], Functors(0))
  {
    assert [Establish(CONN)][1..] == [];
  }

  lemma OpeningThen(run: seq<Action>)
    requires Fails(Alone(true, 0, [], Polling), run)
    ensures Fails(Init({ACCEPT_LOOP, IO_LOOP}), OPENING + run)
  {
    hide Fails, Do, Enabled, Init, Opening, Alone;
    StartsEmpty();
    OpeningPolls();
    OpeningAccepts();
    OpeningWakes();
    OpeningSwaps();
    OpeningEstablishes();
    PollsAgain(true, 0, []);
    var r5 := Then(Alone(true, 0, [], Functors(0)), OPENING[5], Alone(true, 0, [], Polling), run);
    var r4 := Then(Opening(NEW_CONN, [Establish(CONN)], CALLBACKS, Functors(1)), OPENING[4], Alone(true, 0, [], Functors(0)), r5);
    var r3 := Then(Opening(NEW_CONN, [Establish(CONN)], CALLBACKS, CALLBACKS), OPENING[3],
                   Opening(NEW_CONN, [Establish(CONN)], CALLBACKS, Functors(1)), r4);
    var r2 := Then(Opening(NEW_CONN, [Establish(CONN)], CALLBACKS, Polling), OPENING[2],
                   Opening(NEW_CONN, [Establish(CONN)], CALLBACKS, CALLBACKS), r3);
    var r1 := Then(Opening(map[], [], CALLBACKS, Polling), OPENING[1],
                   Opening(NEW_CONN, [Establish(CONN)], CALLBACKS, Polling), r2);
    var r0 := Then(Opening(map[], [], Polling, Polling), OPENING[0], Opening(map[], [], CALLBACKS, Polling), r1);
    assert r0 == OPENING + run;
  }

  lemma PollsAgain(watched: bool, closes: nat, removals: seq<Functor>)
    ensures var s := Alone(watched, closes, removals, Functors(0));
            Enabled(s, FinishFunctors(IO_LOOP)) && Do(s, FinishFunctors(IO_LOOP)) == Alone(watched, closes, removals, Polling)
  {
  }

  lemma Reported(closes: nat, removals: seq<Functor>)
    ensures var s := Alone(true, closes, removals, Polling);
            && Enabled(s, Report(IO_LOOP, {CONN}))
            && Do(s, Report(IO_LOOP, {CONN})) == Alone(true, closes, removals, Events({CONN}, None, 0))
  {
  }

  lemma Handled(closes: nat, removals: seq<Functor>, mask: Mask, endOfStream: bool)
    ensures var s, a := Alone(true, closes, removals, Events({CONN}, None, 0)), BeginHandler(IO_LOOP, CONN, mask, endOfStream);
            Enabled(s, a) && Do(s, a) == Alone(true, closes, removals, Events({}, Some(CONN), T.ClosesIn(mask, endOfStream)))
  {
    hide T.ClosesIn;
    assert {CONN} - {CONN} == {};
  }

  lemma Closed(watched: bool, closes: nat, removals: seq<Functor>, more: nat)
    ensures var s := Alone(watched, closes, removals, Events({}, Some(CONN), more + 1));
            && Enabled(s, Close(IO_LOOP)) && (closes > 0 ==> !ClosesOnce(s, Close(IO_LOOP)))
            && Do(s, Close(IO_LOOP)) == Alone(false, closes + 1, removals + [RemoveInLoop(CONN)], Events({}, Some(CONN), more))
  {
  }

  lemma Returned(closes: nat, removals: seq<Functor>)
    ensures var s := Alone(false, closes, removals, Events({}, Some(CONN), 0));
            Enabled(s, EndHandler(IO_LOOP)) && Do(s, EndHandler(IO_LOOP)) == Alone(false, closes, removals, CALLBACKS)
  {
  }

  lemma SentAndSwapped(closes: nat, removals: seq<Functor>)
    ensures var s := Alone(false, closes, removals, CALLBACKS);
            && Enabled(s, Send(IO_LOOP, CONN, true))
            && Do(s, Send(IO_LOOP, CONN, true)) == Alone(true, closes, removals, CALLBACKS)
            && Enabled(Do(s, Send(IO_LOOP, CONN, true)), StartFunctors(IO_LOOP))
            && Do(Do(s, Send(IO_LOOP, CONN, true)), StartFunctors(IO_LOOP)) == Alone(true, closes, removals, Functors(0))
  {
  }

  lemma HangUps()
    ensures T.ClosesIn(HANG_UP, false) == 1 && T.ClosesIn(HANG_UP, true) == 2
  {
  }

  /** First way: a hang-up without readable data, and a read that finds the end of the stream. */
  lemma DispatchFails()
    ensures Fails(Init({ACCEPT_LOOP, IO_LOOP}),
                  OPENING + [Report(IO_LOOP, {CONN}), BeginHandler(IO_LOOP, CONN, HANG_UP, true), Close(IO_LOOP), Close(IO_LOOP)])
  {
    hide *;
    HangUps();
    var removal := [] + [RemoveInLoop(CONN)];
    Reported(0, []);
    Handled(0, [], HANG_UP, true);
    Closed(true, 0, [], 1);
    Closed(false, 1, removal, 0);
    ThenFails(Alone(false, 1, removal, Events({}, Some(CONN), 1)), Close(IO_LOOP));
    var r2 := Then(Alone(true, 0, [], Events({}, Some(CONN), 2)), Close(IO_LOOP),
                   Alone(false, 1, removal, Events({}, Some(CONN), 1)), [Close(IO_LOOP)]);
    var r1 := Then(Alone(true, 0, [], Events({CONN}, None, 0)), BeginHandler(IO_LOOP, CONN, HANG_UP, true),
                   Alone(true, 0, [], Events({}, Some(CONN), 2)), r2);
    var r0 := Then(Alone(true, 0, [], Polling), Report(IO_LOOP, {CONN}), Alone(true, 0, [], Events({CONN}, None, 0)), r1);
    OpeningThen(r0);
    assert r0 == [Report(IO_LOOP, {CONN}), BeginHandler(IO_LOOP, CONN, HANG_UP, true), Close(IO_LOOP), Close(IO_LOOP)];
  }

  /** A connection that is watched again after its close closes again at the next hang-up. */
  lemma ClosesAgain(removals: seq<Functor>)
    ensures Fails(Alone(true, 1, removals, Functors(0)),
                  [FinishFunctors(IO_LOOP), Report(IO_LOOP, {CONN}), BeginHandler(IO_LOOP, CONN, HANG_UP, false), Close(IO_LOOP)])
  {
    hide *;
    HangUps();
    PollsAgain(true, 1, removals);
    Reported(1, removals);
    Handled(1, removals, HANG_UP, false);
    Closed(true, 1, removals, 0);
    ThenFails(Alone(true, 1, removals, Events({}, Some(CONN), 1)), Close(IO_LOOP));
    var r2 := Then(Alone(true, 1, removals, Events({CONN}, None, 0)), BeginHandler(IO_LOOP, CONN, HANG_UP, false),
                   Alone(true, 1, removals, Events({}, Some(CONN), 1)), [Close(IO_LOOP)]);
    var r1 := Then(Alone(true, 1, removals, Polling), Report(IO_LOOP, {CONN}), Alone(true, 1, removals, Events({CONN}, None, 0)), r2);
    var r0 := Then(Alone(true, 1, removals, Functors(0)), FinishFunctors(IO_LOOP), Alone(true, 1, removals, Polling), r1);
    assert r0 == [FinishFunctors(IO_LOOP), Report(IO_LOOP, {CONN}), BeginHandler(IO_LOOP, CONN, HANG_UP, false), Close(IO_LOOP)];
  }

  /** Second way: no handler closes twice, but a send after the close leaves output behind before the accept
      loop has removed the connection, and then there is a second hang-up. */
  lemma LateSendFails()
    ensures Fails(Init({ACCEPT_LOOP, IO_LOOP}),
                  OPENING + [Report(IO_LOOP, {CONN}), BeginHandler(IO_LOOP, CONN, HANG_UP, false), Close(IO_LOOP), EndHandler(IO_LOOP),
                             Send(IO_LOOP, CONN, true), StartFunctors(IO_LOOP), FinishFunctors(IO_LOOP),
                             Report(IO_LOOP, {CONN}), BeginHandler(IO_LOOP, CONN, HANG_UP, false), Close(IO_LOOP)])
  {
    var hangUp := BeginHandler(IO_LOOP, CONN, HANG_UP, false);
    hide *;
    HangUps();
    var removal := [] + [RemoveInLoop(CONN)];
    Reported(0, []);
    Handled(0, [], HANG_UP, false);
    Closed(true, 0, [], 0);
    Returned(1, removal);
    SentAndSwapped(1, removal);
    ClosesAgain(removal);
    var r6 := [FinishFunctors(IO_LOOP), Report(IO_LOOP, {CONN}), hangUp, Close(IO_LOOP)];
    var r5 := Then(Alone(true, 1, removal, CALLBACKS), StartFunctors(IO_LOOP), Alone(true, 1, removal, Functors(0)), r6);
    var r4 := Then(Alone(false, 1, removal, CALLBACKS), Send(IO_LOOP, CONN, true), Alone(true, 1, removal, CALLBACKS), r5);
    var r3 := Then(Alone(false, 1, removal, Events({}, Some(CONN), 0)), EndHandler(IO_LOOP), Alone(false, 1, removal, CALLBACKS), r4);
    var r2 := Then(Alone(true, 0, [], Events({}, Some(CONN), 1)), Close(IO_LOOP),
                   Alone(false, 1, removal, Events({}, Some(CONN), 0)), r3);
    var r1 := Then(Alone(true, 0, [], Events({CONN}, None, 0)), hangUp, Alone(true, 0, [], Events({}, Some(CONN), 1)), r2);
    var r0 := Then(Alone(true, 0, [], Polling), Report(IO_LOOP, {CONN}), Alone(true, 0, [], Events({CONN}, None, 0)), r1);
    OpeningThen(r0);
    assert r0 == [Report(IO_LOOP, {CONN}), hangUp, Close(IO_LOOP), EndHandler(IO_LOOP), Send(IO_LOOP, CONN, true),
                  StartFunctors(IO_LOOP), FinishFunctors(IO_LOOP), Report(IO_LOOP, {CONN}), hangUp, Close(IO_LOOP)];
  }

  /** Wherever a run closes a connection a second time, an assertion of the source fails: at once, or when the
      accept loop runs the functors that are then in its queue. */
  lemma {:induction false} SecondCloseIsCaught(s: State, run: seq<Action>) returns (k: nat)
    requires Inv(s) && Fails(s, run)
    ensures k < |run| && run[k].Close? && Legal(s, run[..k])
    ensures var t, loop := After(s, run[..k]), run[k].loop;
            && Enabled(t, run[k])
            && (loop == ACCEPT_LOOP ==> !AssertionsHold(t, run[k]))
            && (loop != ACCEPT_LOOP ==>
                  var t' := Do(t, run[k]);
                  ACCEPT_LOOP in t'.queues &&
                  FailsWhileDraining(t'.(phases := t'.phases[ACCEPT_LOOP := Functors(|t'.queues[ACCEPT_LOOP]|)]),
                                     |t.queues[ACCEPT_LOOP]|))
    decreases |run|
  {
    if ClosesOnce(s, run[0]) {
      StepKeepsInv(s, run[0]);
      hide Inv, Do, Enabled, AssertionsHold, FailsWhileDraining;
      var rest := SecondCloseIsCaught(Do(s, run[0]), run[1..]);
      k := rest + 1;
      assert run[..k][0] == run[0] && run[..k][1..] == run[1..][..rest];
    } else {
      k := 0;
      SecondCloseFails(s, run[0].loop);
      assert ACCEPT_LOOP in s.queues;
      QueuePrefix(s, run[0], ACCEPT_LOOP);
      hide Inv, AssertionsHold, FailsWhileDraining;
    }
  }
}
