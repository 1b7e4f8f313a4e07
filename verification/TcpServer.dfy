/**
 The life cycle of a server's connections across its loops: a connection is made on the accept loop, served on
 its own loop, erased on the accept loop and torn down on its own loop again, by functors queued on the loops.
 */
module TcpServer {
  import opened Channel
  import opened ConnStates
  import opened Wrappers
  import T = TcpConnection

  type Cid = nat
  type LoopId = nat

  const ACCEPT_LOOP: LoopId := 0

  /** `inMap`: the server's map holds the connection. `registered`: its channel is in its loop's poller, which
      keeps a plain pointer to it. `watched`: the kernel may report events for it. The counters are history:
      how often `handleClose` and `connectDestroyed` ran. */
  datatype Conn = Conn(loop: LoopId, state: ConnState, inMap: bool, registered: bool, watched: bool, closes: nat, destroyed: nat)

  /** The functors that carry a connection; each of them is an owner of it. */
  datatype Functor = Establish(c: Cid) | RemoveInLoop(c: Cid) | Destroy(c: Cid)

  /** A loop sleeps, runs the handlers of the channels that the poll reported, or runs the functors that it
      swapped out, of which it keeps those `left` at the head of its queue. `closing`: how often the running
      handler is still going to call `handleClose`. */
  datatype Phase = Polling | Events(active: set<Cid>, handling: Option<Cid>, closing: nat) | Functors(left: nat)

  datatype State = State(conns: map<Cid, Conn>, queues: map<LoopId, seq<Functor>>, phases: map<LoopId, Phase>)

  /** `Accept` is the acceptor's handler. A connection's handler is one dispatch of an event mask, with a read
      that may find the end of the stream; `Close` is a call of `handleClose` inside it. `Send` and `Shutdown`
      are calls by the user on the connection's loop; a send may leave output behind. `Free` deletes a
      connection. */
  datatype Action =
    | Accept(c: Cid, loop: LoopId) | Report(loop: LoopId, active: set<Cid>) | BeginHandler(loop: LoopId, c: Cid, mask: Mask, endOfStream: bool)
    | Close(loop: LoopId) | EndHandler(loop: LoopId) | StartFunctors(loop: LoopId) | RunFunctor(loop: LoopId)
    | FinishFunctors(loop: LoopId) | Send(loop: LoopId, c: Cid, leftover: bool) | Shutdown(loop: LoopId, c: Cid) | Free(c: Cid)

  /** The server at its start. */
  function Init(loops: set<LoopId>): State {
    State(map[], map l | l in loops :: [], map l | l in loops :: Polling)
  }

  /** A queued functor, from whichever thread. */
  function Queue(queues: map<LoopId, seq<Functor>>, loop: LoopId, f: Functor): map<LoopId, seq<Functor>>
    requires loop in queues
  {
    queues[loop := queues[loop] + [f]]
  }

  /** Whether a connection has an owner: the map or a functor. */
  predicate Owned(s: State, c: Cid) {
    (c in s.conns && s.conns[c].inMap) || exists l :: l in s.queues && exists f :: f in s.queues[l] && f.c == c
  }

  predicate Enabled(s: State, a: Action) {
    match a
    case Accept(c, loop) =>
      c !in s.conns && loop in s.queues && ACCEPT_LOOP in s.phases && s.phases[ACCEPT_LOOP].Events? && s.phases[ACCEPT_LOOP].handling.None?
    case Report(loop, active) =>
      loop in s.phases && s.phases[loop].Polling? &&
      forall c :: c in active ==> c in s.conns && s.conns[c].loop == loop && s.conns[c].watched
    case BeginHandler(loop, c, _, _) =>
      loop in s.phases && s.phases[loop].Events? && s.phases[loop].handling.None? && c in s.phases[loop].active
    case Close(loop) =>
      loop in s.phases && s.phases[loop].Events? && s.phases[loop].handling.Some? && s.phases[loop].handling.value in s.conns
      && s.phases[loop].closing > 0 && loop in s.queues && ACCEPT_LOOP in s.queues
    case EndHandler(loop) =>
      loop in s.phases && s.phases[loop].Events? && s.phases[loop].handling.Some? && s.phases[loop].closing == 0
    case StartFunctors(loop) => loop in s.phases && loop in s.queues && s.phases[loop] == Events({}, None, 0)
    case RunFunctor(loop) =>
      loop in s.phases && s.phases[loop].Functors? && s.phases[loop].left > 0 && loop in s.queues && s.queues[loop] != []
      && s.queues[loop][0].c in s.conns && s.conns[s.queues[loop][0].c].loop in s.queues
    case FinishFunctors(loop) => loop in s.phases && s.phases[loop] == Functors(0)
    case Send(loop, c, _) => loop in s.phases && !s.phases[loop].Polling? && c in s.conns && s.conns[c].loop == loop
    case Shutdown(loop, c) => loop in s.phases && !s.phases[loop].Polling? && c in s.conns && s.conns[c].loop == loop
    case Free(c) => c in s.conns && !Owned(s, c)
  }

  /** `connectEstablished` */
  function Established(conn: Conn): Conn {
    conn.(state := Connected, registered := true, watched := true)
  }

  /** `connectDestroyed` */
  function TornDown(conn: Conn): Conn {
    conn.(state := Disconnected, registered := false, watched := false, destroyed := conn.destroyed + 1)
  }

  function Do(s: State, a: Action): State
    requires Enabled(s, a)
  {
    match a
    case Accept(c, loop) =>
      var conn := Conn(loop, Connecting, true, false, false, 0, 0);
      if loop == ACCEPT_LOOP then s.(conns := s.conns[c := Established(conn)])
      else s.(conns := s.conns[c := conn], queues := Queue(s.queues, loop, Establish(c)))
    case Report(loop, active) => s.(phases := s.phases[loop := Events(active, None, 0)])
    case BeginHandler(loop, c, mask, endOfStream) =>
      s.(phases := s.phases[loop := Events(s.phases[loop].active - {c}, Some(c), T.ClosesIn(mask, endOfStream))])
    case Close(loop) =>
      var c := s.phases[loop].handling.value;
      var conn := s.conns[c].(watched := false, closes := s.conns[c].closes + 1);
      var phases := s.phases[loop := s.phases[loop].(closing := s.phases[loop].closing - 1)];
      if loop == ACCEPT_LOOP
      then s.(conns := s.conns[c := conn.(inMap := false)], queues := Queue(s.queues, loop, Destroy(c)), phases := phases)
      else s.(conns := s.conns[c := conn], queues := Queue(s.queues, ACCEPT_LOOP, RemoveInLoop(c)), phases := phases)
    case EndHandler(loop) => s.(phases := s.phases[loop := s.phases[loop].(handling := None)])
    case StartFunctors(loop) => s.(phases := s.phases[loop := Functors(|s.queues[loop]|)])
    case RunFunctor(loop) =>
      var f, rest := s.queues[loop][0], s.queues[loop := s.queues[loop][1..]];
      var conn := s.conns[f.c];
      var phases := s.phases[loop := Functors(s.phases[loop].left - 1)];
      (match f
       case Establish(c) => s.(conns := s.conns[c := Established(conn)], queues := rest, phases := phases)
       case RemoveInLoop(c) =>
         s.(conns := s.conns[c := conn.(inMap := false)], queues := Queue(rest, conn.loop, Destroy(c)), phases := phases)
       case Destroy(c) => s.(conns := s.conns[c := TornDown(conn)], queues := rest, phases := phases))
    case FinishFunctors(loop) => s.(phases := s.phases[loop := Polling])
    case Send(loop, c, leftover) =>
      if leftover && s.conns[c].state == Connected then s.(conns := s.conns[c := s.conns[c].(watched := true)]) else s
    case Shutdown(loop, c) =>
      if s.conns[c].state == Connected then s.(conns := s.conns[c := s.conns[c].(state := Disconnecting)]) else s
    case Free(c) => s.(conns := s.conns - {c})
  }

  /** The assertions that the source makes at a step. */
  predicate AssertionsHold(s: State, a: Action)
    requires Enabled(s, a)
  {
    match a
    case Close(loop) =>
      var conn := s.conns[s.phases[loop].handling.value];
      conn.state in {Connected, Disconnecting} && (loop == ACCEPT_LOOP ==> conn.inMap)
    case RunFunctor(loop) =>
      var conn := s.conns[s.queues[loop][0].c];
      (match s.queues[loop][0]
       case Establish(_) => conn.state == Connecting
       case RemoveInLoop(_) => conn.inMap
       case Destroy(_) => conn.state in {Connected, Disconnecting})
    case _ => true
  }

  // ----- The stages of a connection -----

  function Count(s: State, loop: LoopId, f: Functor): nat {
    if loop in s.queues then multiset(s.queues[loop])[f] else 0
  }

  datatype Stage = Fresh | Open | Closing | Erased | Done

  /** The functors of a connection that are queued, by kind. */
  predicate Queued(s: State, c: Cid, establish: nat, remove: nat, destroy: nat)
    requires c in s.conns
  {
    && Count(s, s.conns[c].loop, Establish(c)) == establish
    && Count(s, ACCEPT_LOOP, RemoveInLoop(c)) == remove
    && Count(s, s.conns[c].loop, Destroy(c)) == destroy
  }

  predicate InStage(s: State, c: Cid, stage: Stage)
    requires c in s.conns
  {
    var conn := s.conns[c];
    match stage
    case Fresh =>
      conn.state == Connecting && conn.inMap && !conn.registered && !conn.watched
      && conn.closes == 0 && conn.destroyed == 0 && Queued(s, c, 1, 0, 0)
    case Open =>
      conn.state in {Connected, Disconnecting} && conn.inMap && conn.registered
      && conn.closes == 0 && conn.destroyed == 0 && Queued(s, c, 0, 0, 0)
    case Closing =>
      conn.loop != ACCEPT_LOOP && conn.state in {Connected, Disconnecting} && conn.inMap && conn.registered
      && conn.closes == 1 && conn.destroyed == 0 && Queued(s, c, 0, 1, 0)
    case Erased =>
      conn.state in {Connected, Disconnecting} && !conn.inMap && conn.registered
      && conn.closes == 1 && conn.destroyed == 0 && Queued(s, c, 0, 0, 1)
    case Done =>
      conn.state == Disconnected && !conn.inMap && !conn.registered && !conn.watched
      && conn.closes == 1 && conn.destroyed == 1 && Queued(s, c, 0, 0, 0)
  }

  predicate Staged(s: State, c: Cid)
    requires c in s.conns
  {
    exists stage :: InStage(s, c, stage)
  }

  /** A functor waits in the queue where it belongs, for a connection that exists. */
  predicate WellPlaced(s: State, loop: LoopId, f: Functor) {
    f.c in s.conns && loop == (if f.RemoveInLoop? then ACCEPT_LOOP else s.conns[f.c].loop)
  }

  /** Handlers are reported for and run on registered channels of their own loop. */
  predicate Handleable(s: State, loop: LoopId, c: Cid) {
    c in s.conns && s.conns[c].loop == loop && s.conns[c].registered
  }

  predicate GoodPhase(s: State, loop: LoopId)
    requires loop in s.phases
  {
    match s.phases[loop]
    case Events(active, handling, _) =>
      (forall c :: c in active ==> Handleable(s, loop, c)) && (handling.Some? ==> Handleable(s, loop, handling.value))
    case Functors(left) => loop in s.queues && left <= |s.queues[loop]|
    case Polling => true
  }

  predicate Inv(s: State) {
    && s.phases.Keys == s.queues.Keys && ACCEPT_LOOP in s.queues
    && (forall c :: c in s.conns ==> s.conns[c].loop in s.queues && Staged(s, c))
    && (forall l, f :: l in s.queues && f in s.queues[l] ==> WellPlaced(s, l, f))
    && (forall l :: l in s.phases ==> GoodPhase(s, l))
  }

  /** The hypothesis on the environment: no connection's close callback fires twice. */
  predicate ClosesOnce(s: State, a: Action)
    requires Enabled(s, a)
  {
    a.Close? ==> s.conns[s.phases[a.loop].handling.value].closes == 0
  }

  lemma QueueCounts(s: State, s': State, loop: LoopId, f: Functor)
    requires loop in s.queues && s'.queues == Queue(s.queues, loop, f)
    ensures forall l, g :: Count(s', l, g) == Count(s, l, g) + (if l == loop && g == f then 1 else 0)
    ensures forall l, g :: l in s'.queues && g in s'.queues[l] ==> (l == loop && g == f) || (l in s.queues && g in s.queues[l])
  {
  }

  lemma PopCounts(s: State, s': State, loop: LoopId)
    requires loop in s.queues && s.queues[loop] != [] && s'.queues == s.queues[loop := s.queues[loop][1..]]
    ensures forall l, g :: Count(s', l, g) == Count(s, l, g) - (if l == loop && g == s.queues[loop][0] then 1 else 0)
    ensures forall l, g :: l in s'.queues && g in s'.queues[l] ==> l in s.queues && g in s.queues[l]
  {
    assert s.queues[loop] == [s.queues[loop][0]] + s.queues[loop][1..];
  }

  /** A connection that a step does not touch stays in its stage. */
  lemma Untouched(s: State, s': State, c: Cid)
    requires c in s.conns && c in s'.conns && Staged(s, c) && s'.conns[c] == s.conns[c]
    requires forall l, f: Functor :: f.c == c ==> Count(s', l, f) == Count(s, l, f)
    ensures Staged(s', c)
  {
    var stage :| InStage(s, c, stage);
    assert InStage(s', c, stage);
  }

  lemma NoFunctors(s: State, c: Cid, l: LoopId, f: Functor)
    requires Inv(s) && c !in s.conns && f.c == c
    ensures Count(s, l, f) == 0
  {
    assert l in s.queues && f in s.queues[l] ==> WellPlaced(s, l, f);
  }

  lemma AcceptKeepsStages(s: State, a: Action, c: Cid)
    requires Inv(s) && Enabled(s, a) && a.Accept? && c in Do(s, a).conns
    ensures Staged(Do(s, a), c)
  {
    var s' := Do(s, a);
    if a.loop != ACCEPT_LOOP {
      QueueCounts(s, s', a.loop, Establish(a.c));
    }
    if c == a.c {
      NoFunctors(s, c, a.loop, Establish(c));
      NoFunctors(s, c, ACCEPT_LOOP, RemoveInLoop(c));
      NoFunctors(s, c, a.loop, Destroy(c));
      assert InStage(s', c, if a.loop == ACCEPT_LOOP then Open else Fresh);
    } else {
      Untouched(s, s', c);
    }
  }

  /** A handler that closes for the first time runs on an open connection. */
  lemma CloseFindsOpen(s: State, loop: LoopId)
    requires Inv(s) && Enabled(s, Close(loop)) && ClosesOnce(s, Close(loop))
    ensures InStage(s, s.phases[loop].handling.value, Open) && AssertionsHold(s, Close(loop))
    ensures s.conns[s.phases[loop].handling.value].loop == loop
  {
    var closing := s.phases[loop].handling.value;
    assert GoodPhase(s, loop);
    assert Handleable(s, loop, closing);
    var stage :| InStage(s, closing, stage);
    assert stage == Open;
  }

  lemma CloseKeepsStages(s: State, a: Action, c: Cid)
    requires Inv(s) && Enabled(s, a) && a.Close? && ClosesOnce(s, a) && c in Do(s, a).conns
    ensures Staged(Do(s, a), c) && AssertionsHold(s, a)
  {
    hide Count;
    var s' := Do(s, a);
    var closing := s.phases[a.loop].handling.value;
    CloseFindsOpen(s, a.loop);
    assert Staged(s, c);
    hide Inv;
    if a.loop == ACCEPT_LOOP {
      QueueCounts(s, s', a.loop, Destroy(closing));
    } else {
      QueueCounts(s, s', ACCEPT_LOOP, RemoveInLoop(closing));
    }
    if c == closing {
      assert InStage(s', c, if a.loop == ACCEPT_LOOP then Erased else Closing);
    } else {
      Untouched(s, s', c);
    }
  }

  function StageBefore(f: Functor): Stage {
    match f case Establish(_) => Fresh case RemoveInLoop(_) => Closing case Destroy(_) => Erased
  }

  function StageAfter(f: Functor): Stage {
    match f case Establish(_) => Open case RemoveInLoop(_) => Erased case Destroy(_) => Done
  }

  /** The functor at the head of a queue tells the stage of its connection. */
  lemma HeadTellsStage(s: State, loop: LoopId)
    requires Inv(s) && Enabled(s, RunFunctor(loop))
    ensures InStage(s, s.queues[loop][0].c, StageBefore(s.queues[loop][0]))
    ensures WellPlaced(s, loop, s.queues[loop][0])
  {
    var f := s.queues[loop][0];
    assert f in s.queues[loop] && WellPlaced(s, loop, f);
    assert Count(s, loop, f) > 0;
    var stage :| InStage(s, f.c, stage);
    assert stage == StageBefore(f);
  }

  /** The effect of a functor on the queues. */
  lemma FunctorCounts(s: State, loop: LoopId, l: LoopId, g: Functor)
    requires Inv(s) && Enabled(s, RunFunctor(loop))
    ensures var f := s.queues[loop][0];
            Count(Do(s, RunFunctor(loop)), l, g)
            == Count(s, l, g) - (if l == loop && g == f then 1 else 0)
                              + (if f.RemoveInLoop? && l == s.conns[f.c].loop && g == Destroy(f.c) then 1 else 0)
  {
    var f := s.queues[loop][0];
    var popped := s.(queues := s.queues[loop := s.queues[loop][1..]]);
    PopCounts(s, popped, loop);
    if f.RemoveInLoop? {
      QueueCounts(popped, Do(s, RunFunctor(loop)), s.conns[f.c].loop, Destroy(f.c));
    }
  }

  lemma FunctorKeepsStages(s: State, a: Action, c: Cid)
    requires Inv(s) && Enabled(s, a) && a.RunFunctor? && c in Do(s, a).conns
    ensures Staged(Do(s, a), c) && AssertionsHold(s, a)
  {
    hide Count;
    var s' := Do(s, a);
    var f := s.queues[a.loop][0];
    HeadTellsStage(s, a.loop);
    forall l, g {
      FunctorCounts(s, a.loop, l, g);
    }
    if c == f.c {
      assert InStage(s', c, StageAfter(f));
    } else {
      Untouched(s, s', c);
    }
  }

  lemma SameQueues(s: State, s': State)
    requires s'.queues == s.queues
    ensures forall l, f :: Count(s', l, f) == Count(s, l, f)
  {
  }

  lemma OtherStepsKeepStages(s: State, a: Action, c: Cid)
    requires Inv(s) && Enabled(s, a) && !a.Accept? && !a.Close? && !a.RunFunctor? && c in Do(s, a).conns
    ensures Staged(Do(s, a), c)
  {
    hide Count, Owned;
    var s' := Do(s, a);
    assert Staged(s, c);
    hide Inv;
    var stage :| InStage(s, c, stage);
    assert forall l, f :: Count(s', l, f) == Count(s, l, f) by {
      SameQueues(s, s');
    }
    assert InStage(s', c, stage);
  }

  lemma StepKeepsStages(s: State, a: Action, c: Cid)
    requires Inv(s) && Enabled(s, a) && ClosesOnce(s, a) && c in Do(s, a).conns
    ensures Staged(Do(s, a), c)
  {
    match a
    case Accept(_, _) => AcceptKeepsStages(s, a, c);
    case Close(_) => CloseKeepsStages(s, a, c);
    case RunFunctor(_) => FunctorKeepsStages(s, a, c);
    case _ => OtherStepsKeepStages(s, a, c);
  }

  /** A connection keeps its loop, and its registration until `connectDestroyed`. */
  lemma ConnSteps(s: State, a: Action, c: Cid)
    requires Enabled(s, a) && c in s.conns
    ensures c !in Do(s, a).conns <==> a == Free(c)
    ensures c in Do(s, a).conns ==> Do(s, a).conns[c].loop == s.conns[c].loop
    ensures c in Do(s, a).conns && s.conns[c].registered ==>
              Do(s, a).conns[c].registered || (a.RunFunctor? && s.queues[a.loop][0] == Destroy(c))
  {
  }

  /** The functor that a step queues, if it does, and the loop that it is for. */
  function NewFunctor(s: State, a: Action): Option<(LoopId, Functor)>
    requires Enabled(s, a)
  {
    match a
    case Accept(c, loop) => if loop == ACCEPT_LOOP then None else Some((loop, Establish(c)))
    case Close(loop) =>
      var c := s.phases[loop].handling.value;
      Some(if loop == ACCEPT_LOOP then (loop, Destroy(c)) else (ACCEPT_LOOP, RemoveInLoop(c)))
    case RunFunctor(loop) =>
      var f := s.queues[loop][0];
      if f.RemoveInLoop? then Some((s.conns[f.c].loop, Destroy(f.c))) else None
    case _ => None
  }

  lemma QueuesChange(s: State, a: Action)
    requires Enabled(s, a)
    ensures var popped := if a.RunFunctor? then s.queues[a.loop := s.queues[a.loop][1..]] else s.queues;
            var sent := NewFunctor(s, a);
            && (sent.Some? ==> sent.value.0 in s.queues)
            && Do(s, a).queues == if sent.Some? then Queue(popped, sent.value.0, sent.value.1) else popped
  {
  }

  lemma NewFunctorIsPlaced(s: State, a: Action)
    requires Inv(s) && Enabled(s, a) && NewFunctor(s, a).Some?
    ensures WellPlaced(Do(s, a), NewFunctor(s, a).value.0, NewFunctor(s, a).value.1)
  {
    if a.Close? {
      assert GoodPhase(s, a.loop) && Handleable(s, a.loop, s.phases[a.loop].handling.value);
    }
  }

  /** A functor that a step queues is well placed. */
  lemma QueuedFunctors(s: State, a: Action, l: LoopId, f: Functor)
    requires Inv(s) && Enabled(s, a) && l in Do(s, a).queues && f in Do(s, a).queues[l]
    ensures (l in s.queues && f in s.queues[l]) || WellPlaced(Do(s, a), l, f)
  {
    hide Do, Inv;
    QueuesChange(s, a);
    if NewFunctor(s, a).Some? {
      NewFunctorIsPlaced(s, a);
    }
  }

  /** A connection whose functor is queued is not deleted. */
  lemma StepKeepsPlaces(s: State, a: Action, l: LoopId, f: Functor)
    requires Inv(s) && Enabled(s, a) && l in Do(s, a).queues && f in Do(s, a).queues[l]
    ensures WellPlaced(Do(s, a), l, f)
  {
    QueuedFunctors(s, a, l, f);
    if l in s.queues && f in s.queues[l] {
      assert WellPlaced(s, l, f);
      ConnSteps(s, a, f.c);
      assert a != Free(f.c);
    }
  }

  /** A connection without an owner has been torn down: nothing refers to it any more. */
  lemma UnownedIsDone(s: State, c: Cid)
    requires Inv(s) && c in s.conns && !Owned(s, c)
    ensures InStage(s, c, Done)
    ensures !s.conns[c].registered && s.conns[c].destroyed == 1
    ensures forall l :: l in s.phases && s.phases[l].Events? ==> c !in s.phases[l].active && s.phases[l].handling != Some(c)
  {
    var stage :| InStage(s, c, stage);
    forall l, f: Functor | l in s.queues && f.c == c ensures Count(s, l, f) == 0 {
      assert f !in s.queues[l];
    }
    assert stage == Done;
    forall l | l in s.phases ensures GoodPhase(s, l) {
    }
  }

  lemma StepKeepsHandleable(s: State, a: Action, l: LoopId, c: Cid)
    requires Inv(s) && Enabled(s, a) && Handleable(s, l, c)
    requires l in s.phases && s.phases[l].Events? && (c in s.phases[l].active || s.phases[l].handling == Some(c))
    ensures Handleable(Do(s, a), l, c)
  {
    ConnSteps(s, a, c);
    if a == Free(c) {
      UnownedIsDone(s, c);
    } else if a.RunFunctor? {
      HeadTellsStage(s, a.loop);
    }
  }

  lemma ReportIsHandleable(s: State, a: Action, c: Cid)
    requires Inv(s) && Enabled(s, a) && a.Report? && c in a.active
    ensures Handleable(Do(s, a), a.loop, c)
  {
    var stage :| InStage(s, c, stage);
  }

  lemma StepKeepsLeft(s: State, a: Action, l: LoopId)
    requires Inv(s) && Enabled(s, a) && l in Do(s, a).phases && Do(s, a).phases[l].Functors?
    ensures GoodPhase(Do(s, a), l)
  {
    assert l in s.phases && GoodPhase(s, l);
    QueuesChange(s, a);
  }

  lemma StepKeepsPhases(s: State, a: Action, l: LoopId)
    requires Inv(s) && Enabled(s, a) && l in Do(s, a).phases
    ensures GoodPhase(Do(s, a), l)
  {
    var s' := Do(s, a);
    if s'.phases[l].Events? {
      var Events(active, handling, _) := s'.phases[l];
      forall c | c in active || handling == Some(c) ensures Handleable(s', l, c) {
        if a.Report? && a.loop == l {
          ReportIsHandleable(s, a, c);
        } else {
          assert GoodPhase(s, l);
          StepKeepsHandleable(s, a, l, c);
        }
      }
    } else if s'.phases[l].Functors? {
      StepKeepsLeft(s, a, l);
    }
  }

  lemma PhaseKeysStay(s: State, a: Action)
    requires Enabled(s, a)
    ensures Do(s, a).phases.Keys == s.phases.Keys
  {
    hide Queue, Owned;
  }

  lemma StepKeepsKeys(s: State, a: Action)
    requires Inv(s) && Enabled(s, a)
    ensures Do(s, a).queues.Keys == s.queues.Keys && Do(s, a).phases.Keys == s.phases.Keys
    ensures forall c :: c in Do(s, a).conns ==> Do(s, a).conns[c].loop in s.queues
  {
    QueuesChange(s, a);
    PhaseKeysStay(s, a);
    hide Do, Owned, Staged, WellPlaced, GoodPhase;
    forall c | c in Do(s, a).conns ensures Do(s, a).conns[c].loop in s.queues {
      NewConnsHaveLoops(s, a, c);
      if c in s.conns {
        ConnSteps(s, a, c);
      }
    }
  }

  lemma NewConnsHaveLoops(s: State, a: Action, c: Cid)
    requires Enabled(s, a) && c in Do(s, a).conns
    ensures c in s.conns || Do(s, a).conns[c].loop in s.queues
  {
  }

  lemma StepKeepsInv(s: State, a: Action)
    requires Inv(s) && Enabled(s, a) && ClosesOnce(s, a)
    ensures Inv(Do(s, a))
  {
    hide Do, Enabled, Staged, WellPlaced, GoodPhase;
    var s' := Do(s, a);
    StepKeepsKeys(s, a);
    forall c | c in s'.conns ensures Staged(s', c) {
      StepKeepsStages(s, a, c);
    }
    forall l, f | l in s'.queues && f in s'.queues[l] ensures WellPlaced(s', l, f) {
      StepKeepsPlaces(s, a, l, f);
    }
    forall l | l in s'.phases ensures GoodPhase(s', l) {
      StepKeepsPhases(s, a, l);
    }
  }

  lemma StepPassesAssertions(s: State, a: Action)
    requires Inv(s) && Enabled(s, a) && ClosesOnce(s, a)
    ensures AssertionsHold(s, a)
  {
    match a
    case Close(loop) => CloseKeepsStages(s, a, s.phases[loop].handling.value);
    case RunFunctor(loop) => FunctorKeepsStages(s, a, s.queues[loop][0].c);
    case _ =>
  }

  // ----- Every interleaving -----

  predicate Legal(s: State, run: seq<Action>)
    decreases |run|
  {
    run == [] || (Enabled(s, run[0]) && Legal(Do(s, run[0]), run[1..]))
  }

  predicate ClosesOnceAlways(s: State, run: seq<Action>)
    requires Legal(s, run)
    decreases |run|
  {
    run == [] || (ClosesOnce(s, run[0]) && ClosesOnceAlways(Do(s, run[0]), run[1..]))
  }

  function After(s: State, run: seq<Action>): State
    requires Legal(s, run)
    decreases |run|
  {
    if run == [] then s else After(Do(s, run[0]), run[1..])
  }

  lemma {:induction false} RunKeepsInv(s: State, run: seq<Action>)
    requires Inv(s) && Legal(s, run) && ClosesOnceAlways(s, run)
    ensures Inv(After(s, run))
    decreases |run|
  {
    if run != [] {
      StepKeepsInv(s, run[0]);
      RunKeepsInv(Do(s, run[0]), run[1..]);
    }
  }

  lemma InitInv(loops: set<LoopId>)
    requires ACCEPT_LOOP in loops
    ensures Inv(Init(loops))
  {
  }

  lemma RegisteredIsOwned(s: State, c: Cid)
    requires Inv(s) && c in s.conns && s.conns[c].registered
    ensures Owned(s, c) && s.conns[c].state in {Connected, Disconnecting} && s.conns[c].destroyed == 0
  {
    var stage :| InStage(s, c, stage);
    if !Owned(s, c) {
      UnownedIsDone(s, c);
    }
  }

  /** On every interleaving in which no close callback fires twice:
      the source's assertions hold, above all that the erase finds its entry;
      handlers run only on connections that are established and not torn down;
      a channel that a poller points to has an owner;
      a connection is deleted only after exactly one `connectDestroyed` and never inside its handler. */
  lemma LifeCycle(loops: set<LoopId>, run: seq<Action>)
    requires ACCEPT_LOOP in loops && Legal(Init(loops), run) && ClosesOnceAlways(Init(loops), run)
    ensures var s := After(Init(loops), run);
            forall a :: Enabled(s, a) && ClosesOnce(s, a) ==> AssertionsHold(s, a)
    ensures var s := After(Init(loops), run);
            forall l, c :: l in s.phases && s.phases[l].Events? && (c in s.phases[l].active || s.phases[l].handling == Some(c)) ==>
              c in s.conns && s.conns[c].state in {Connected, Disconnecting}
    ensures var s := After(Init(loops), run);
            forall c :: c in s.conns && s.conns[c].registered ==> Owned(s, c)
    ensures var s := After(Init(loops), run);
            forall c :: Enabled(s, Free(c)) ==>
              && s.conns[c].destroyed == 1 && !s.conns[c].registered
              && forall l :: l in s.phases && s.phases[l].Events? ==> c !in s.phases[l].active && s.phases[l].handling != Some(c)
  {
    InitInv(loops);
    RunKeepsInv(Init(loops), run);
    var s := After(Init(loops), run);
    forall a | Enabled(s, a) && ClosesOnce(s, a) ensures AssertionsHold(s, a) {
      StepPassesAssertions(s, a);
    }
    forall l, c | l in s.phases && s.phases[l].Events? && (c in s.phases[l].active || s.phases[l].handling == Some(c))
      ensures c in s.conns && s.conns[c].state in {Connected, Disconnecting} {
      assert GoodPhase(s, l) && Handleable(s, l, c);
      RegisteredIsOwned(s, c);
    }
    forall c | c in s.conns && s.conns[c].registered ensures Owned(s, c) {
      RegisteredIsOwned(s, c);
    }
    forall c | Enabled(s, Free(c)) {
      UnownedIsDone(s, c);
    }
  }

  /** When no functor is left, every connection is either open or has been torn down, once. */
  lemma QuietServerHasNoLeftovers(loops: set<LoopId>, run: seq<Action>, c: Cid)
    requires ACCEPT_LOOP in loops && Legal(Init(loops), run) && ClosesOnceAlways(Init(loops), run)
    requires c in After(Init(loops), run).conns
    requires var s := After(Init(loops), run); forall l :: l in s.queues ==> s.queues[l] == []
    ensures var conn := After(Init(loops), run).conns[c];
            if conn.closes == 0 then conn.inMap && conn.registered && conn.state != Disconnected
            else !conn.inMap && !conn.registered && conn.destroyed == 1 && conn.state == Disconnected
  {
    InitInv(loops);
    RunKeepsInv(Init(loops), run);
    var s := After(Init(loops), run);
    var stage :| InStage(s, c, stage);
  }

  // ----- Loops and functors -----

  /** A step makes a connection if and only if it accepts it, on the loop that was chosen for it. */
  lemma NewConnIsAccepted(s: State, a: Action, c: Cid)
    requires Enabled(s, a) && c !in s.conns
    ensures c in Do(s, a).conns <==> a.Accept? && a.c == c
    ensures c in Do(s, a).conns ==> a == Accept(c, Do(s, a).conns[c].loop)
  {
  }

  /** Every connection is served by the loop that was chosen for it when it was accepted. */
  lemma {:induction false} ServedByChosenLoop(s: State, run: seq<Action>, c: Cid)
    requires Legal(s, run) && c in After(s, run).conns
    ensures Accept(c, After(s, run).conns[c].loop) in run || (c in s.conns && s.conns[c].loop == After(s, run).conns[c].loop)
    decreases |run|
  {
    hide Do, Enabled;
    if run != [] {
      var s' := Do(s, run[0]);
      ServedByChosenLoop(s', run[1..], c);
      assert forall a :: a in run[1..] ==> a in run;
      if c in s.conns {
        ConnSteps(s, run[0], c);
      } else {
        NewConnIsAccepted(s, run[0], c);
        assert run[0] in run;
      }
    }
  }

  lemma FreeNeedsConn(s: State, a: Action, c: Cid)
    requires Enabled(s, a) && c !in s.conns
    ensures a != Free(c)
  {
  }

  /** A connection exists if and only if it has been accepted and not been deleted, after numbers that are never used
      again. */
  lemma {:induction false} ExistsUntilFreed(s: State, run: seq<Action>, c: Cid)
    requires Legal(s, run)
    requires forall i, j :: 0 <= i < j < |run| && run[i] == Free(c) ==> !(run[j].Accept? && run[j].c == c)
    ensures c in After(s, run).conns <==>
            (c in s.conns || exists a :: a in run && a.Accept? && a.c == c) && Free(c) !in run
    decreases |run|
  {
    hide Do, Enabled;
    if run != [] {
      var s', rest := Do(s, run[0]), run[1..];
      assert run == [run[0]] + rest;
      assert forall i, j :: 0 <= i < j < |rest| ==> rest[i] == run[i + 1] && rest[j] == run[j + 1];
      if c in s.conns {
        ConnSteps(s, run[0], c);
      } else {
        NewConnIsAccepted(s, run[0], c);
        FreeNeedsConn(s, run[0], c);
      }
      ExistsUntilFreed(s', rest, c);
    }
  }

  /** A functor has done what it is for. */
  predicate Ran(s: State, f: Functor) {
    f.c in s.conns &&
    match f
    case Establish(c) => s.conns[c].state != Connecting
    case RemoveInLoop(c) => !s.conns[c].inMap
    case Destroy(c) => s.conns[c].state == Disconnected && !s.conns[c].registered && s.conns[c].destroyed > 0
  }

  /** The loop runs its functors to the end and goes back to the poll. */
  function Turns(loop: LoopId, left: nat): seq<Action> {
    if left == 0 then [FinishFunctors(loop)] else [RunFunctor(loop)] + Turns(loop, left - 1)
  }

  lemma TurnRuns(s: State, loop: LoopId)
    requires Inv(s) && loop in s.phases && s.phases[loop].Functors? && s.phases[loop].left > 0
    ensures Enabled(s, RunFunctor(loop)) && Ran(Do(s, RunFunctor(loop)), s.queues[loop][0])
    ensures var s' := Do(s, RunFunctor(loop));
            && loop in s'.phases && s'.phases[loop] == Functors(s.phases[loop].left - 1)
            && loop in s'.queues && s.queues[loop][1..] <= s'.queues[loop]
  {
    assert GoodPhase(s, loop);
    assert s.queues[loop][0] in s.queues[loop] && WellPlaced(s, loop, s.queues[loop][0]);
  }

  lemma TurnUndoesNothing(s: State, loop: LoopId, f: Functor)
    requires Inv(s) && Enabled(s, RunFunctor(loop)) && Ran(s, f)
    ensures Ran(Do(s, RunFunctor(loop)), f)
  {
    HeadTellsStage(s, loop);
    hide Inv, Count;
  }

  lemma Finishes(s: State, loop: LoopId)
    requires loop in s.phases && s.phases[loop] == Functors(0)
    ensures Legal(s, Turns(loop, 0)) && ClosesOnceAlways(s, Turns(loop, 0))
    ensures After(s, Turns(loop, 0)) == s.(phases := s.phases[loop := Polling])
  {
    assert Turns(loop, 0)[1..] == [];
  }

  lemma {:induction false} TurnsRun(s: State, loop: LoopId, left: nat)
    requires Inv(s) && loop in s.phases && s.phases[loop] == Functors(left) && left <= |s.queues[loop]|
    ensures Legal(s, Turns(loop, left)) && ClosesOnceAlways(s, Turns(loop, left))
    ensures var s' := After(s, Turns(loop, left));
            && loop in s'.phases && s'.phases[loop] == Polling
            && (forall f :: f in s.queues[loop][..left] ==> Ran(s', f))
            && (forall f :: Ran(s, f) ==> Ran(s', f))
    decreases left
  {
    hide Do, Enabled, Inv, Ran;
    if left == 0 {
      Finishes(s, loop);
      RanStays(s, loop);
    } else {
      TurnRuns(s, loop);
      StepKeepsInv(s, RunFunctor(loop));
      var s1 := Do(s, RunFunctor(loop));
      assert s.queues[loop][1..][..left - 1] == s1.queues[loop][..left - 1];
      TurnsRun(s1, loop, left - 1);
      assert Turns(loop, left)[1..] == Turns(loop, left - 1);
      forall f | Ran(s, f) ensures Ran(s1, f) {
        TurnUndoesNothing(s, loop, f);
      }
      assert s.queues[loop][..left] == [s.queues[loop][0]] + s.queues[loop][1..][..left - 1];
    }
  }

  lemma RanStays(s: State, loop: LoopId)
    ensures forall f :: Ran(s, f) ==> Ran(s.(phases := s.phases[loop := Polling]), f)
  {
  }

  lemma FunctorsStart(s: State, loop: LoopId)
    requires Inv(s) && loop in s.phases && s.phases[loop] == Events({}, None, 0)
    ensures Enabled(s, StartFunctors(loop)) && loop in s.queues
    ensures var s' := Do(s, StartFunctors(loop));
            Inv(s') && loop in s'.phases && s'.phases[loop] == Functors(|s.queues[loop]|) && s'.queues == s.queues
  {
    StepKeepsInv(s, StartFunctors(loop));
  }

  /** Once a loop has run its handlers, every functor queued for it has its turn before the loop sleeps again: the
      connection is established, erased or torn down, and no assertion is in the way. */
  lemma QueuedFunctorsGetTheirTurn(s: State, loop: LoopId)
    requires Inv(s) && loop in s.phases && s.phases[loop] == Events({}, None, 0)
    ensures loop in s.queues
    ensures var run := [StartFunctors(loop)] + Turns(loop, |s.queues[loop]|);
            && Legal(s, run) && ClosesOnceAlways(s, run)
            && loop in After(s, run).phases && After(s, run).phases[loop] == Polling
            && forall f :: f in s.queues[loop] ==> Ran(After(s, run), f)
  {
    hide Do, Enabled, Inv, Ran;
    FunctorsStart(s, loop);
    var n := |s.queues[loop]|;
    TurnsRun(Do(s, StartFunctors(loop)), loop, n);
    assert ([StartFunctors(loop)] + Turns(loop, n))[1..] == Turns(loop, n);
    assert s.queues[loop][..n] == s.queues[loop];
  }

  // ----- The server -----

  /** The server's methods and the two ends of a connection's life, against the steps above. The other steps
      are the loops' and the users'. */
  class TcpServer {
    var conns: map<Cid, Conn>
    var queues: map<LoopId, seq<Functor>>
    var phases: map<LoopId, Phase>
    var nextConnId: nat

    function View(): State
      reads this
    {
      State(conns, queues, phases)
    }

    ghost predicate Valid()
      reads this
    {
      Inv(View()) && forall c :: c in conns ==> c < nextConnId
    }

    constructor (loops: set<LoopId>)
      requires ACCEPT_LOOP in loops
      ensures Valid() && View() == Init(loops)
    {
      conns, nextConnId := map[], 1;
      queues := map l | l in loops :: [];
      phases := map l | l in loops :: Polling;
      new;
      InitInv(loops);
    }

    method QueueInLoop(loop: LoopId, f: Functor)
      requires loop in queues
      modifies this`queues
      ensures queues == Queue(old(queues), loop, f)
    {
      queues := queues[loop := queues[loop] + [f]];
    }

    method ConnectEstablished(c: Cid)
      requires c in conns && conns[c].state == Connecting
      modifies this`conns
      ensures conns == old(conns)[c := Established(old(conns[c]))]
    {
      conns := conns[c := conns[c].(state := Connected, registered := true, watched := true)];
    }

    method ConnectDestroyed(c: Cid)
      requires c in conns && conns[c].state in {Connected, Disconnecting}
      modifies this`conns
      ensures conns == old(conns)[c := TornDown(old(conns[c]))]
    {
      conns := conns[c := conns[c].(state := Disconnected, watched := false)];
      conns := conns[c := conns[c].(registered := false, destroyed := conns[c].destroyed + 1)];
    }

    /** On the accept loop; `ioLoop` is the loop that the pool chose. */
    method NewConnection(ioLoop: LoopId) returns (c: Cid)
      requires Valid() && Enabled(View(), Accept(nextConnId, ioLoop))
      modifies this`conns, this`queues, this`nextConnId
      ensures Valid() && c == old(nextConnId) && View() == Do(old(View()), Accept(c, ioLoop))
    {
      hide Inv;
      StepKeepsInv(View(), Accept(nextConnId, ioLoop));
      c := nextConnId;
      nextConnId := nextConnId + 1;
      conns := conns[c := Conn(ioLoop, Connecting, true, false, false, 0, 0)];
      if ioLoop == ACCEPT_LOOP {
        ConnectEstablished(c);
        assert conns == old(conns)[c := conns[c]];
      } else {
        QueueInLoop(ioLoop, Establish(c));
      }
    }

    /** On the accept loop. */
    method RemoveConnectionInLoop(c: Cid)
      requires c in conns && conns[c].inMap && conns[c].loop in queues
      modifies this`conns, this`queues
      ensures conns == old(conns)[c := old(conns[c]).(inMap := false)]
      ensures queues == Queue(old(queues), old(conns[c].loop), Destroy(c))
    {
      var n := if conns[c].inMap then 1 else 0;
      conns := conns[c := conns[c].(inMap := false)];
      assert n == 1;
      QueueInLoop(conns[c].loop, Destroy(c));
    }

    /** `handleClose` of the connection whose handler runs on a loop, down to `removeConnection`. */
    method HandleClose(loop: LoopId)
      requires Valid() && Enabled(View(), Close(loop)) && ClosesOnce(View(), Close(loop))
      modifies this`conns, this`queues, this`phases
      ensures Valid() && View() == Do(old(View()), Close(loop))
    {
      hide Inv;
      StepKeepsInv(View(), Close(loop));
      StepPassesAssertions(View(), Close(loop));
      CloseFindsOpen(View(), loop);
      var c := phases[loop].handling.value;
      assert conns[c].state in {Connected, Disconnecting};
      conns := conns[c := conns[c].(watched := false, closes := conns[c].closes + 1)];
      phases := phases[loop := phases[loop].(closing := phases[loop].closing - 1)];
      if loop == ACCEPT_LOOP {
        RemoveConnectionInLoop(c);
        assert conns == old(conns)[c := conns[c]];
      } else {
        QueueInLoop(ACCEPT_LOOP, RemoveInLoop(c));
      }
    }

    /** One functor of a loop. */
    method RunNextFunctor(loop: LoopId)
      requires Valid() && Enabled(View(), RunFunctor(loop))
      modifies this`conns, this`queues, this`phases
      ensures Valid() && View() == Do(old(View()), RunFunctor(loop))
    {
      hide Inv;
      StepKeepsInv(View(), RunFunctor(loop));
      StepPassesAssertions(View(), RunFunctor(loop));
      var f := queues[loop][0];
      queues := queues[loop := queues[loop][1..]];
      phases := phases[loop := Functors(phases[loop].left - 1)];
      match f
      case Establish(c) => ConnectEstablished(c);
      case RemoveInLoop(c) => RemoveConnectionInLoop(c);
      case Destroy(c) => ConnectDestroyed(c);
    }
  }

  // ----- A second close -----

  /** An assertion fails while the accept loop runs at most `n + 1` functors from its queue. */
  predicate FailsWhileDraining(s: State, n: nat)
    decreases n
  {
    Enabled(s, RunFunctor(ACCEPT_LOOP)) &&
    (!AssertionsHold(s, RunFunctor(ACCEPT_LOOP)) || (n > 0 && FailsWhileDraining(Do(s, RunFunctor(ACCEPT_LOOP)), n - 1)))
  }

  /** Removing a connection more often than it is in the map fails, whatever else is queued. */
  lemma {:induction false} ExcessRemovalFails(s: State, c: Cid, k: nat)
    requires ACCEPT_LOOP in s.queues && ACCEPT_LOOP in s.phases && s.phases[ACCEPT_LOOP].Functors? && c in s.conns
    requires s.phases[ACCEPT_LOOP].left > k
    requires forall f :: f in s.queues[ACCEPT_LOOP] ==> f.c in s.conns && s.conns[f.c].loop in s.queues
    requires k < |s.queues[ACCEPT_LOOP]| && s.queues[ACCEPT_LOOP][k] == RemoveInLoop(c)
    requires s.conns[c].inMap ==> RemoveInLoop(c) in s.queues[ACCEPT_LOOP][..k]
    ensures FailsWhileDraining(s, k)
    decreases k
  {
    var a := RunFunctor(ACCEPT_LOOP);
    var queue := s.queues[ACCEPT_LOOP];
    assert queue[0] in queue;
    if k == 0 {
      assert queue[..k] == [];
    } else if AssertionsHold(s, a) {
      PopKeepsRest(s, ACCEPT_LOOP);
      PrefixAfterPop(queue, Do(s, a).queues[ACCEPT_LOOP], k);
      ExcessRemovalFails(Do(s, a), c, k - 1);
    }
  }

  lemma PopKeepsRest(s: State, loop: LoopId)
    requires Enabled(s, RunFunctor(loop))
    ensures loop in Do(s, RunFunctor(loop)).queues && s.queues[loop][1..] <= Do(s, RunFunctor(loop)).queues[loop]
  {
  }

  lemma PrefixAfterPop(queue: seq<Functor>, later: seq<Functor>, k: nat)
    requires 0 < k < |queue| && queue[1..] <= later
    ensures later[..k - 1] == queue[1..k] && later[k - 1] == queue[k] && queue[..k] == [queue[0]] + queue[1..k]
  {
    assert later[..|queue| - 1] == queue[1..];
  }

  /** The close callback of a connection must not fire twice: if it does, the erase fails to find the entry,
      either at once or when the accept loop runs its functors. */
  lemma SecondCloseFails(s: State, loop: LoopId)
    requires Inv(s) && Enabled(s, Close(loop)) && !ClosesOnce(s, Close(loop))
    ensures loop == ACCEPT_LOOP ==> !AssertionsHold(s, Close(loop))
    ensures loop != ACCEPT_LOOP ==>
              var s' := Do(s, Close(loop));
              var draining := s'.(phases := s'.phases[ACCEPT_LOOP := Functors(|s'.queues[ACCEPT_LOOP]|)]);
              FailsWhileDraining(draining, |s.queues[ACCEPT_LOOP]|)
  {
    var c := s.phases[loop].handling.value;
    assert GoodPhase(s, loop) && Handleable(s, loop, c);
    var stage :| InStage(s, c, stage);
    if loop != ACCEPT_LOOP {
      var s' := Do(s, Close(loop));
      var draining := s'.(phases := s'.phases[ACCEPT_LOOP := Functors(|s'.queues[ACCEPT_LOOP]|)]);
      var queue := s.queues[ACCEPT_LOOP];
      forall f | f in draining.queues[ACCEPT_LOOP] ensures f.c in draining.conns && draining.conns[f.c].loop in draining.queues {
        assert f in queue ==> WellPlaced(s, ACCEPT_LOOP, f);
      }
      assert draining.queues[ACCEPT_LOOP][..|queue|] == queue;
      ExcessRemovalFails(draining, c, |queue|);
    }
  }
}
