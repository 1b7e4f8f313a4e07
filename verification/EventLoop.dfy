/**
 The event loop's hand-off: functors are pushed into a queue by any thread, swapped out and run by the loop's
 thread, which sleeps in epoll_wait and is woken through an eventfd.
 */
module EventLoop {

  // ----- What the threads share -----

  /** The queue of functors, the eventfd's counter and the flag. */
  datatype Shared<T> = Shared(pending: seq<T>, counter: nat, quit: bool)

  /** An eventfd counter holds at most this much; a write that does not fit fails and changes nothing. */
  const MAX_COUNTER: nat := 0xFFFF_FFFF_FFFF_FFFE

  function Woken(counter: nat): (c: nat)
    ensures c > 0
  {
    if counter < MAX_COUNTER then counter + 1 else counter
  }

  /** The halves of `queueInLoop` and `quit`, the wakeup's read, and the swap in `doPendingFunctors`. */
  function AfterPush<T>(s: Shared<T>, task: T): Shared<T> {
    s.(pending := s.pending + [task])
  }

  function AfterQuit<T>(s: Shared<T>): Shared<T> {
    s.(quit := true)
  }

  function AfterWakeup<T>(s: Shared<T>): Shared<T> {
    s.(counter := Woken(s.counter))
  }

  function AfterRead<T>(s: Shared<T>): Shared<T> {
    s.(counter := 0)
  }

  function AfterSwap<T>(s: Shared<T>): Shared<T> {
    s.(pending := [])
  }

  // ----- The code of one thread -----

  /** A functor: what it queues in turn, and whether it asks the loop to quit. */
  datatype Functor = Functor(id: nat, queues: seq<Functor>, quits: bool)

  function Children(functors: seq<Functor>): seq<Functor> {
    if functors == [] then [] else Children(functors[..|functors| - 1]) + functors[|functors| - 1].queues
  }

  class EventLoop {
    var pendingFunctors: seq<Functor>
    var callingPendingFunctors: bool
    var quit: bool
    var wakeupCounter: nat

    constructor ()
      ensures pendingFunctors == [] && !callingPendingFunctors && !quit && wakeupCounter == 0
    {
      pendingFunctors, callingPendingFunctors, quit, wakeupCounter := [], false, false, 0;
    }

    function View(): Shared<Functor>
      reads this
    {
      Shared(pendingFunctors, wakeupCounter, quit)
    }

    method Wakeup()
      modifies this`wakeupCounter
      ensures View() == AfterWakeup(old(View()))
    {
      wakeupCounter := Woken(wakeupCounter);
    }

    method HandleRead()
      modifies this`wakeupCounter
      ensures View() == AfterRead(old(View()))
    {
      wakeupCounter := 0;
    }

    method QueueInLoop(cb: Functor, inLoopThread: bool)
      modifies this`pendingFunctors, this`wakeupCounter
      ensures var pushed := AfterPush(old(View()), cb);
              View() == if !inLoopThread || callingPendingFunctors then AfterWakeup(pushed) else pushed
    {
      pendingFunctors := pendingFunctors + [cb];
      if !inLoopThread || callingPendingFunctors {
        Wakeup();
      }
    }

    method Quit(inLoopThread: bool)
      modifies this`quit, this`wakeupCounter
      ensures View() == if inLoopThread then AfterQuit(old(View())) else AfterWakeup(AfterQuit(old(View())))
    {
      quit := true;
      if !inLoopThread {
        Wakeup();
      }
    }

    /** The critical section of `doPendingFunctors`. */
    method SwapFunctors() returns (functors: seq<Functor>)
      modifies this`pendingFunctors
      ensures functors == old(pendingFunctors) && View() == AfterSwap(old(View()))
    {
      functors := pendingFunctors;
      pendingFunctors := [];
    }

    /** Runs one functor on the loop's thread. */
    method Run(functor: Functor)
      requires callingPendingFunctors
      modifies this`pendingFunctors, this`wakeupCounter, this`quit
      ensures pendingFunctors == old(pendingFunctors) + functor.queues
      ensures functor.queues != [] ==> wakeupCounter > 0
      ensures wakeupCounter >= old(wakeupCounter)
      ensures quit == (old(quit) || functor.quits)
    {
      for i := 0 to |functor.queues|
        invariant pendingFunctors == old(pendingFunctors) + functor.queues[..i]
        invariant wakeupCounter >= old(wakeupCounter) && (i > 0 ==> wakeupCounter > 0) && quit == old(quit)
      {
        QueueInLoop(functor.queues[i], true);
      }
      assert functor.queues[..|functor.queues|] == functor.queues;
      if functor.quits {
        Quit(true);
      }
    }

    /** Runs what was queued before the call, in order. What these functors queue stays queued, and then
        the loop's next epoll_wait does not block. */
    method DoPendingFunctors() returns (executed: seq<Functor>)
      modifies this
      ensures executed == old(pendingFunctors)
      ensures pendingFunctors == Children(old(pendingFunctors))
      ensures pendingFunctors != [] ==> wakeupCounter > 0
      ensures quit == (old(quit) || exists f :: f in executed && f.quits)
      ensures !callingPendingFunctors
    {
      callingPendingFunctors := true;
      var functors := SwapFunctors();
      executed := [];
      for i := 0 to |functors|
        invariant callingPendingFunctors && executed == functors[..i]
        invariant pendingFunctors == Children(functors[..i])
        invariant pendingFunctors != [] ==> wakeupCounter > 0
        invariant quit == (old(quit) || exists f :: f in executed && f.quits)
      {
        assert functors[..i + 1][..i] == functors[..i];
        Run(functors[i]);
        executed := executed + [functors[i]];
      }
      assert functors[..|functors|] == functors;
      callingPendingFunctors := false;
    }
  }

  // ----- All threads together -----

  type Tid = nat
  type Task = nat

  /** Another thread, outside or between the two halves of `queueInLoop` or `quit`. */
  datatype Other = Idle | Pushed | QuitSet

  /** The loop's thread: before the test of `quit`, in epoll_wait, in the channels' callbacks (`wakeReady`:
      the wakeup channel still has its turn), in the functors swapped out, or in one of these between
      pushing a functor and writing to the eventfd. */
  datatype Phase = CheckQuit | Polling | Events(wakeReady: bool) | Functors(rest: seq<Task>) | FunctorPushed(rest: seq<Task>) | Exited

  /** `queued` and `executed` are history. */
  datatype State = State(shared: Shared<Task>, phase: Phase, others: map<Tid, Other>, queued: seq<Task>, executed: seq<Task>)

  datatype Action =
    | Push(t: Tid, task: Task) | SetQuit(t: Tid) | Write(t: Tid)
    | Test | Return(wakeReady: bool) | ReadCounter | PushInLoop(task: Task) | WriteInLoop | QuitInLoop | Swap | RunNext | Finish

  /** epoll_wait may return at any time, on other events or a timeout; it reports the wakeup channel only
      when the counter is positive. */
  predicate Enabled(s: State, a: Action) {
    match a
    case Push(t, _) => t in s.others && s.others[t].Idle?
    case SetQuit(t) => t in s.others && s.others[t].Idle?
    case Write(t) => t in s.others && !s.others[t].Idle?
    case Test => s.phase.CheckQuit?
    case Return(wakeReady) => s.phase.Polling? && (wakeReady ==> s.shared.counter > 0)
    case ReadCounter => s.phase.Events? && s.phase.wakeReady
    case PushInLoop(_) => s.phase.Events? || s.phase.Functors?
    case WriteInLoop => s.phase.FunctorPushed?
    case QuitInLoop => s.phase.Events? || s.phase.Functors?
    case Swap => s.phase.Events? && !s.phase.wakeReady
    case RunNext => s.phase.Functors? && s.phase.rest != []
    case Finish => s.phase == Functors([])
  }

  function Do(s: State, a: Action): State
    requires Enabled(s, a)
  {
    match a
    case Push(t, task) => s.(shared := AfterPush(s.shared, task), queued := s.queued + [task], others := s.others[t := Pushed])
    case SetQuit(t) => s.(shared := AfterQuit(s.shared), others := s.others[t := QuitSet])
    case Write(t) => s.(shared := AfterWakeup(s.shared), others := s.others[t := Idle])
    case Test => s.(phase := if s.shared.quit then Exited else Polling)
    case Return(wakeReady) => s.(phase := Events(wakeReady))
    case ReadCounter => s.(shared := AfterRead(s.shared), phase := Events(false))
    case PushInLoop(task) =>
      s.(shared := AfterPush(s.shared, task), queued := s.queued + [task],
         phase := if s.phase.Functors? then FunctorPushed(s.phase.rest) else s.phase)
    case WriteInLoop => s.(shared := AfterWakeup(s.shared), phase := Functors(s.phase.rest))
    case QuitInLoop => s.(shared := AfterQuit(s.shared))
    case Swap => s.(shared := AfterSwap(s.shared), phase := Functors(s.shared.pending))
    case RunNext => s.(executed := s.executed + [s.phase.rest[0]], phase := Functors(s.phase.rest[1..]))
    case Finish => s.(phase := CheckQuit)
  }

  predicate SomeOther(s: State, where: Other) {
    exists t :: t in s.others && s.others[t] == where
  }

  /** A wakeup for the pending functors has been written, or is about to be. */
  predicate Covered(s: State) {
    s.shared.pending != [] ==> s.shared.counter > 0 || SomeOther(s, Pushed) || s.phase.FunctorPushed?
  }

  function Remaining(s: State): seq<Task> {
    if s.phase.Functors? || s.phase.FunctorPushed? then s.phase.rest else []
  }

  predicate Inv(s: State) {
    && (!s.phase.Events? && !s.phase.Exited? ==> Covered(s))
    && (s.phase.Polling? && s.shared.quit ==> s.shared.counter > 0 || SomeOther(s, QuitSet))
    && s.queued == s.executed + Remaining(s) + s.shared.pending
  }

  lemma StepKeepsInv(s: State, a: Action)
    requires Inv(s) && Enabled(s, a)
    ensures Inv(Do(s, a))
  {
    var s' := Do(s, a);
    forall where, t | t in s.others && s.others[t] == where && !(a.Write? && a.t == t) && !(a.Push? && a.t == t) && !(a.SetQuit? && a.t == t)
      ensures SomeOther(s', where)
    {
      assert s'.others[t] == where;
    }
    if a.Push? || a.SetQuit? {
      assert s'.others[a.t] == (if a.Push? then Pushed else QuitSet);
    }
  }

  // ----- Every interleaving -----

  predicate Legal(s: State, run: seq<Action>)
    decreases |run|
  {
    run == [] || (Enabled(s, run[0]) && Legal(Do(s, run[0]), run[1..]))
  }

  function After(s: State, run: seq<Action>): State
    requires Legal(s, run)
    decreases |run|
  {
    if run == [] then s else After(Do(s, run[0]), run[1..])
  }

  lemma {:induction false} RunKeepsInv(s: State, run: seq<Action>)
    requires Inv(s) && Legal(s, run)
    ensures Inv(After(s, run))
    decreases |run|
  {
    if run != [] {
      StepKeepsInv(s, run[0]);
      RunKeepsInv(Do(s, run[0]), run[1..]);
    }
  }

  /** `loop()` as it starts: it has just cleared `quit`. */
  predicate Starts(s: State) {
    s.phase.CheckQuit? && !s.shared.quit && s.executed == [] && s.queued == s.shared.pending
  }

  /** Whoever sleeps in epoll_wait with something to do has a wakeup written or on its way. */
  predicate NoLostWakeup(s: State) {
    s.phase.Polling? ==>
      && (s.shared.pending != [] ==> s.shared.counter > 0 || SomeOther(s, Pushed))
      && (s.shared.quit ==> s.shared.counter > 0 || SomeOther(s, QuitSet))
  }

  /** No wakeup is lost on any interleaving, exactly when none is missing as the loop starts: functors
      that the loop's own thread queued before have none. */
  lemma NoLostWakeupExactly(s: State)
    requires Starts(s)
    ensures (forall run :: Legal(s, run) ==> NoLostWakeup(After(s, run))) <==> Covered(s)
  {
    if Covered(s) {
      forall run | Legal(s, run) ensures NoLostWakeup(After(s, run)) {
        RunKeepsInv(s, run);
      }
    } else {
      var s', run := Do(s, Test), [Test];
      assert run[0] == Test && run[1..] == [];
      assert Legal(s', run[1..]);
      assert Legal(s, run) && After(s, run) == s';
      forall t | t in s'.others ensures s'.others[t] != Pushed {
        assert s.others[t] != Pushed;
      }
      assert !NoLostWakeup(After(s, run));
    }
  }

  // ----- What a run asks for -----

  /** The functors that the threads of a run queue, in order. */
  function Tasks(run: seq<Action>): seq<Task> {
    if run == [] then [] else TasksOf(run[0]) + Tasks(run[1..])
  }

  function TasksOf(a: Action): seq<Task> {
    match a
    case Push(_, task) => [task]
    case PushInLoop(task) => [task]
    case _ => []
  }

  predicate AsksToQuit(run: seq<Action>) {
    exists i :: 0 <= i < |run| && (run[i].SetQuit? || run[i].QuitInLoop?)
  }

  /** How many functors got their turn. */
  function Turns(run: seq<Action>): nat {
    if run == [] then 0 else (if run[0].RunNext? then 1 else 0) + Turns(run[1..])
  }

  /** Whether the eventfd has been written since it was last read, `before` telling how that was. */
  predicate Rung(before: bool, run: seq<Action>)
    decreases |run|
  {
    if run == [] then before
    else Rung((before || run[0].Write? || run[0].WriteInLoop?) && !run[0].ReadCounter?, run[1..])
  }

  lemma StepDoesWhatIsAsked(s: State, a: Action)
    requires Enabled(s, a)
    ensures var s' := Do(s, a);
            && s'.queued == s.queued + TasksOf(a)
            && (s'.shared.quit <==> s.shared.quit || a.SetQuit? || a.QuitInLoop?)
            && |s'.executed| == |s.executed| + (if a.RunNext? then 1 else 0)
            && (s'.shared.counter > 0 <==> (s.shared.counter > 0 || a.Write? || a.WriteInLoop?) && !a.ReadCounter?)
            && (s'.phase.Exited? <==> s.phase.Exited? || (a.Test? && s.shared.quit))
  {
  }

  /** After a run, exactly its functors have been queued, the flag is set if it was set or the run sets it, as many
      functors have run as had a turn, and the eventfd is readable if it was written since it was last read. */
  lemma {:induction false} RunDoesWhatIsAsked(s: State, run: seq<Action>)
    requires Legal(s, run)
    ensures var s' := After(s, run);
            && s'.queued == s.queued + Tasks(run)
            && (s'.shared.quit <==> s.shared.quit || AsksToQuit(run))
            && |s'.executed| == |s.executed| + Turns(run)
            && (s'.shared.counter > 0 <==> Rung(s.shared.counter > 0, run))
    decreases |run|
  {
    hide Do, Enabled;
    if run != [] {
      StepDoesWhatIsAsked(s, run[0]);
      RunDoesWhatIsAsked(Do(s, run[0]), run[1..]);
      assert AsksToQuit(run) <==> run[0].SetQuit? || run[0].QuitInLoop? || AsksToQuit(run[1..]) by {
        QuitsFirstOrLater(run);
      }
    }
  }

  /** A wakeup that the poll reported is read before the functors queued are swapped out. */
  lemma ReportedWakeupIsRead(s: State, run: seq<Action>)
    requires Enabled(s, Return(true)) && Legal(Do(s, Return(true)), run) && Swap in run
    ensures ReadCounter in run
  {
    ReadBeforeSwap(Do(s, Return(true)), run);
  }

  lemma {:induction false} ReadBeforeSwap(s: State, run: seq<Action>)
    requires s.phase == Events(true) && Legal(s, run) && Swap in run
    ensures ReadCounter in run
    decreases |run|
  {
    assert run == [run[0]] + run[1..];
    if run[0] != ReadCounter {
      StaysReported(s, run[0]);
      hide Do, Enabled;
      ReadBeforeSwap(Do(s, run[0]), run[1..]);
    }
  }

  lemma StaysReported(s: State, a: Action)
    requires s.phase == Events(true) && Enabled(s, a) && a != ReadCounter
    ensures a != Swap && Do(s, a).phase == Events(true)
  {
  }

  lemma QuitsFirstOrLater(run: seq<Action>)
    requires run != []
    ensures AsksToQuit(run) <==> run[0].SetQuit? || run[0].QuitInLoop? || AsksToQuit(run[1..])
  {
    if i :| 0 < i < |run| && (run[i].SetQuit? || run[i].QuitInLoop?) {
      assert run[1..][i - 1] == run[i];
    }
    if i :| 0 <= i < |run[1..]| && (run[1..][i].SetQuit? || run[1..][i].QuitInLoop?) {
      assert run[i + 1] == run[1..][i];
    }
  }

  /** The functors that have run are the first ones queued, in order and each once, as many as had a turn; all
      others are swapped out and waiting for their turn, or in the queue. */
  lemma FunctorsRunInOrder(s: State, run: seq<Action>)
    requires Starts(s) && Covered(s) && Legal(s, run)
    ensures Turns(run) <= |s.queued + Tasks(run)|
    ensures After(s, run).executed == (s.queued + Tasks(run))[..Turns(run)]
    ensures Remaining(After(s, run)) + After(s, run).shared.pending == (s.queued + Tasks(run))[Turns(run)..]
  {
    hide After, Legal, Tasks, Remaining, Inv;
    StartsWell(s);
    RunKeepsInv(s, run);
    RunDoesWhatIsAsked(s, run);
    var s' := After(s, run);
    InOrder(s');
    SplitAt(s'.queued, s'.executed, Remaining(s') + s'.shared.pending);
  }

  lemma StartsWell(s: State)
    requires Starts(s) && Covered(s)
    ensures Inv(s)
  {
  }

  lemma InOrder(s: State)
    requires Inv(s)
    ensures s.queued == s.executed + (Remaining(s) + s.shared.pending)
  {
    hide Covered, SomeOther, Remaining;
  }

  lemma SplitAt(all: seq<Task>, first: seq<Task>, rest: seq<Task>)
    requires all == first + rest
    ensures |first| <= |all| && all[..|first|] == first && all[|first|..] == rest
  {
  }

  /** The swap takes every functor queued so far that has not run, and they run next. */
  lemma SwapTakesAll(s: State, run: seq<Action>)
    requires Starts(s) && Covered(s) && Legal(s, run) && Enabled(After(s, run), Swap)
    ensures Turns(run) <= |s.queued + Tasks(run)|
    ensures Do(After(s, run), Swap).phase == Functors((s.queued + Tasks(run))[Turns(run)..])
    ensures Do(After(s, run), Swap).shared.pending == []
  {
    FunctorsRunInOrder(s, run);
    hide After, Legal, Tasks;
  }

  /** The loop has ended only if somebody asked it to, and once somebody has, it ends at its next test. */
  lemma LoopEndsExactly(s: State, run: seq<Action>)
    requires !s.phase.Exited? && Legal(s, run)
    ensures After(s, run).phase.Exited? ==> s.shared.quit || AsksToQuit(run)
    ensures After(s, run).phase.CheckQuit? ==>
              (Do(After(s, run), Test).phase.Exited? <==> s.shared.quit || AsksToQuit(run))
  {
    RunDoesWhatIsAsked(s, run);
    ExitedMeansQuit(s, run);
    hide After, Legal, AsksToQuit;
  }

  lemma {:induction false} ExitedMeansQuit(s: State, run: seq<Action>)
    requires (s.phase.Exited? ==> s.shared.quit) && Legal(s, run)
    ensures After(s, run).phase.Exited? ==> After(s, run).shared.quit
    decreases |run|
  {
    hide Do, Enabled;
    if run != [] {
      StepDoesWhatIsAsked(s, run[0]);
      ExitedMeansQuit(Do(s, run[0]), run[1..]);
    }
  }
}
