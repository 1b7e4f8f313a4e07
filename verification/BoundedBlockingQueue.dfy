/**
 The bounded blocking queue: producers and consumers that share one lock and wait on two conditions,
 as a step relation over the threads' critical sections.
 */
module BoundedBlockingQueue {
  import opened Wrappers

  type Tid = nat

  /** Where a thread is. `Ready` threads are about to take the lock for the first time in their call and
      may overtake woken ones; `Woken` threads have left the wait and still have to take the lock again. */
  datatype Thread<T> =
    | Outside
    | ReadyToPut(x: T) | WaitingNotFull(x: T) | WokenNotFull(x: T)
    | ReadyToTake | WaitingNotEmpty | WokenNotEmpty

  /** `put` and `taken` record the values in the order in which they entered and left the queue. */
  datatype State<T> = State(capacity: nat, queue: seq<T>, threads: map<Tid, Thread<T>>, put: seq<T>, taken: seq<T>)

  /** `TryPut` and `TryTake` run from taking the lock to releasing it, in the return or in the wait; `notified`
      is the thread that the notification reaches. `Wake` is a wakeup without a notification. */
  datatype Action<T> =
    | BeginPut(t: Tid, x: T) | BeginTake(t: Tid)
    | TryPut(t: Tid, notified: Option<Tid>) | TryTake(t: Tid, notified: Option<Tid>)
    | Wake(t: Tid)

  function Init<T>(capacity: nat, tids: set<Tid>): State<T> {
    State(capacity, [], map t | t in tids :: Outside, [], [])
  }

  /** The kinds of waiting that the signals are about. */
  datatype Sleep = ForValue | WokenForValue | ForPlace | WokenForPlace | NoSleep

  function SleepOf<T>(thread: Thread<T>): Sleep {
    match thread
    case WaitingNotEmpty => ForValue
    case WokenNotEmpty => WokenForValue
    case WaitingNotFull(_) => ForPlace
    case WokenNotFull(_) => WokenForPlace
    case _ => NoSleep
  }

  function Sleepers<T>(threads: map<Tid, Thread<T>>, sleep: Sleep): set<Tid> {
    set t | t in threads && SleepOf(threads[t]) == sleep
  }

  /** A notification reaches a waiting thread if there is one. */
  predicate MayNotify(waiting: set<Tid>, notified: Option<Tid>) {
    match notified
    case None => waiting == {}
    case Some(t) => t in waiting
  }

  predicate Enabled<T>(s: State<T>, a: Action<T>) {
    a.t in s.threads &&
    var thread := s.threads[a.t];
    match a
    case BeginPut(_, _) => thread.Outside?
    case BeginTake(_) => thread.Outside?
    case TryPut(_, notified) =>
      (thread.ReadyToPut? || thread.WokenNotFull?) && (|s.queue| != s.capacity ==> MayNotify(Sleepers(s.threads, ForValue), notified))
    case TryTake(_, notified) =>
      (thread.ReadyToTake? || thread.WokenNotEmpty?) && (s.queue != [] ==> MayNotify(Sleepers(s.threads, ForPlace), notified))
    case Wake(_) => thread.WaitingNotFull? || thread.WaitingNotEmpty?
  }

  /** A wait ends. */
  function Awake<T>(thread: Thread<T>): Thread<T> {
    match thread
    case WaitingNotFull(x) => WokenNotFull(x)
    case WaitingNotEmpty => WokenNotEmpty
    case _ => thread
  }

  function Notify<T>(threads: map<Tid, Thread<T>>, notified: Option<Tid>): map<Tid, Thread<T>> {
    match notified
    case Some(t) => if t in threads then threads[t := Awake(threads[t])] else threads
    case None => threads
  }

  /** What the two critical sections do to the queue: nothing, and then the thread waits, if it is full or
      empty. */
  function AfterPut<T>(capacity: nat, queue: seq<T>, x: T): seq<T> {
    if |queue| == capacity then queue else queue + [x]
  }

  function AfterTake<T>(queue: seq<T>): seq<T> {
    if queue == [] then queue else queue[1..]
  }

  function Do<T>(s: State<T>, a: Action<T>): State<T>
    requires Enabled(s, a)
  {
    match a
    case BeginPut(t, x) => s.(threads := s.threads[t := ReadyToPut(x)])
    case BeginTake(t) => s.(threads := s.threads[t := ReadyToTake])
    case TryPut(t, notified) =>
      var x := s.threads[t].x;
      if |s.queue| == s.capacity then s.(threads := s.threads[t := WaitingNotFull(x)])
      else s.(queue := AfterPut(s.capacity, s.queue, x), put := s.put + [x], threads := Notify(s.threads[t := Outside], notified))
    case TryTake(t, notified) =>
      if s.queue == [] then s.(threads := s.threads[t := WaitingNotEmpty])
      else s.(queue := AfterTake(s.queue), taken := s.taken + [s.queue[0]], threads := Notify(s.threads[t := Outside], notified))
    case Wake(t) => s.(threads := s.threads[t := Awake(s.threads[t])])
  }

  /** The queue under its lock. A `put` or a `take` is one or more of these sections, with a wait after each
      but the last. */
  class LockedQueue<T> {
    const capacity: nat
    var queue: seq<T>

    ghost predicate Valid()
      reads this
    {
      |queue| <= capacity
    }

    constructor (maxSize: nat)
      ensures Valid() && capacity == maxSize && queue == []
    {
      capacity := maxSize;
      queue := [];
    }

    method PutSection(x: T) returns (put: bool)
      requires Valid()
      modifies this
      ensures Valid()
      ensures queue == AfterPut(capacity, old(queue), x)
      ensures put <==> |old(queue)| < capacity
      ensures queue == old(queue) + (if put then [x] else [])
    {
      put := |queue| != capacity;
      if put {
        queue := queue + [x];
      }
    }

    method TakeSection() returns (front: Option<T>)
      requires Valid()
      modifies this
      ensures Valid()
      ensures queue == AfterTake(old(queue))
      ensures front.Some? <==> old(queue) != []
      ensures old(queue) == (if front.Some? then [front.value] else []) + queue
    {
      if queue == [] {
        front := None;
      } else {
        front := Some(queue[0]);
        queue := queue[1..];
      }
    }
  }

  /** Bounded, first in first out, and no signal is missing: while a consumer waits, every queued value
      has a woken consumer coming for it; while a producer waits, so does every free place. */
  predicate Inv<T(==)>(s: State<T>) {
    && |s.queue| <= s.capacity
    && s.put == s.taken + s.queue
    && (|Sleepers(s.threads, ForValue)| > 0 ==> |s.queue| <= |Sleepers(s.threads, WokenForValue)|)
    && (|Sleepers(s.threads, ForPlace)| > 0 ==> s.capacity - |s.queue| <= |Sleepers(s.threads, WokenForPlace)|)
  }

  function One(b: bool): nat {
    if b then 1 else 0
  }

  /** A thread that moves changes one count up and one count down. */
  lemma ThreadMoves<T>(threads: map<Tid, Thread<T>>, t: Tid, thread: Thread<T>, sleep: Sleep)
    requires t in threads
    ensures |Sleepers(threads[t := thread], sleep)|
            == |Sleepers(threads, sleep)| - One(SleepOf(threads[t]) == sleep) + One(SleepOf(thread) == sleep)
  {
    hide SleepOf;
    var before, after := Sleepers(threads, sleep), Sleepers(threads[t := thread], sleep);
    assert before - {t} == after - {t};
    CountWithout(before, t);
    CountWithout(after, t);
  }

  lemma CountWithout(members: set<Tid>, t: Tid)
    ensures |members| == |members - {t}| + One(t in members)
  {
    if t !in members {
      assert members - {t} == members;
    }
  }

  lemma ThreadMovesAll<T>(threads: map<Tid, Thread<T>>, t: Tid, thread: Thread<T>)
    requires t in threads
    ensures forall sleep ::
              |Sleepers(threads[t := thread], sleep)|
              == |Sleepers(threads, sleep)| - One(SleepOf(threads[t]) == sleep) + One(SleepOf(thread) == sleep)
  {
    forall sleep {
      ThreadMoves(threads, t, thread, sleep);
    }
  }

  lemma NobodySleeps<T>(threads: map<Tid, Thread<T>>, sleep: Sleep)
    requires Sleepers(threads, sleep) == {}
    ensures |Sleepers(threads, sleep)| == 0
  {
  }

  lemma PutKeepsInv<T>(s: State<T>, t: Tid, notified: Option<Tid>)
    requires Inv(s) && Enabled(s, TryPut(t, notified))
    ensures Inv(Do(s, TryPut(t, notified)))
  {
    if |s.queue| == s.capacity {
      ThreadMovesAll(s.threads, t, WaitingNotFull(s.threads[t].x));
    } else {
      var left := s.threads[t := Outside];
      ThreadMovesAll(s.threads, t, Outside);
      match notified
      case None =>
        NobodySleeps(s.threads, ForValue);
      case Some(w) =>
        assert SleepOf(s.threads[w]) == ForValue;
        ThreadMovesAll(left, w, Awake(left[w]));
    }
  }

  lemma TakeKeepsInv<T>(s: State<T>, t: Tid, notified: Option<Tid>)
    requires Inv(s) && Enabled(s, TryTake(t, notified))
    ensures Inv(Do(s, TryTake(t, notified)))
  {
    if s.queue == [] {
      ThreadMovesAll(s.threads, t, WaitingNotEmpty);
    } else {
      var left := s.threads[t := Outside];
      ThreadMovesAll(s.threads, t, Outside);
      match notified
      case None =>
        NobodySleeps(s.threads, ForPlace);
      case Some(w) =>
        assert SleepOf(s.threads[w]) == ForPlace;
        ThreadMovesAll(left, w, Awake(left[w]));
    }
  }

  lemma StepKeepsInv<T>(s: State<T>, a: Action<T>)
    requires Inv(s) && Enabled(s, a)
    ensures Inv(Do(s, a))
  {
    match a
    case TryPut(t, notified) => PutKeepsInv(s, t, notified);
    case TryTake(t, notified) => TakeKeepsInv(s, t, notified);
    case BeginPut(t, x) => ThreadMovesAll(s.threads, t, ReadyToPut(x));
    case BeginTake(t) => ThreadMovesAll(s.threads, t, ReadyToTake);
    case Wake(t) => ThreadMovesAll(s.threads, t, Awake(s.threads[t]));
  }

  predicate Waits<T>(thread: Thread<T>) {
    thread.WaitingNotEmpty? || thread.WaitingNotFull?
  }

  /** The wait of a thread ends at a wakeup of its own, or at a put or a take whose notification reaches it, and at
      nothing else; then the thread tries again. */
  lemma WaitEndsExactly<T>(s: State<T>, a: Action<T>, t: Tid)
    requires Enabled(s, a) && t in s.threads && Waits(s.threads[t])
    ensures t in Do(s, a).threads
    ensures !Waits(Do(s, a).threads[t]) <==>
            a == Wake(t) || (a.TryPut? && |s.queue| != s.capacity && a.notified == Some(t))
            || (a.TryTake? && s.queue != [] && a.notified == Some(t))
    ensures !Waits(Do(s, a).threads[t]) ==>
              Do(s, a).threads[t] == if s.threads[t].WaitingNotEmpty? then WokenNotEmpty else WokenNotFull(s.threads[t].x)
  {
    hide Sleepers;
  }

  /** A thread waits after its try if and only if it found the queue full, or empty. */
  lemma WaitsExactly<T>(s: State<T>, a: Action<T>)
    requires Enabled(s, a) && (a.TryPut? || a.TryTake?)
    ensures a.t in Do(s, a).threads
    ensures Waits(Do(s, a).threads[a.t]) <==> if a.TryPut? then |s.queue| == s.capacity else s.queue == []
  {
  }

  // ----- Every run -----

  predicate Legal<T>(s: State<T>, run: seq<Action<T>>)
    decreases |run|
  {
    run == [] || (Enabled(s, run[0]) && Legal(Do(s, run[0]), run[1..]))
  }

  function After<T>(s: State<T>, run: seq<Action<T>>): State<T>
    requires Legal(s, run)
    decreases |run|
  {
    if run == [] then s else After(Do(s, run[0]), run[1..])
  }

  lemma {:induction false} RunKeepsInv<T>(s: State<T>, run: seq<Action<T>>)
    requires Inv(s) && Legal(s, run)
    ensures Inv(After(s, run)) && After(s, run).capacity == s.capacity
    decreases |run|
  {
    if run != [] {
      StepKeepsInv(s, run[0]);
      RunKeepsInv(Do(s, run[0]), run[1..]);
    }
  }

  /** Values leave in the order in which they entered, never more than the capacity behind. */
  lemma FirstInFirstOut<T>(capacity: nat, tids: set<Tid>, run: seq<Action<T>>)
    requires Legal(Init(capacity, tids), run)
    ensures var s := After(Init(capacity, tids), run);
            s.taken <= s.put && |s.put| - |s.taken| <= capacity
  {
    InitInv<T>(capacity, tids);
    RunKeepsInv(Init<T>(capacity, tids), run);
  }

  lemma InitInv<T>(capacity: nat, tids: set<Tid>)
    ensures Inv<T>(Init(capacity, tids))
  {
    assert Sleepers<T>(Init(capacity, tids).threads, ForValue) == {} && Sleepers<T>(Init(capacity, tids).threads, ForPlace) == {};
  }

  /** No signal is missing on any run: while a consumer sleeps, every queued value has a woken consumer
      coming for it, and while a producer sleeps, so does every free place. */
  lemma NoSignalIsMissing<T>(capacity: nat, tids: set<Tid>, run: seq<Action<T>>)
    requires Legal(Init(capacity, tids), run)
    ensures var s := After(Init(capacity, tids), run);
            && (Sleepers(s.threads, ForValue) != {} ==> |s.queue| <= |Sleepers(s.threads, WokenForValue)|)
            && (Sleepers(s.threads, ForPlace) != {} ==> capacity - |s.queue| <= |Sleepers(s.threads, WokenForPlace)|)
  {
    InitInv<T>(capacity, tids);
    RunKeepsInv(Init<T>(capacity, tids), run);
    hide Sleepers;
  }

  /** When no woken thread is left, sleeping has a reason: consumers sleep only on an empty queue and
      producers only on a full one, so they never sleep at the same time. */
  lemma SleepersHaveAReason<T>(capacity: nat, tids: set<Tid>, run: seq<Action<T>>)
    requires Legal(Init(capacity, tids), run)
    ensures var s := After(Init(capacity, tids), run);
            && (Sleepers(s.threads, WokenForValue) == {} && Sleepers(s.threads, ForValue) != {} ==> s.queue == [])
            && (Sleepers(s.threads, WokenForPlace) == {} && Sleepers(s.threads, ForPlace) != {} ==> |s.queue| == capacity)
            && (Sleepers(s.threads, WokenForValue) == {} == Sleepers(s.threads, WokenForPlace) && capacity > 0 ==>
                  Sleepers(s.threads, ForValue) == {} || Sleepers(s.threads, ForPlace) == {})
  {
    InitInv<T>(capacity, tids);
    RunKeepsInv(Init<T>(capacity, tids), run);
    hide Sleepers;
  }

  // ----- The same run without waiting -----

  /** A queue whose operations happen at once: the puts and takes that have been called and not returned, all values
      that have entered, in order, and how many of them have left. */
  datatype Ledger<T> = Ledger(puts: map<Tid, T>, takes: set<Tid>, entered: seq<T>, left: nat)

  /** A call is entered in the ledger when it begins, and done at the first of its tries that finds a free place or a
      value. */
  function Booked<T>(capacity: nat, l: Ledger<T>, run: seq<Action<T>>): Ledger<T>
    decreases |run|
  {
    if run == [] then l else Booked(capacity, BookedOnce(capacity, l, run[0]), run[1..])
  }

  function BookedOnce<T>(capacity: nat, l: Ledger<T>, a: Action<T>): Ledger<T> {
    match a
    case BeginPut(t, x) => l.(puts := l.puts[t := x])
    case BeginTake(t) => l.(takes := l.takes + {t})
    case TryPut(t, _) =>
      if t in l.puts && |l.entered| - l.left < capacity then l.(puts := l.puts - {t}, entered := l.entered + [l.puts[t]]) else l
    case TryTake(t, _) =>
      if t in l.takes && l.left < |l.entered| then l.(takes := l.takes - {t}, left := l.left + 1) else l
    case Wake(_) => l
  }

  /** The value of a thread that is inside `put`, and whether a thread is inside `take`. */
  function Putting<T>(thread: Thread<T>): Option<T> {
    match thread
    case ReadyToPut(x) => Some(x)
    case WaitingNotFull(x) => Some(x)
    case WokenNotFull(x) => Some(x)
    case _ => None
  }

  predicate Taking<T>(thread: Thread<T>) {
    thread.ReadyToTake? || thread.WaitingNotEmpty? || thread.WokenNotEmpty?
  }

  /** The threads inside `put`, each with its value, and inside `take` are those with an open call. */
  predicate SameCalls<T(==)>(threads: map<Tid, Thread<T>>, puts: map<Tid, T>, takes: set<Tid>) {
    && puts.Keys <= threads.Keys && takes <= threads.Keys
    && forall t :: t in threads ==>
         Putting(threads[t]) == (if t in puts then Some(puts[t]) else None) && (Taking(threads[t]) <==> t in takes)
  }

  /** The queue has what has entered and not left. */
  predicate SameValues<T(==)>(s: State<T>, entered: seq<T>, left: nat) {
    && left <= |entered| && |s.queue| <= s.capacity
    && s.put == entered && s.taken == entered[..left] && s.queue == entered[left..]
  }

  predicate Agrees<T(==)>(s: State<T>, l: Ledger<T>) {
    SameCalls(s.threads, l.puts, l.takes) && SameValues(s, l.entered, l.left)
  }

  lemma NotifyKeepsCalls<T>(threads: map<Tid, Thread<T>>, puts: map<Tid, T>, takes: set<Tid>, notified: Option<Tid>)
    requires SameCalls(threads, puts, takes)
    ensures SameCalls(Notify(threads, notified), puts, takes)
  {
  }

  lemma StepKeepsSameCalls<T>(s: State<T>, l: Ledger<T>, a: Action<T>)
    requires SameCalls(s.threads, l.puts, l.takes) && SameValues(s, l.entered, l.left) && Enabled(s, a)
    ensures var l' := BookedOnce(s.capacity, l, a);
            SameCalls(Do(s, a).threads, l'.puts, l'.takes)
  {
    hide Sleepers, AfterPut, AfterTake, Notify;
    match a
    case TryPut(t, notified) =>
      if |s.queue| != s.capacity {
        NotifyKeepsCalls(s.threads[t := Outside], l.puts - {t}, l.takes, notified);
      }
    case TryTake(t, notified) =>
      if s.queue != [] {
        NotifyKeepsCalls(s.threads[t := Outside], l.puts, l.takes - {t}, notified);
      }
    case _ =>
  }

  lemma StepKeepsSameValues<T>(s: State<T>, l: Ledger<T>, a: Action<T>)
    requires SameCalls(s.threads, l.puts, l.takes) && SameValues(s, l.entered, l.left) && Enabled(s, a)
    ensures var l' := BookedOnce(s.capacity, l, a);
            SameValues(Do(s, a), l'.entered, l'.left) && Do(s, a).capacity == s.capacity
  {
    hide Sleepers, Notify;
    assert Putting(s.threads[a.t]).Some? <==> a.t in l.puts;
  }

  lemma StepAgrees<T>(s: State<T>, l: Ledger<T>, a: Action<T>)
    requires Agrees(s, l) && Enabled(s, a)
    ensures Agrees(Do(s, a), BookedOnce(s.capacity, l, a)) && Do(s, a).capacity == s.capacity
  {
    hide SameCalls, SameValues, Do, Enabled, BookedOnce;
    StepKeepsSameCalls(s, l, a);
    StepKeepsSameValues(s, l, a);
  }

  lemma {:induction false} RunAgrees<T>(s: State<T>, l: Ledger<T>, run: seq<Action<T>>)
    requires Agrees(s, l) && Legal(s, run)
    ensures Agrees(After(s, run), Booked(s.capacity, l, run))
    decreases |run|
  {
    hide Do, Enabled, BookedOnce, Agrees;
    if run != [] {
      StepAgrees(s, l, run[0]);
      RunAgrees(Do(s, run[0]), BookedOnce(s.capacity, l, run[0]), run[1..]);
    }
  }

  /** On every run, the queue is one whose operations happen at once: each put that has returned has entered the value
      that it was called with, once, at one of its own tries, and each take that has returned has taken one value. */
  lemma OperationsHappenAtOnce<T>(capacity: nat, tids: set<Tid>, run: seq<Action<T>>)
    requires Legal(Init(capacity, tids), run)
    ensures Agrees(After(Init(capacity, tids), run), Booked(capacity, Ledger(map[], {}, [], 0), run))
  {
    RunAgrees(Init<T>(capacity, tids), Ledger(map[], {}, [], 0), run);
  }
}
