/**
 Signals and slots: the slot list is shared with the calls that iterate over it and copied before a write
 whenever it is shared.
 */
module SignalSlot {
  import opened Wrappers

  type ListId = nat
  type SlotId = nat
  type CallId = nat

  /** The slot lists in memory, the one that the signal refers to, and for each call in progress the list
      that its shared pointer refers to. Slots are numbered in the order in which they are made. */
  datatype Registry = Registry(lists: map<ListId, seq<SlotId>>, slots: ListId, readers: map<CallId, ListId>, nextList: ListId)

  predicate ValidRegistry(r: Registry) {
    && r.slots in r.lists
    && (forall c :: c in r.readers ==> r.readers[c] in r.lists)
    && (forall l :: l in r.lists ==> l < r.nextList)
  }

  /** `shared_ptr::unique`: no call refers to the signal's list. */
  predicate Unique(r: Registry) {
    forall c :: c in r.readers ==> r.readers[c] != r.slots
  }

  function CopiedOnWrite(r: Registry): Registry
    requires ValidRegistry(r)
  {
    if Unique(r) then r
    else r.(lists := r.lists[r.nextList := r.lists[r.slots]], slots := r.nextList, nextList := r.nextList + 1)
  }

  function WithCurrent(r: Registry, list: seq<SlotId>): Registry {
    r.(lists := r.lists[r.slots := list])
  }

  function Current(r: Registry): seq<SlotId>
    requires ValidRegistry(r)
  {
    r.lists[r.slots]
  }

  /** The slots of a list that have not expired. */
  function Live(list: seq<SlotId>, alive: set<SlotId>): (live: seq<SlotId>)
    ensures forall slot :: slot in live <==> slot in list && slot in alive
  {
    if list == [] then []
    else Live(list[..|list| - 1], alive) + (if list[|list| - 1] in alive then [list[|list| - 1]] else [])
  }

  /** One round of the erasing loop in `clean`. */
  lemma EraseStep(all: seq<SlotId>, visited: nat, alive: set<SlotId>)
    requires visited < |all|
    ensures var list := Live(all[..visited], alive) + all[visited..];
            var it := |Live(all[..visited], alive)|;
            && list[it] == all[visited]
            && Live(all[..visited + 1], alive) + all[visited + 1..] == (if list[it] in alive then list else list[..it] + list[it + 1..])
            && |Live(all[..visited + 1], alive)| == (if list[it] in alive then it + 1 else it)
  {
    assert all[..visited + 1][..visited] == all[..visited];
  }

  /** The loop of `clean`: erases the expired slots one by one. */
  method EraseAll(all: seq<SlotId>, alive: set<SlotId>) returns (list: seq<SlotId>)
    ensures list == Live(all, alive)
  {
    ghost var visited := 0;
    var it := 0;
    list := all;
    assert all[..0] == [] && Live(all[..0], alive) == [];
    hide Live;
    while it < |list|
      invariant visited <= |all| && list == Live(all[..visited], alive) + all[visited..]
      invariant it == |Live(all[..visited], alive)|
      decreases |all| - visited
    {
      EraseStep(all, visited, alive);
      if list[it] !in alive {
        list := list[..it] + list[it + 1..];
      } else {
        it := it + 1;
      }
      visited := visited + 1;
    }
    assert visited == |all| && all[..visited] == all;
  }

  function Added(r: Registry, slot: SlotId): Registry
    requires ValidRegistry(r)
  {
    WithCurrent(CopiedOnWrite(r), Current(r) + [slot])
  }

  function Cleaned(r: Registry, alive: set<SlotId>): Registry
    requires ValidRegistry(r)
  {
    WithCurrent(CopiedOnWrite(r), Live(Current(r), alive))
  }

  /** A list without references is freed. */
  function Released(r: Registry, call: CallId): Registry
    requires ValidRegistry(r) && call in r.readers
  {
    var readers := r.readers - {call};
    var list := r.readers[call];
    r.(readers := readers,
       lists := if list != r.slots && list !in readers.Values then r.lists - {list} else r.lists)
  }

  /** The sections under the signal's lock. */
  class SignalImpl {
    var lists: map<ListId, seq<SlotId>>
    var slots: ListId
    var readers: map<CallId, ListId>
    var nextList: ListId

    constructor ()
      ensures View() == Registry(map[0 := []], 0, map[], 1) && ValidRegistry(View())
    {
      lists := map[0 := []];
      slots, readers, nextList := 0, map[], 1;
    }

    function View(): Registry
      reads this
    {
      Registry(lists, slots, readers, nextList)
    }

    method CopyOnWrite()
      requires ValidRegistry(View())
      modifies this
      ensures View() == CopiedOnWrite(old(View())) && ValidRegistry(View()) && Unique(View())
      ensures Current(View()) == old(Current(View()))
    {
      if exists c | c in readers :: readers[c] == slots {
        lists := lists[nextList := lists[slots]];
        slots := nextList;
        nextList := nextList + 1;
      }
    }

    /** What `clean` does to the list that the signal refers to. */
    method EraseExpired(alive: set<SlotId>)
      requires slots in lists
      modifies this`lists
      ensures lists == old(lists)[slots := Live(old(lists[slots]), alive)]
    {
      var list := EraseAll(lists[slots], alive);
      lists := lists[slots := list];
    }

    method Clean(alive: set<SlotId>)
      requires ValidRegistry(View())
      modifies this
      ensures View() == Cleaned(old(View()), alive) && ValidRegistry(View())
    {
      CopyOnWrite();
      EraseExpired(alive);
    }

    method Add(slot: SlotId)
      requires ValidRegistry(View())
      modifies this
      ensures View() == Added(old(View()), slot) && ValidRegistry(View())
    {
      CopyOnWrite();
      lists := lists[slots := lists[slots] + [slot]];
    }
  }

  // ----- Calls -----

  /** A call iterates over its snapshot; `held` is the slot that it keeps alive while running its callback.
      `visited` records, for each turn, the slot and whether its callback was run. */
  datatype Call = Call(snapshot: seq<SlotId>, position: nat, held: Option<SlotId>, visited: seq<(SlotId, bool)>)

  /** `handles` are the slots that their users still hold; `untied` the slots that have no tie object or
      whose tie object is alive. */
  datatype State = State(registry: Registry, nextSlot: SlotId, handles: set<SlotId>, untied: set<SlotId>, calls: map<CallId, Call>)

  datatype Action = Connect | DropHandle(slot: SlotId) | DropTie(slot: SlotId) | Clean(keep: set<SlotId>)
    | BeginCall(call: CallId) | BeginTurn(call: CallId) | EndTurn(call: CallId) | EndCall(call: CallId)

  const INIT := State(Registry(map[0 := []], 0, map[], 1), 0, {}, {}, map[])

  /** A slot is alive while its user or the callback of a call holds it. */
  function AliveSlots(s: State): set<SlotId> {
    s.handles + set c | c in s.calls && s.calls[c].held.Some? :: s.calls[c].held.value
  }

  /** Cleaning looks at each slot at a different moment: it may keep a slot that dies meanwhile. */
  predicate Enabled(s: State, a: Action) {
    ValidRegistry(s.registry) && s.registry.readers.Keys == s.calls.Keys &&
    match a
    case BeginCall(c) => c !in s.calls
    case BeginTurn(c) => c in s.calls && s.calls[c].held.None? && s.calls[c].position < |s.registry.lists[s.registry.readers[c]]|
    case EndTurn(c) => c in s.calls && s.calls[c].held.Some?
    case EndCall(c) => c in s.calls && s.calls[c].held.None? && s.calls[c].position >= |s.registry.lists[s.registry.readers[c]]|
    case Clean(keep) => AliveSlots(s) <= keep
    case _ => true
  }

  /** A turn reads the list in memory, not the snapshot; a callback runs while its slot is held. */
  function Do(s: State, a: Action): State
    requires Enabled(s, a)
  {
    match a
    case Connect =>
      s.(registry := Added(s.registry, s.nextSlot), nextSlot := s.nextSlot + 1,
         handles := s.handles + {s.nextSlot}, untied := s.untied + {s.nextSlot})
    case DropHandle(slot) => s.(handles := s.handles - {slot})
    case DropTie(slot) => s.(untied := s.untied - {slot})
    case Clean(keep) => s.(registry := Cleaned(s.registry, keep))
    case BeginCall(c) =>
      s.(registry := s.registry.(readers := s.registry.readers[c := s.registry.slots]),
         calls := s.calls[c := Call(Current(s.registry), 0, None, [])])
    case BeginTurn(c) =>
      var call := s.calls[c];
      var slot := s.registry.lists[s.registry.readers[c]][call.position];
      if slot in AliveSlots(s)
      then s.(calls := s.calls[c := call.(held := Some(slot), visited := call.visited + [(slot, slot in s.untied)])])
      else s.(calls := s.calls[c := call.(position := call.position + 1, visited := call.visited + [(slot, false)])])
    case EndTurn(c) =>
      s.(calls := s.calls[c := s.calls[c].(held := None, position := s.calls[c].position + 1)])
    case EndCall(c) => s.(registry := Released(s.registry, c), calls := s.calls - {c})
  }

  /** Connection order. */
  predicate Ascending(list: seq<SlotId>) {
    forall i, j :: 0 <= i < j < |list| ==> list[i] < list[j]
  }

  predicate GoodCall(s: State, c: CallId)
    requires c in s.calls && c in s.registry.readers && ValidRegistry(s.registry)
  {
    var call := s.calls[c];
    && s.registry.lists[s.registry.readers[c]] == call.snapshot && Ascending(call.snapshot)
    && |call.visited| == call.position + (if call.held.Some? then 1 else 0) <= |call.snapshot|
    && (forall i :: 0 <= i < |call.visited| ==> call.visited[i].0 == call.snapshot[i])
    && (call.held.Some? ==> call.held.value == call.snapshot[call.position])
  }

  predicate Inv(s: State) {
    && ValidRegistry(s.registry) && s.registry.readers.Keys == s.calls.Keys
    && GoodLists(s)
    && (forall x :: x in AliveSlots(s) ==> x in Current(s.registry))
    && (forall c :: c in s.calls ==> GoodCall(s, c))
  }

  /** The list of a call in progress is neither modified nor freed, whatever the step. */
  lemma ListsInUseStay(s: State, a: Action, c: CallId)
    requires Inv(s) && Enabled(s, a) && c in s.calls && c in Do(s, a).calls
    ensures var s' := Do(s, a);
            && s'.registry.readers[c] == s.registry.readers[c]
            && s.registry.readers[c] in s'.registry.lists
            && s'.registry.lists[s.registry.readers[c]] == s.registry.lists[s.registry.readers[c]]
  {
  }

  lemma {:induction false} LiveKeepsOrder(list: seq<SlotId>, alive: set<SlotId>)
    requires Ascending(list)
    ensures Ascending(Live(list, alive))
  {
    if list != [] {
      var front := list[..|list| - 1];
      LiveKeepsOrder(front, alive);
      forall k | 0 <= k < |Live(front, alive)| ensures Live(front, alive)[k] < list[|list| - 1] {
        assert Live(front, alive)[k] in front;
      }
    }
  }

  predicate GoodLists(s: State) {
    forall l :: l in s.registry.lists ==> Ascending(s.registry.lists[l]) && forall x :: x in s.registry.lists[l] ==> x < s.nextSlot
  }

  lemma StepKeepsRegistry(s: State, a: Action)
    requires Inv(s) && Enabled(s, a)
    ensures ValidRegistry(Do(s, a).registry) && Do(s, a).registry.readers.Keys == Do(s, a).calls.Keys
  {
  }

  lemma StepKeepsLists(s: State, a: Action)
    requires Inv(s) && Enabled(s, a)
    ensures GoodLists(Do(s, a))
  {
    var current := Current(s.registry);
    match a
    case Clean(keep) =>
      LiveKeepsOrder(current, keep);
    case Connect =>
      assert forall i :: 0 <= i < |current| ==> current[i] in current;
      assert Ascending(current + [s.nextSlot]);
    case _ =>
  }

  lemma StepKeepsAliveListed(s: State, a: Action, x: SlotId)
    requires Inv(s) && Enabled(s, a) && x in AliveSlots(Do(s, a)) && ValidRegistry(Do(s, a).registry)
    ensures x in Current(Do(s, a).registry)
  {
    var s' := Do(s, a);
    if x !in s'.handles {
      var c :| c in s'.calls && s'.calls[c].held == Some(x);
    }
    assert x in AliveSlots(s) || (a.Connect? && x == s.nextSlot);
  }

  lemma StepKeepsCalls(s: State, a: Action, c: CallId)
    requires Inv(s) && Enabled(s, a) && c in Do(s, a).calls
    requires ValidRegistry(Do(s, a).registry) && c in Do(s, a).registry.readers
    ensures GoodCall(Do(s, a), c)
  {
    if c in s.calls {
      ListsInUseStay(s, a, c);
      assert GoodCall(s, c);
      hide Inv, Ascending, Added, Cleaned, Released;
    }
  }

  lemma StepKeepsInv(s: State, a: Action)
    requires Inv(s) && Enabled(s, a)
    ensures Inv(Do(s, a))
  {
    StepKeepsRegistry(s, a);
    StepKeepsLists(s, a);
    forall x | x in AliveSlots(Do(s, a)) ensures x in Current(Do(s, a).registry) {
      StepKeepsAliveListed(s, a, x);
    }
    forall c | c in Do(s, a).calls ensures GoodCall(Do(s, a), c) {
      StepKeepsCalls(s, a, c);
    }
  }

  // ----- Every interleaving -----

  predicate Legal(s: State, run: seq<Action>)
    decreases |run|
  {
    run == [] || (Enabled(s, run[0]) && Legal(Do(s, run[0]), run[1..]))
  }

  function After(s: State, run: seq<Action>): State
    requires Legal(s, run)
    decreases |run|
  {
    if run == [] then s else After(Do(s, run[0]), run[1..])
  }

  lemma {:induction false} RunKeepsInv(s: State, run: seq<Action>)
    requires Inv(s) && Legal(s, run)
    ensures Inv(After(s, run))
    decreases |run|
  {
    if run != [] {
      StepKeepsInv(s, run[0]);
      RunKeepsInv(Do(s, run[0]), run[1..]);
    }
  }

  /** On every interleaving, a call takes its turns with the slots of its snapshot, in connection order;
      when it can end it has taken all of them. */
  lemma CallsVisitTheirSnapshot(run: seq<Action>, c: CallId)
    requires Legal(INIT, run) && c in After(INIT, run).calls
    ensures var s := After(INIT, run);
            var call := s.calls[c];
            && Ascending(call.snapshot) && |call.visited| <= |call.snapshot|
            && (forall i :: 0 <= i < |call.visited| ==> call.visited[i].0 == call.snapshot[i])
            && (Enabled(s, EndCall(c)) ==> |call.visited| == |call.snapshot|)
  {
    RunKeepsInv(INIT, run);
    assert GoodCall(After(INIT, run), c);
  }

  /** A turn runs the callback exactly when the slot and its tie object are alive at that moment. */
  lemma TurnsRunLiveSlots(run: seq<Action>, c: CallId)
    requires Legal(INIT, run) && Enabled(After(INIT, run), BeginTurn(c))
    ensures var s := After(INIT, run);
            s.calls[c].position < |s.calls[c].snapshot|
    ensures var s := After(INIT, run);
            var call, slot := Do(s, BeginTurn(c)).calls[c], s.calls[c].snapshot[s.calls[c].position];
            && call.visited == s.calls[c].visited + [(slot, slot in AliveSlots(s) && slot in s.untied)]
            && (call.held == Some(slot) <==> slot in AliveSlots(s))
            && (slot in AliveSlots(s) ==> slot in AliveSlots(Do(s, BeginTurn(c))))
  {
    RunKeepsInv(INIT, run);
    var s := After(INIT, run);
    assert GoodCall(s, c);
    assert s.calls[c].position < |s.calls[c].snapshot|;
    var s' := Do(s, BeginTurn(c));
    var slot := s.calls[c].snapshot[s.calls[c].position];
    assert slot in AliveSlots(s) ==> s'.calls[c].held == Some(slot);
  }

  /** A call that begins has every live slot in its snapshot. */
  lemma NewCallsSeeLiveSlots(run: seq<Action>, c: CallId, slot: SlotId)
    requires Legal(INIT, run) && Enabled(After(INIT, run), BeginCall(c)) && slot in AliveSlots(After(INIT, run))
    ensures slot in Do(After(INIT, run), BeginCall(c)).calls[c].snapshot
  {
    RunKeepsInv(INIT, run);
  }

  // ----- Handles -----

  lemma StepOnHandles(s: State, a: Action, slot: SlotId)
    requires Enabled(s, a) && slot < s.nextSlot
    ensures var s' := Do(s, a);
            && slot < s'.nextSlot
            && (slot in s'.handles <==> slot in s.handles && a != DropHandle(slot))
            && (slot in s'.untied <==> slot in s.untied && a != DropTie(slot))
  {
    hide Added, Cleaned, Released, AliveSlots;
  }

  /** Over any run, a slot that has been made keeps its handle if and only if nobody drops it, and its tie object
      lives on if and only if it does not die. */
  lemma {:induction false} HandlesExactly(s: State, run: seq<Action>, slot: SlotId)
    requires Legal(s, run) && slot < s.nextSlot
    ensures var s' := After(s, run);
            && (slot in s'.handles <==> slot in s.handles && DropHandle(slot) !in run)
            && (slot in s'.untied <==> slot in s.untied && DropTie(slot) !in run)
    decreases |run|
  {
    hide Do, Enabled;
    if run != [] {
      StepOnHandles(s, run[0], slot);
      HandlesExactly(Do(s, run[0]), run[1..], slot);
      assert run == [run[0]] + run[1..];
    }
  }

  /** Connecting makes a new slot, which its user holds, at the end of the list. */
  lemma ConnectHandsOutANewSlot(s: State)
    requires Inv(s)
    ensures var s' := Do(s, Connect);
            && s.nextSlot !in s.handles && s'.handles == s.handles + {s.nextSlot} && s.nextSlot in s'.untied
            && s'.nextSlot == s.nextSlot + 1 && ValidRegistry(s'.registry)
            && Current(s'.registry) == Current(s.registry) + [s.nextSlot]
  {
    HandlesAreListed(s);
  }

  /** A slot stays connected for the lifetime of its handle: until somebody drops it, whatever else happens. */
  lemma ConnectedUntilDropped(run: seq<Action>, later: seq<Action>)
    requires Legal(INIT, run) && Enabled(After(INIT, run), Connect) && Legal(Do(After(INIT, run), Connect), later)
    requires DropHandle(After(INIT, run).nextSlot) !in later
    ensures var slot, s := After(INIT, run).nextSlot, After(Do(After(INIT, run), Connect), later);
            slot in s.handles && ValidRegistry(s.registry) && slot in Current(s.registry)
  {
    hide Legal, After, Do, Enabled;
    var s := After(INIT, run);
    RunKeepsInv(INIT, run);
    StepKeepsInv(s, Connect);
    ConnectHandsOutANewSlot(s);
    HandlesExactly(Do(s, Connect), later, s.nextSlot);
    RunKeepsInv(Do(s, Connect), later);
    HandlesAreListed(After(Do(s, Connect), later));
  }

  lemma HandlesAreListed(s: State)
    requires Inv(s)
    ensures ValidRegistry(s.registry) && forall slot :: slot in s.handles ==> slot in Current(s.registry)
  {
    assert forall slot :: slot in s.handles ==> slot in AliveSlots(s);
  }

  /** Cleaning drops exactly the slots that have expired, and keeps the others in order. */
  lemma CleaningDropsTheExpired(s: State, keep: set<SlotId>)
    requires Inv(s) && Enabled(s, Clean(keep))
    ensures var r := Do(s, Clean(keep)).registry;
            && ValidRegistry(r) && Ascending(Current(r))
            && forall slot :: slot in Current(r) <==> slot in Current(s.registry) && slot in keep
  {
    LiveKeepsOrder(Current(s.registry), keep);
  }

  // ----- Slots and calls -----

  /** Every turn that the call has taken with this slot has run its callback. */
  predicate RanWhenever(s: State, c: CallId, slot: SlotId) {
    c in s.calls && forall i :: 0 <= i < |s.calls[c].visited| && s.calls[c].visited[i].0 == slot ==> s.calls[c].visited[i].1
  }

  lemma StepKeepsRunning(s: State, a: Action, c: CallId, slot: SlotId)
    requires Enabled(s, a) && slot in s.handles && slot in s.untied && RanWhenever(s, c, slot) && a != EndCall(c)
    ensures RanWhenever(Do(s, a), c, slot)
    ensures Do(s, a).calls[c].snapshot == s.calls[c].snapshot
  {
    assert slot in AliveSlots(s);
    hide Added, Cleaned, Released;
  }

  lemma {:induction false} RunKeepsRunning(s: State, run: seq<Action>, c: CallId, slot: SlotId)
    requires Legal(s, run) && slot < s.nextSlot && slot in s.handles && slot in s.untied && RanWhenever(s, c, slot)
    requires EndCall(c) !in run && DropHandle(slot) !in run && DropTie(slot) !in run
    ensures RanWhenever(After(s, run), c, slot)
    ensures After(s, run).calls[c].snapshot == s.calls[c].snapshot
    decreases |run|
  {
    hide Do, Enabled, RanWhenever;
    if run != [] {
      assert run[0] in run && forall a :: a in run[1..] ==> a in run;
      StepKeepsRunning(s, run[0], c, slot);
      StepOnHandles(s, run[0], slot);
      RunKeepsRunning(Do(s, run[0]), run[1..], c, slot);
    }
  }

  /** A call runs the callback of every slot that stays connected, with its tie object, from the moment when the call
      takes its snapshot until it ends, and exactly once, whatever the other threads and callbacks do. */
  lemma ConnectedSlotsRunOnce(run: seq<Action>, c: CallId, during: seq<Action>, slot: SlotId)
    requires Legal(INIT, run) && Enabled(After(INIT, run), BeginCall(c))
    requires slot in After(INIT, run).handles && slot in After(INIT, run).untied
    requires Legal(Do(After(INIT, run), BeginCall(c)), during)
    requires EndCall(c) !in during && DropHandle(slot) !in during && DropTie(slot) !in during
    requires Enabled(After(Do(After(INIT, run), BeginCall(c)), during), EndCall(c))
    ensures var visited := After(Do(After(INIT, run), BeginCall(c)), during).calls[c].visited;
            exists i :: 0 <= i < |visited| && visited[i] == (slot, true) && forall j :: 0 <= j < |visited| && j != i ==> visited[j].0 != slot
  {
    hide Legal, After, Do;
    var s := After(INIT, run);
    RunKeepsInv(INIT, run);
    BeginsWithEverySlot(s, c, slot);
    var begun := Do(s, BeginCall(c));
    StepKeepsInv(s, BeginCall(c));
    RunKeepsInv(begun, during);
    RunKeepsRunning(begun, during, c, slot);
    EndsWithEverySlot(After(begun, during), c, slot);
  }

  lemma BeginsWithEverySlot(s: State, c: CallId, slot: SlotId)
    requires Inv(s) && Enabled(s, BeginCall(c)) && slot in s.handles && slot in s.untied
    ensures var s' := Do(s, BeginCall(c));
            slot < s'.nextSlot && slot in s'.handles && slot in s'.untied && RanWhenever(s', c, slot) && slot in s'.calls[c].snapshot
  {
    HandlesAreListed(s);
  }

  lemma EndsWithEverySlot(s: State, c: CallId, slot: SlotId)
    requires Inv(s) && Enabled(s, EndCall(c)) && RanWhenever(s, c, slot) && slot in s.calls[c].snapshot
    ensures var visited := s.calls[c].visited;
            exists i :: 0 <= i < |visited| && visited[i] == (slot, true) && forall j :: 0 <= j < |visited| && j != i ==> visited[j].0 != slot
  {
    assert GoodCall(s, c);
    var call := s.calls[c];
    hide Inv, GoodCall;
    assert |call.visited| == |call.snapshot|;
    var i :| 0 <= i < |call.snapshot| && call.snapshot[i] == slot;
    assert call.visited[i].0 == slot;
    forall j | 0 <= j < |call.visited| && j != i ensures call.visited[j].0 != slot {
      assert call.visited[j].0 == call.snapshot[j];
    }
  }

  // ----- Memory -----

  /** Every list in memory is the signal's or in use by a call. */
  predicate NoneLeaked(r: Registry) {
    forall l :: l in r.lists ==> l == r.slots || l in r.readers.Values
  }

  lemma StepLeaksNone(s: State, a: Action)
    requires Inv(s) && NoneLeaked(s.registry) && Enabled(s, a)
    ensures NoneLeaked(Do(s, a).registry)
  {
    hide Inv, Live, AliveSlots, Released, NoneLeaked;
    match a
    case BeginCall(c) => BorrowingLeaksNone(s.registry, c);
    case EndCall(c) => ReleasingLeaksNone(s.registry, c);
    case Clean(keep) => WritingLeaksNone(s.registry, Live(Current(s.registry), keep));
    case Connect => WritingLeaksNone(s.registry, Current(s.registry) + [s.nextSlot]);
    case _ =>
  }

  lemma WritingLeaksNone(r: Registry, list: seq<SlotId>)
    requires ValidRegistry(r) && NoneLeaked(r)
    ensures NoneLeaked(WithCurrent(CopiedOnWrite(r), list))
  {
  }

  lemma BorrowingLeaksNone(r: Registry, c: CallId)
    requires ValidRegistry(r) && NoneLeaked(r) && c !in r.readers
    ensures NoneLeaked(r.(readers := r.readers[c := r.slots]))
  {
    forall l | l in r.readers.Values ensures l in r.readers[c := r.slots].Values {
      var d :| d in r.readers && r.readers[d] == l;
      assert r.readers[c := r.slots][d] == l;
    }
  }

  lemma ReleasingLeaksNone(r: Registry, c: CallId)
    requires ValidRegistry(r) && NoneLeaked(r) && c in r.readers
    ensures NoneLeaked(Released(r, c))
  {
    forall l | l in r.readers.Values && l != r.readers[c] ensures l in (r.readers - {c}).Values {
      var d :| d in r.readers && r.readers[d] == l;
      assert (r.readers - {c})[d] == l;
    }
  }

  /** On every interleaving, a list is freed with its last reference. */
  lemma {:induction false} RunLeaksNone(s: State, run: seq<Action>)
    requires Inv(s) && NoneLeaked(s.registry) && Legal(s, run)
    ensures NoneLeaked(After(s, run).registry)
    decreases |run|
  {
    hide Do, Enabled, Inv, NoneLeaked;
    if run != [] {
      StepLeaksNone(s, run[0]);
      StepKeepsInv(s, run[0]);
      RunLeaksNone(Do(s, run[0]), run[1..]);
    }
  }

  lemma NoListLeaks(run: seq<Action>)
    requires Legal(INIT, run)
    ensures NoneLeaked(After(INIT, run).registry)
  {
    RunLeaksNone(INIT, run);
  }
}
