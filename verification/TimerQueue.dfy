/**
 The timer queue: two indexes of the same timers, a batch of expired timers outside both while their
 callbacks run, and one timerfd that must go off early enough for all of them.

 Times are integer microseconds of one clock. A timer is a heap object at an address that the allocator may
 use again once the object is deleted; its sequence number is never used again.
 */
module TimerQueue {
  const UINTPTR_MAX := 0xFFFF_FFFF_FFFF_FFFF
  const MICRO_SECONDS_PER_SECOND := 1000 * 1000

  datatype Timer = Timer(expiration: int, interval: real, repeat: bool, sequence: nat)

  /** An element of `timers_`, which is ordered by time and then by address. */
  datatype Entry = Entry(when: int, addr: nat)

  /** What callers hold, and an element of `activeTimers_` and `cancelingTimers_`. */
  datatype TimerId = TimerId(addr: nat, sequence: nat)

  /** `Armed`: goes off at the deadline. `Fired`: went off, and is readable until it is read or set again. */
  datatype Timerfd = Disarmed | Armed(deadline: int) | Fired(deadline: int)

  // ----- Ordered sets of entries -----

  predicate Less(a: Entry, b: Entry) {
    a.when < b.when || (a.when == b.when && a.addr < b.addr)
  }

  predicate Sorted(s: seq<Entry>) {
    forall i, j :: 0 <= i < j < |s| ==> Less(s[i], s[j])
  }

  function SortedInsert(s: seq<Entry>, e: Entry): seq<Entry> {
    if s == [] || Less(e, s[0]) then [e] + s else [s[0]] + SortedInsert(s[1..], e)
  }

  function Erase(s: seq<Entry>, e: Entry): seq<Entry> {
    if s == [] then [] else if s[0] == e then s[1..] else [s[0]] + Erase(s[1..], e)
  }

  function LowerBound(s: seq<Entry>, e: Entry): (n: nat)
    ensures n <= |s|
  {
    if s == [] || !Less(s[0], e) then 0 else 1 + LowerBound(s[1..], e)
  }

  lemma {:induction false} InsertKeepsSorted(s: seq<Entry>, e: Entry)
    requires Sorted(s) && e !in s
    ensures var r := SortedInsert(s, e);
            && Sorted(r) && |r| == |s| + 1 && (forall x :: x in r <==> x == e || x in s)
            && r[0] == if s == [] || Less(e, s[0]) then e else s[0]
    decreases |s|
  {
    if s != [] && !Less(e, s[0]) {
      InsertKeepsSorted(s[1..], e);
      var t := SortedInsert(s[1..], e);
      assert forall x :: x in s <==> x == s[0] || x in s[1..];
      forall j | 0 <= j < |t|
        ensures Less(s[0], t[j])
      {
        assert t[j] in t;
      }
    }
  }

  lemma {:induction false} EraseKeepsSorted(s: seq<Entry>, e: Entry)
    requires Sorted(s) && e in s
    ensures var r := Erase(s, e);
            && Sorted(r) && |r| == |s| - 1 && (forall x :: x in r <==> x in s && x != e)
            && (r != [] ==> s[0].when <= r[0].when)
    decreases |s|
  {
    if s[0] != e {
      EraseKeepsSorted(s[1..], e);
      var t := Erase(s[1..], e);
      assert forall x :: x in s <==> x == s[0] || x in s[1..];
      forall j | 0 <= j < |t|
        ensures Less(s[0], t[j])
      {
        assert t[j] in t;
      }
    }
  }

  lemma {:induction false} LowerBoundSplits(s: seq<Entry>, e: Entry)
    requires Sorted(s)
    ensures forall i :: 0 <= i < |s| ==> (Less(s[i], e) <==> i < LowerBound(s, e))
    decreases |s|
  {
    if s != [] && Less(s[0], e) {
      LowerBoundSplits(s[1..], e);
    }
  }

  // ----- The state and the operations on it -----

  /** `heap`: the timers that are allocated. `batch`: the expired timers whose callbacks run, `turn`: how many of
      these have begun, `roundStart`: the time that `handleRead` read at its start. `posted`: the queued calls of
      `addTimerInLoop`. History: the sequence numbers of the timers deleted and of the
      callbacks run, both in order, and the time at which the timerfd was last set. */
  datatype View = View(clock: int, fd: Timerfd, lastArm: int, heap: map<nat, Timer>, timers: seq<Entry>, active: set<TimerId>,
                       calling: bool, canceling: set<TimerId>, batch: seq<Entry>, turn: nat, roundStart: int,
                       posted: seq<nat>, created: nat, freed: seq<nat>, ran: seq<nat>)

  function Initial(clock: int): View {
    View(clock, Disarmed, clock, map[], [], {}, false, {}, [], 0, clock, [], 0, [], [])
  }

  function Max(a: int, b: int): int {
    if a < b then b else a
  }

  /** Microseconds as whole seconds and the nanoseconds left over. */
  datatype Timespec = Timespec(sec: int, nsec: int)

  function HowMuchTimeFromNow(when: int, now: int): Timespec {
    var microseconds := if when - now < 100 then 100 else when - now;
    Timespec(microseconds / MICRO_SECONDS_PER_SECOND, microseconds % MICRO_SECONDS_PER_SECOND * 1000)
  }

  function Deadline(when: int, now: int): int {
    var ts := HowMuchTimeFromNow(when, now);
    now + ts.sec * MICRO_SECONDS_PER_SECOND + ts.nsec / 1000
  }

  /** The split into seconds and nanoseconds loses nothing: the timerfd goes off at the time asked for, or
      100 microseconds from now if that is later. */
  lemma DeadlineIsExact(when: int, now: int)
    ensures Deadline(when, now) == Max(when, now + 100)
    ensures var ts := HowMuchTimeFromNow(when, now); 0 <= ts.sec && 0 <= ts.nsec < 1_000_000_000 && ts != Timespec(0, 0)
  {
    var microseconds := if when - now < 100 then 100 else when - now;
    assert microseconds == microseconds / MICRO_SECONDS_PER_SECOND * MICRO_SECONDS_PER_SECOND + microseconds % MICRO_SECONDS_PER_SECOND;
  }

  /** The truncating conversion of seconds to microseconds. */
  function Micros(interval: real): int {
    (interval * 1000000.0).Floor
  }

  /** The timer at an address; an address without a timer is never read. */
  function Deref(heap: map<nat, Timer>, addr: nat): Timer {
    if addr in heap then heap[addr] else Timer(0, 0.0, false, 0)
  }

  function EntryOf(heap: map<nat, Timer>, addr: nat): Entry {
    Entry(Deref(heap, addr).expiration, addr)
  }

  function IdOf(heap: map<nat, Timer>, addr: nat): TimerId {
    TimerId(addr, Deref(heap, addr).sequence)
  }

  function AfterNew(v: View, addr: nat, when: int, interval: real): View {
    v.(heap := v.heap[addr := Timer(when, interval, interval > 0.0, v.created + 1)], created := v.created + 1)
  }

  function AfterDelete(v: View, addr: nat): View {
    v.(heap := v.heap - {addr}, freed := v.freed + [Deref(v.heap, addr).sequence])
  }

  function AfterResetTimerfd(v: View, when: int): View {
    v.(fd := Armed(Deadline(when, v.clock)), lastArm := v.clock)
  }

  predicate EarliestChanged(v: View, addr: nat) {
    v.timers == [] || Deref(v.heap, addr).expiration < v.timers[0].when
  }

  function AfterInsert(v: View, addr: nat): View {
    v.(timers := SortedInsert(v.timers, EntryOf(v.heap, addr)), active := v.active + {IdOf(v.heap, addr)})
  }

  function AfterAddInLoop(v: View, addr: nat): View {
    var inserted := AfterInsert(v, addr);
    if EarliestChanged(v, addr) then AfterResetTimerfd(inserted, Deref(v.heap, addr).expiration) else inserted
  }

  function AfterCancel(v: View, id: TimerId): View {
    if id in v.active then
      AfterDelete(v.(timers := Erase(v.timers, EntryOf(v.heap, id.addr)), active := v.active - {id}), id.addr)
    else if v.calling then v.(canceling := v.canceling + {id})
    else v
  }

  function AfterWait(v: View, micros: nat): View {
    var clock := v.clock + micros;
    v.(clock := clock, fd := if v.fd.Armed? && v.fd.deadline <= clock then Fired(v.fd.deadline) else v.fd)
  }

  function AfterRead(fd: Timerfd): Timerfd {
    if fd.Fired? then Disarmed else fd
  }

  function NumExpired(v: View, now: int): (n: nat)
    ensures n <= |v.timers|
  {
    LowerBound(v.timers, Entry(now, UINTPTR_MAX))
  }

  function IdsOf(heap: map<nat, Timer>, entries: seq<Entry>): set<TimerId> {
    set e | e in entries :: IdOf(heap, e.addr)
  }

  function AfterGetExpired(v: View, now: int): View {
    var n := NumExpired(v, now);
    v.(timers := v.timers[n..], active := v.active - IdsOf(v.heap, v.timers[..n]), batch := v.timers[..n])
  }

  /** The start of `handleRead`: everything before the first callback. */
  function AfterBegin(v: View): View {
    AfterGetExpired(v.(fd := AfterRead(v.fd)), v.clock).(calling := true, canceling := {}, turn := 0, roundStart := v.clock)
  }

  /** What becomes of the first timer of the batch when the callbacks are over. */
  function AfterSettle(v: View, now: int): (v': View)
    requires v.batch != []
    ensures v'.batch == v.batch[1..] && v'.calling == v.calling && v'.clock == v.clock
  {
    var addr := v.batch[0].addr;
    var timer := Deref(v.heap, addr);
    var rest := v.(batch := v.batch[1..]);
    if timer.repeat && IdOf(v.heap, addr) !in v.canceling
    then AfterInsert(rest.(heap := v.heap[addr := timer.(expiration := now + Micros(timer.interval))]), addr)
    else AfterDelete(rest, addr)
  }

  function AfterSettleAll(v: View, now: int): View
    decreases |v.batch|
  {
    if v.batch == [] then v else AfterSettleAll(AfterSettle(v, now), now)
  }

  function AfterReset(v: View, now: int): View {
    var settled := AfterSettleAll(v, now);
    if settled.timers != [] && settled.timers[0].when > 0
    then AfterResetTimerfd(settled, settled.timers[0].when)
    else settled
  }

  // ----- Callbacks -----

  /** What a callback, or the loop outside of callbacks, may do; and what other threads and the clock do
      meanwhile. A cancellation by another thread is a `Cancel` of the loop's at a later time. */
  datatype Command =
    | Add(addr: nat, when: int, interval: real)
    | Post(addr: nat, when: int, interval: real)
    | Cancel(id: TimerId)
    | Wait(micros: nat)

  /** The allocator returns an address that is not in use. */
  predicate LegalCommand(v: View, c: Command) {
    c.Add? || c.Post? ==> 0 < c.addr < UINTPTR_MAX && c.addr !in v.heap
  }

  function AfterCommand(v: View, c: Command): (v': View)
    ensures v'.batch == v.batch && v'.calling == v.calling && v'.turn == v.turn && v'.roundStart == v.roundStart
    ensures v'.ran == v.ran
  {
    match c
    case Add(addr, when, interval) => AfterAddInLoop(AfterNew(v, addr, when, interval), addr)
    case Post(addr, when, interval) => AfterNew(v, addr, when, interval).(posted := v.posted + [addr])
    case Cancel(id) => AfterCancel(v, id)
    case Wait(micros) => AfterWait(v, micros)
  }

  predicate LegalCommands(v: View, commands: seq<Command>)
    decreases |commands|
  {
    commands == [] || (LegalCommand(v, commands[0]) && LegalCommands(AfterCommand(v, commands[0]), commands[1..]))
  }

  function AfterCommands(v: View, commands: seq<Command>): (v': View)
    ensures v'.batch == v.batch && v'.calling == v.calling && v'.turn == v.turn && v'.roundStart == v.roundStart
    ensures v'.ran == v.ran
    decreases |commands|
  {
    if commands == [] then v else AfterCommands(AfterCommand(v, commands[0]), commands[1..])
  }

  /** The k-th callback of the batch is about to run. */
  function AfterCall(v: View, k: nat): View
    requires k < |v.batch|
  {
    v.(turn := k + 1, ran := v.ran + [Deref(v.heap, v.batch[k].addr).sequence])
  }

  predicate LegalCallbacks(v: View, callbacks: seq<seq<Command>>, k: nat)
    requires k <= |callbacks| == |v.batch|
    decreases |callbacks| - k
  {
    k == |callbacks| ||
    (LegalCommands(AfterCall(v, k), callbacks[k]) && LegalCallbacks(AfterCommands(AfterCall(v, k), callbacks[k]), callbacks, k + 1))
  }

  function AfterCallbacks(v: View, callbacks: seq<seq<Command>>, k: nat): (v': View)
    requires k <= |callbacks| == |v.batch|
    ensures v'.batch == v.batch && v'.calling == v.calling && v'.roundStart == v.roundStart
    decreases |callbacks| - k
  {
    if k == |callbacks| then v else AfterCallbacks(AfterCommands(AfterCall(v, k), callbacks[k]), callbacks, k + 1)
  }

  predicate LegalHandleRead(v: View, callbacks: seq<seq<Command>>) {
    !v.calling && |callbacks| == NumExpired(v, v.clock) && LegalCallbacks(AfterBegin(v), callbacks, 0)
  }

  function AfterHandleRead(v: View, callbacks: seq<seq<Command>>): View
    requires LegalHandleRead(v, callbacks)
  {
    AfterReset(AfterCallbacks(AfterBegin(v), callbacks, 0).(calling := false), v.clock)
  }

  // ----- Invariants -----

  function B2N(b: bool): nat {
    if b then 1 else 0
  }

  /** In how many places the timer at an address is: waiting to be added, in the index, in the batch. */
  function Homes(v: View, addr: nat): nat {
    B2N(addr in v.posted) + B2N(EntryOf(v.heap, addr) in v.timers) + B2N(EntryOf(v.heap, addr) in v.batch)
  }

  /** The entries are those of live timers, and every live timer has one home, but the timer at `x` has none.
      No timer is at address 0, so that `x == 0` makes no exception. */
  ghost predicate Placed(v: View, x: nat) {
    && (forall a :: a in v.heap ==> 0 < a < UINTPTR_MAX && Homes(v, a) == if a == x then 0 else 1)
    && (forall e :: e in v.timers ==> e.addr in v.heap && e == EntryOf(v.heap, e.addr))
    && (forall e :: e in v.batch ==> e.addr in v.heap && e == EntryOf(v.heap, e.addr))
    && (forall a :: a in v.posted ==> a in v.heap)
    && Sorted(v.timers) && Sorted(v.batch)
    && (forall i, j :: 0 <= i < j < |v.posted| ==> v.posted[i] != v.posted[j])
  }

  /** The two indexes hold the same timers. */
  ghost predicate Indexed(v: View) {
    && |v.active| == |v.timers|
    && (forall id :: id in v.active <==> id.addr in v.heap && id == IdOf(v.heap, id.addr) && EntryOf(v.heap, id.addr) in v.timers)
  }

  ghost predicate Owns(heap: map<nat, Timer>, s: nat) {
    exists a :: a in heap && heap[a].sequence == s
  }

  ghost predicate AllOwned(v: View) {
    forall s :: 1 <= s <= v.created && s !in v.freed ==> Owns(v.heap, s)
  }

  /** Every sequence number given out belongs to one live timer, or was freed once. */
  ghost predicate Numbered(v: View) {
    && (forall a :: a in v.heap ==> 1 <= v.heap[a].sequence <= v.created && v.heap[a].sequence !in v.freed)
    && (forall a, b :: a in v.heap && b in v.heap && v.heap[a].sequence == v.heap[b].sequence ==> a == b)
    && AllOwned(v)
    && (forall i, j :: 0 <= i < j < |v.freed| ==> v.freed[i] != v.freed[j])
    && (forall s :: s in v.freed ==> 1 <= s <= v.created)
    && (forall a :: a in v.heap ==> v.heap[a].repeat == (v.heap[a].interval > 0.0))
  }

  predicate Ticking(v: View) {
    && 0 < v.clock && v.lastArm <= v.clock
    && (v.fd.Armed? ==> v.clock < v.fd.deadline)
    && (v.fd.Fired? ==> v.fd.deadline <= v.clock)
  }

  /** The timerfd goes off in time for the earliest timer. */
  predicate Covered(v: View) {
    v.timers != [] ==> !v.fd.Disarmed? && v.fd.deadline <= Max(v.timers[0].when, v.lastArm + 100)
  }

  /** The books balance, but for the timer at `x`, which is between two homes. */
  ghost predicate Sound(v: View, x: nat) {
    (x == 0 || x in v.heap) && Placed(v, x) && Indexed(v) && Numbered(v)
  }

  /** While callbacks run, the timerfd has to be good only for the times that `reset` takes for invalid. */
  predicate CoveredIfInvalid(v: View) {
    v.timers != [] && v.timers[0].when <= 0 ==> Covered(v)
  }

  /** Inside `handleRead` and outside of it. */
  predicate InPhase(v: View) {
    if v.calling then CoveredIfInvalid(v) && v.turn <= |v.batch| && 0 < v.roundStart else Covered(v) && v.batch == []
  }

  ghost predicate Inv(v: View) {
    Sound(v, 0) && Ticking(v) && InPhase(v)
  }

  // ----- The elementary moves -----

  lemma NewKeepsOwners(v: View, addr: nat, when: int, interval: real)
    requires AllOwned(v) && addr !in v.heap
    ensures AllOwned(AfterNew(v, addr, when, interval))
  {
    var v' := AfterNew(v, addr, when, interval);
    forall s | 1 <= s <= v'.created && s !in v'.freed
      ensures Owns(v'.heap, s)
    {
      if s == v'.created {
        assert v'.heap[addr].sequence == s;
      } else {
        assert Owns(v.heap, s);
        var a :| a in v.heap && v.heap[a].sequence == s;
        assert v'.heap[a].sequence == s;
      }
    }
  }

  lemma NewKeepsNumbered(v: View, addr: nat, when: int, interval: real)
    requires Numbered(v) && addr !in v.heap
    ensures Numbered(AfterNew(v, addr, when, interval))
  {
    NewKeepsOwners(v, addr, when, interval);
    hide AllOwned;
  }

  lemma NewKeepsPlaced(v: View, addr: nat, when: int, interval: real)
    requires Placed(v, 0) && 0 < addr < UINTPTR_MAX && addr !in v.heap
    ensures Placed(AfterNew(v, addr, when, interval), addr)
  {
    var v' := AfterNew(v, addr, when, interval);
    hide Sorted;
    assert EntryOf(v'.heap, addr) !in v.timers && EntryOf(v'.heap, addr) !in v.batch && addr !in v.posted;
    forall a | a in v'.heap
      ensures 0 < a < UINTPTR_MAX && Homes(v', a) == if a == addr then 0 else 1
    {
      assert a != addr ==> Homes(v', a) == Homes(v, a) == 1;
    }
  }

  lemma NewIsSound(v: View, addr: nat, when: int, interval: real)
    requires Sound(v, 0) && 0 < addr < UINTPTR_MAX && addr !in v.heap
    ensures Sound(AfterNew(v, addr, when, interval), addr)
  {
    NewKeepsNumbered(v, addr, when, interval);
    NewKeepsPlaced(v, addr, when, interval);
    var v' := AfterNew(v, addr, when, interval);
    assert Homes(v', addr) == 0;
    hide Numbered, Placed, Homes;
  }

  lemma DeleteKeepsNumbered(v: View, addr: nat)
    requires Numbered(v) && addr in v.heap
    ensures Numbered(AfterDelete(v, addr))
  {
    var v' := AfterDelete(v, addr);
    assert forall s :: s in v'.freed <==> s in v.freed || s == v.heap[addr].sequence;
    assert AllOwned(v') by {
      forall s | 1 <= s <= v'.created && s !in v'.freed
        ensures Owns(v'.heap, s)
      {
        assert Owns(v.heap, s);
        var a :| a in v.heap && v.heap[a].sequence == s;
        assert v'.heap[a].sequence == s;
      }
    }
    hide AllOwned;
  }

  lemma DeleteKeepsPlaced(v: View, addr: nat)
    requires Placed(v, addr) && addr in v.heap
    ensures Placed(AfterDelete(v, addr), 0)
  {
    var v' := AfterDelete(v, addr);
    hide Sorted;
    assert Homes(v, addr) == 0;
    forall a | a in v'.heap
      ensures 0 < a < UINTPTR_MAX && Homes(v', a) == 1
    {
      assert Homes(v', a) == Homes(v, a) == 1;
    }
  }

  lemma DeleteIsSound(v: View, addr: nat)
    requires Sound(v, addr) && addr in v.heap
    ensures Sound(AfterDelete(v, addr), 0)
  {
    DeleteKeepsNumbered(v, addr);
    DeleteKeepsPlaced(v, addr);
    assert Homes(v, addr) == 0;
    hide Numbered, Placed, Homes;
  }

  lemma InsertIsSound(v: View, addr: nat)
    requires Sound(v, addr) && addr in v.heap
    ensures Sound(AfterInsert(v, addr), 0)
    ensures AfterInsert(v, addr).timers[0].when ==
            if EarliestChanged(v, addr) then Deref(v.heap, addr).expiration else v.timers[0].when
  {
    var v' := AfterInsert(v, addr);
    var e := EntryOf(v.heap, addr);
    assert Homes(v, addr) == 0;
    InsertKeepsSorted(v.timers, e);
    assert Placed(v', 0) by {
      forall a | a in v'.heap
        ensures 0 < a < UINTPTR_MAX && Homes(v', a) == 1
      {
        assert Homes(v, a) == if a == addr then 0 else 1;
      }
    }
    assert Indexed(v') by {
      assert IdOf(v.heap, addr) !in v.active;
    }
  }

  lemma RestartKeepsOwners(v: View, addr: nat, expiration: int)
    requires AllOwned(v) && addr in v.heap
    ensures AllOwned(v.(heap := v.heap[addr := v.heap[addr].(expiration := expiration)]))
  {
    var v' := v.(heap := v.heap[addr := v.heap[addr].(expiration := expiration)]);
    forall s | 1 <= s <= v'.created && s !in v'.freed
      ensures Owns(v'.heap, s)
    {
      assert Owns(v.heap, s);
      var a :| a in v.heap && v.heap[a].sequence == s;
      assert v'.heap[a].sequence == s;
    }
  }

  lemma RestartKeepsNumbered(v: View, addr: nat, expiration: int)
    requires Numbered(v) && addr in v.heap
    ensures Numbered(v.(heap := v.heap[addr := v.heap[addr].(expiration := expiration)]))
  {
    RestartKeepsOwners(v, addr, expiration);
    hide AllOwned;
  }

  lemma RestartKeepsPlaced(v: View, addr: nat, expiration: int)
    requires Placed(v, addr) && addr in v.heap
    ensures Placed(v.(heap := v.heap[addr := v.heap[addr].(expiration := expiration)]), addr)
  {
    var v' := v.(heap := v.heap[addr := v.heap[addr].(expiration := expiration)]);
    hide Sorted;
    assert Homes(v, addr) == 0;
    assert EntryOf(v'.heap, addr) !in v.timers && EntryOf(v'.heap, addr) !in v.batch && addr !in v.posted;
    forall a | a in v'.heap
      ensures 0 < a < UINTPTR_MAX && Homes(v', a) == if a == addr then 0 else 1
    {
      assert a != addr ==> Homes(v', a) == Homes(v, a) == 1;
    }
  }

  lemma RestartIsSound(v: View, addr: nat, expiration: int)
    requires Sound(v, addr) && addr in v.heap
    ensures Sound(v.(heap := v.heap[addr := v.heap[addr].(expiration := expiration)]), addr)
  {
    RestartKeepsNumbered(v, addr, expiration);
    RestartKeepsPlaced(v, addr, expiration);
    var v' := v.(heap := v.heap[addr := v.heap[addr].(expiration := expiration)]);
    assert Homes(v, addr) == 0 && Homes(v', addr) == 0;
    hide Numbered, Placed, Homes;
  }

  lemma EraseIsSound(v: View, addr: nat)
    requires Sound(v, 0) && IdOf(v.heap, addr) in v.active
    ensures Sound(v.(timers := Erase(v.timers, EntryOf(v.heap, addr)), active := v.active - {IdOf(v.heap, addr)}), addr)
    ensures EntryOf(v.heap, addr) in v.timers
  {
    var e := EntryOf(v.heap, addr);
    var v' := v.(timers := Erase(v.timers, e), active := v.active - {IdOf(v.heap, addr)});
    EraseKeepsSorted(v.timers, e);
    assert Placed(v', addr) by {
      forall a | a in v'.heap
        ensures 0 < a < UINTPTR_MAX && Homes(v', a) == if a == addr then 0 else 1
      {
        assert Homes(v, a) == 1;
      }
    }
  }

  lemma UnpostIsSound(v: View)
    requires Sound(v, 0) && v.posted != []
    ensures Sound(v.(posted := v.posted[1..]), v.posted[0])
  {
    var addr := v.posted[0];
    var v' := v.(posted := v.posted[1..]);
    assert Placed(v', addr) by {
      assert forall a :: a in v.posted <==> a == addr || a in v'.posted;
      forall a | a in v'.heap
        ensures 0 < a < UINTPTR_MAX && Homes(v', a) == if a == addr then 0 else 1
      {
        assert Homes(v, a) == 1;
      }
    }
  }

  lemma PostIsSound(v: View, addr: nat)
    requires Sound(v, addr) && addr in v.heap
    ensures Sound(v.(posted := v.posted + [addr]), 0)
  {
    var v' := v.(posted := v.posted + [addr]);
    assert Homes(v, addr) == 0;
    assert Placed(v', 0) by {
      forall a | a in v'.heap
        ensures 0 < a < UINTPTR_MAX && Homes(v', a) == 1
      {
        assert Homes(v, a) == if a == addr then 0 else 1;
      }
    }
  }

  lemma BatchIsLive(v: View, k: nat)
    requires Sound(v, 0) && k < |v.batch|
    ensures var addr := v.batch[k].addr;
            addr in v.heap && v.batch[k] == EntryOf(v.heap, addr) && v.heap[addr].repeat == (v.heap[addr].interval > 0.0)
  {
    assert v.batch[k] in v.batch;
  }

  lemma SplitSorted(s: seq<Entry>, n: nat)
    requires Sorted(s) && n <= |s|
    ensures Sorted(s[..n]) && Sorted(s[n..])
    ensures forall e :: B2N(e in s) == B2N(e in s[..n]) + B2N(e in s[n..])
  {
    assert s == s[..n] + s[n..];
    forall e | e in s[..n]
      ensures e !in s[n..]
    {
      forall j | 0 <= j < |s[n..]|
        ensures s[n..][j] != e
      {
        assert s[n + j] == s[n..][j];
      }
    }
  }

  lemma UnbatchKeepsPlaced(v: View)
    requires Placed(v, 0) && v.batch != []
    ensures Placed(v.(batch := v.batch[1..]), v.batch[0].addr)
  {
    var e := v.batch[0];
    var v' := v.(batch := v.batch[1..]);
    SplitSorted(v.batch, 1);
    assert v.batch[..1] == [e];
    hide Sorted;
    forall a | a in v'.heap
      ensures 0 < a < UINTPTR_MAX && Homes(v', a) == if a == e.addr then 0 else 1
    {
      assert Homes(v, a) == 1;
    }
  }

  lemma UnbatchIsSound(v: View)
    requires Sound(v, 0) && v.batch != []
    ensures Sound(v.(batch := v.batch[1..]), v.batch[0].addr)
  {
    var v' := v.(batch := v.batch[1..]);
    UnbatchKeepsPlaced(v);
    BatchIsLive(v, 0);
    hide Placed;
    assert Indexed(v') && Numbered(v');
  }

  // ----- What every step keeps -----

  /** The books do not depend on the clock, the timerfd, the flags or the history of calls. */
  lemma SoundStays(v: View, v': View, x: nat)
    requires Sound(v, x)
    requires v'.heap == v.heap && v'.timers == v.timers && v'.active == v.active && v'.batch == v.batch
    requires v'.posted == v.posted && v'.created == v.created && v'.freed == v.freed
    ensures Sound(v', x)
  {
    assert forall a :: Homes(v', a) == Homes(v, a);
  }

  lemma AddInLoopKeepsInv(v: View, addr: nat)
    requires Sound(v, addr) && addr in v.heap && Ticking(v)
    requires InPhase(v)
    ensures Inv(AfterAddInLoop(v, addr))
  {
    hide Sound, SortedInsert, Deadline;
    InsertIsSound(v, addr);
    DeadlineIsExact(Deref(v.heap, addr).expiration, v.clock);
    SoundStays(AfterInsert(v, addr), AfterAddInLoop(v, addr), 0);
  }

  lemma ActiveIsLive(v: View, id: TimerId)
    requires Sound(v, 0) && id in v.active
    ensures id.addr in v.heap && id == IdOf(v.heap, id.addr) && EntryOf(v.heap, id.addr) in v.timers && Sorted(v.timers)
  {
  }

  lemma CancelKeepsInv(v: View, id: TimerId)
    requires Inv(v)
    ensures Inv(AfterCancel(v, id))
  {
    if id in v.active {
      ActiveIsLive(v, id);
      EraseIsSound(v, id.addr);
      EraseKeepsSorted(v.timers, EntryOf(v.heap, id.addr));
      DeleteIsSound(v.(timers := Erase(v.timers, EntryOf(v.heap, id.addr)), active := v.active - {id}), id.addr);
    } else {
      SoundStays(v, AfterCancel(v, id), 0);
    }
    hide Sound, Erase;
  }

  lemma CommandKeepsInv(v: View, c: Command)
    requires Inv(v) && LegalCommand(v, c)
    ensures Inv(AfterCommand(v, c))
  {
    hide AfterAddInLoop, AfterCancel, Placed, Indexed, Numbered;
    match c
    case Add(addr, when, interval) =>
      NewIsSound(v, addr, when, interval);
      AddInLoopKeepsInv(AfterNew(v, addr, when, interval), addr);
    case Post(addr, when, interval) =>
      NewIsSound(v, addr, when, interval);
      PostIsSound(AfterNew(v, addr, when, interval), addr);
    case Cancel(id) => CancelKeepsInv(v, id);
    case Wait(micros) => WaitKeepsInv(v, micros);
  }

  lemma WaitKeepsInv(v: View, micros: nat)
    requires Inv(v)
    ensures Inv(AfterWait(v, micros))
  {
    SoundStays(v, AfterWait(v, micros), 0);
    hide Sound;
  }

  lemma {:induction false} CommandsKeepInv(v: View, commands: seq<Command>)
    requires Inv(v) && LegalCommands(v, commands)
    ensures Inv(AfterCommands(v, commands))
    decreases |commands|
  {
    hide Inv, AfterCommand;
    if commands != [] {
      CommandKeepsInv(v, commands[0]);
      CommandsKeepInv(AfterCommand(v, commands[0]), commands[1..]);
    }
  }

  lemma CallKeepsInv(v: View, k: nat)
    requires Inv(v) && k < |v.batch|
    ensures Inv(AfterCall(v, k))
  {
    SoundStays(v, AfterCall(v, k), 0);
    hide Sound;
  }

  lemma {:induction false} CallbacksKeepInv(v: View, callbacks: seq<seq<Command>>, k: nat)
    requires Inv(v) && k <= |callbacks| == |v.batch| && LegalCallbacks(v, callbacks, k)
    ensures Inv(AfterCallbacks(v, callbacks, k))
    decreases |callbacks| - k
  {
    hide Inv, AfterCommands;
    if k < |callbacks| {
      CallKeepsInv(v, k);
      CommandsKeepInv(AfterCall(v, k), callbacks[k]);
      CallbacksKeepInv(AfterCommands(AfterCall(v, k), callbacks[k]), callbacks, k + 1);
    }
  }

  /** A batch has as many identifiers as timers. */
  lemma {:induction false} OneIdEach(heap: map<nat, Timer>, entries: seq<Entry>)
    requires Sorted(entries) && forall e :: e in entries ==> e == EntryOf(heap, e.addr)
    ensures |IdsOf(heap, entries)| == |entries|
    decreases |entries|
  {
    if entries == [] {
      assert IdsOf(heap, entries) == {};
    } else {
      var init, last := entries[..|entries| - 1], entries[|entries| - 1];
      OneIdEach(heap, init);
      assert forall x :: x in entries <==> x == last || x in init;
      assert IdsOf(heap, entries) == IdsOf(heap, init) + {IdOf(heap, last.addr)};
      forall e | e in init
        ensures e.addr != last.addr
      {
        assert e == EntryOf(heap, e.addr) && last == EntryOf(heap, last.addr);
      }
    }
  }

  /** The batch is the timers that are due, and no timer that stays in the index is. */
  lemma DueTimersSplit(v: View, now: int)
    requires Sound(v, 0)
    ensures var n := NumExpired(v, now);
            && (forall i :: 0 <= i < n ==> v.timers[i].when <= now)
            && (forall i :: n <= i < |v.timers| ==> now < v.timers[i].when)
  {
    LowerBoundSplits(v.timers, Entry(now, UINTPTR_MAX));
    forall i | 0 <= i < |v.timers|
      ensures Less(v.timers[i], Entry(now, UINTPTR_MAX)) <==> v.timers[i].when <= now
    {
      assert v.timers[i] in v.timers;
    }
  }

  lemma GetExpiredKeepsPlaced(v: View, now: int)
    requires Placed(v, 0) && v.batch == []
    ensures Placed(AfterGetExpired(v, now), 0)
  {
    var v' := AfterGetExpired(v, now);
    SplitSorted(v.timers, |v'.batch|);
    hide Sorted;
    forall a | a in v'.heap
      ensures 0 < a < UINTPTR_MAX && Homes(v', a) == 1
    {
      assert Homes(v', a) == Homes(v, a) == 1;
    }
  }

  /** The identifiers of the batch are active before, and what stays active is what stays in the index. */
  lemma BatchLeavesIndex(v: View, now: int)
    requires Placed(v, 0) && Indexed(v) && v.batch == []
    ensures var v' := AfterGetExpired(v, now);
            && IdsOf(v.heap, v'.batch) <= v.active
            && (forall id :: id in v'.active <==> id.addr in v'.heap && id == IdOf(v'.heap, id.addr) && EntryOf(v'.heap, id.addr) in v'.timers)
  {
    var v' := AfterGetExpired(v, now);
    var gone := IdsOf(v.heap, v'.batch);
    SplitSorted(v.timers, |v'.batch|);
    hide Sorted;
    assert forall e :: e in v.timers ==> B2N(e in v.timers) == 1;
    assert gone <= v.active;
    forall id: TimerId
      ensures id in v'.active <==> id.addr in v'.heap && id == IdOf(v'.heap, id.addr) && EntryOf(v'.heap, id.addr) in v'.timers
    {
      if id.addr in v.heap && id == IdOf(v.heap, id.addr) {
        assert id in gone <==> EntryOf(v.heap, id.addr) in v'.batch;
      }
    }
  }

  lemma BatchIds(v: View, now: int)
    requires Placed(v, 0)
    ensures |IdsOf(v.heap, v.timers[..NumExpired(v, now)])| == NumExpired(v, now)
  {
    var batch := v.timers[..NumExpired(v, now)];
    forall e | e in batch
      ensures e == EntryOf(v.heap, e.addr)
    {
      assert e in v.timers;
    }
    OneIdEach(v.heap, batch);
  }

  lemma GetExpiredKeepsIndexed(v: View, now: int)
    requires Placed(v, 0) && Indexed(v) && v.batch == []
    ensures Indexed(AfterGetExpired(v, now))
  {
    hide Placed, IdsOf, NumExpired;
    BatchIds(v, now);
    BatchLeavesIndex(v, now);
    SubsetSize(v.active, IdsOf(v.heap, v.timers[..NumExpired(v, now)]));
  }

  lemma SubsetSize(all: set<TimerId>, some: set<TimerId>)
    requires some <= all
    ensures |all - some| == |all| - |some|
  {
    assert all == (all - some) + some;
  }

  lemma NumberedStays(v: View, v': View)
    requires Numbered(v) && v'.heap == v.heap && v'.created == v.created && v'.freed == v.freed
    ensures Numbered(v')
  {
  }

  lemma GetExpiredIsSound(v: View, now: int)
    requires Sound(v, 0) && v.batch == []
    ensures Sound(AfterGetExpired(v, now), 0)
  {
    hide Placed, Indexed, Numbered;
    GetExpiredKeepsPlaced(v, now);
    GetExpiredKeepsIndexed(v, now);
    assert Numbered(AfterGetExpired(v, now)) by {
      NumberedStays(v, AfterGetExpired(v, now));
    }
  }

  lemma BeginKeepsInv(v: View)
    requires Inv(v) && !v.calling
    ensures Inv(AfterBegin(v))
  {
    hide Sound;
    var v0 := v.(fd := AfterRead(v.fd));
    SoundStays(v, v0, 0);
    GetExpiredIsSound(v0, v.clock);
    DueTimersSplit(v0, v.clock);
    SoundStays(AfterGetExpired(v0, v.clock), AfterBegin(v), 0);
  }

  lemma SettleKeepsSound(v: View, now: int)
    requires Sound(v, 0) && Ticking(v) && CoveredIfInvalid(v) && v.batch != [] && 0 < now
    ensures var v' := AfterSettle(v, now); Sound(v', 0) && Ticking(v') && CoveredIfInvalid(v')
  {
    hide Sound, SortedInsert;
    var addr := v.batch[0].addr;
    BatchIsLive(v, 0);
    var timer := v.heap[addr];
    var rest := v.(batch := v.batch[1..]);
    UnbatchIsSound(v);
    if timer.repeat && IdOf(v.heap, addr) !in v.canceling {
      RestartIsSound(rest, addr, now + Micros(timer.interval));
      InsertIsSound(rest.(heap := v.heap[addr := timer.(expiration := now + Micros(timer.interval))]), addr);
    } else {
      DeleteIsSound(rest, addr);
    }
  }

  lemma {:induction false} SettleAllKeepsSound(v: View, now: int)
    requires Sound(v, 0) && Ticking(v) && CoveredIfInvalid(v) && 0 < now
    ensures var v' := AfterSettleAll(v, now);
            Sound(v', 0) && Ticking(v') && CoveredIfInvalid(v') && v'.batch == [] && v'.calling == v.calling
    decreases |v.batch|
  {
    hide Sound, AfterSettle;
    if v.batch != [] {
      SettleKeepsSound(v, now);
      SettleAllKeepsSound(AfterSettle(v, now), now);
    }
  }

  lemma ResetKeepsInv(v: View, now: int)
    requires Sound(v, 0) && Ticking(v) && CoveredIfInvalid(v) && !v.calling && 0 < now
    ensures Inv(AfterReset(v, now))
  {
    hide Sound, AfterSettleAll, Deadline;
    SettleAllKeepsSound(v, now);
    var settled := AfterSettleAll(v, now);
    var v' := AfterReset(v, now);
    if settled.timers != [] {
      DeadlineIsExact(settled.timers[0].when, settled.clock);
    }
    SoundStays(settled, v', 0);
  }

  lemma FinishKeepsInv(v: View, now: int)
    requires Inv(v) && v.calling && 0 < now
    ensures Inv(AfterReset(v.(calling := false), now))
  {
    hide Sound, AfterReset;
    SoundStays(v, v.(calling := false), 0);
    ResetKeepsInv(v.(calling := false), now);
  }

  lemma HandleReadKeepsInv(v: View, callbacks: seq<seq<Command>>)
    requires Inv(v) && LegalHandleRead(v, callbacks)
    ensures Inv(AfterHandleRead(v, callbacks))
  {
    assert |callbacks| == |AfterBegin(v).batch| && AfterBegin(v).calling && 0 < v.clock;
    hide Inv, AfterBegin, AfterReset, AfterCallbacks;
    BeginKeepsInv(v);
    CallbacksKeepInv(AfterBegin(v), callbacks, 0);
    FinishKeepsInv(AfterCallbacks(AfterBegin(v), callbacks, 0), v.clock);
  }

  // ----- Every run -----

  /** `Begin` is `handleRead` up to the first callback, `Call` the start of the next callback, `End` the rest
      of `handleRead` after the last one. Between the calls the callbacks do their commands. */
  datatype Action = Do(command: Command) | RunPosted | Begin | Call | End

  predicate Enabled(v: View, a: Action) {
    match a
    case Do(c) => LegalCommand(v, c) && (v.calling && v.turn == 0 ==> c.Post? || c.Wait?)
    case RunPosted => !v.calling && v.posted != []
    case Begin => !v.calling
    case Call => v.calling && v.turn < |v.batch|
    case End => v.calling && v.turn == |v.batch|
  }

  function Step(v: View, a: Action): View
    requires Enabled(v, a)
  {
    match a
    case Do(c) => AfterCommand(v, c)
    case RunPosted => AfterAddInLoop(v.(posted := v.posted[1..]), v.posted[0])
    case Begin => AfterBegin(v)
    case Call => AfterCall(v, v.turn)
    case End => AfterReset(v.(calling := false), v.roundStart)
  }

  predicate Legal(v: View, run: seq<Action>)
    decreases |run|
  {
    run == [] || (Enabled(v, run[0]) && Legal(Step(v, run[0]), run[1..]))
  }

  function After(v: View, run: seq<Action>): View
    requires Legal(v, run)
    decreases |run|
  {
    if run == [] then v else After(Step(v, run[0]), run[1..])
  }

  lemma {:induction false} RunsJoin(v: View, x: seq<Action>, y: seq<Action>)
    requires Legal(v, x) && Legal(After(v, x), y)
    ensures Legal(v, x + y) && After(v, x + y) == After(After(v, x), y)
    decreases |x|
  {
    hide Step, Enabled;
    if x == [] {
      assert x + y == y;
    } else {
      assert (x + y)[1..] == x[1..] + y;
      RunsJoin(Step(v, x[0]), x[1..], y);
    }
  }

  lemma OneStep(v: View, a: Action)
    requires Enabled(v, a)
    ensures Legal(v, [a]) && After(v, [a]) == Step(v, a)
  {
    hide Step, Enabled;
    assert [a][1..] == [];
  }

  /** The steps of the callbacks from the k-th on, and of the end of the round. */
  function RoundFrom(callbacks: seq<seq<Command>>, k: nat): seq<Action>
    requires k <= |callbacks|
    decreases |callbacks| - k
  {
    if k == |callbacks| then [End] else [Call] + Dos(callbacks[k]) + RoundFrom(callbacks, k + 1)
  }

  function Dos(commands: seq<Command>): seq<Action> {
    if commands == [] then [] else [Do(commands[0])] + Dos(commands[1..])
  }

  lemma {:induction false} CommandsAreARun(v: View, commands: seq<Command>)
    requires LegalCommands(v, commands) && v.turn > 0
    ensures Legal(v, Dos(commands)) && After(v, Dos(commands)) == AfterCommands(v, commands)
    decreases |commands|
  {
    hide AfterCommand, LegalCommand;
    if commands != [] {
      assert Enabled(v, Do(commands[0])) && Step(v, Do(commands[0])) == AfterCommand(v, commands[0]);
      hide Step, Enabled;
      OneStep(v, Do(commands[0]));
      CommandsAreARun(AfterCommand(v, commands[0]), commands[1..]);
      RunsJoin(v, [Do(commands[0])], Dos(commands[1..]));
    }
  }

  lemma {:induction false} CallbacksAreARun(v: View, callbacks: seq<seq<Command>>, k: nat)
    requires v.calling && v.turn == k <= |callbacks| == |v.batch| && LegalCallbacks(v, callbacks, k)
    ensures Legal(v, RoundFrom(callbacks, k))
    ensures After(v, RoundFrom(callbacks, k)) == AfterReset(AfterCallbacks(v, callbacks, k).(calling := false), v.roundStart)
    decreases |callbacks| - k
  {
    hide AfterCommands, LegalCommands, AfterReset, LegalCommand, AfterCommand;
    if k == |callbacks| {
      OneStep(v, End);
    } else {
      var called := AfterCall(v, k);
      OneStep(v, Call);
      CommandsAreARun(called, callbacks[k]);
      CallbacksAreARun(AfterCommands(called, callbacks[k]), callbacks, k + 1);
      RunsJoin(v, [Call], Dos(callbacks[k]));
      RunsJoin(v, [Call] + Dos(callbacks[k]), RoundFrom(callbacks, k + 1));
    }
  }

  /** A whole `handleRead`, with what its callbacks do, is a run of these steps. */
  lemma HandleReadIsARun(v: View, callbacks: seq<seq<Command>>)
    requires LegalHandleRead(v, callbacks)
    ensures Legal(v, [Begin] + RoundFrom(callbacks, 0))
    ensures After(v, [Begin] + RoundFrom(callbacks, 0)) == AfterHandleRead(v, callbacks)
  {
    OneStep(v, Begin);
    CallbacksAreARun(AfterBegin(v), callbacks, 0);
    RunsJoin(v, [Begin], RoundFrom(callbacks, 0));
    hide AfterReset, AfterCallbacks, LegalCallbacks, NumExpired;
  }

  ghost predicate Idle(v: View) {
    Inv(v) && !v.calling
  }

  lemma {:induction false} SettlingStaysQuiet(v: View, now: int)
    ensures AfterSettleAll(v, now).calling == v.calling && AfterSettleAll(v, now).ran == v.ran
    ensures AfterSettleAll(v, now).posted == v.posted
    decreases |v.batch|
  {
    if v.batch != [] {
      SettlingStaysQuiet(AfterSettle(v, now), now);
    }
  }

  lemma HandleReadEndsCalling(v: View, callbacks: seq<seq<Command>>)
    requires Idle(v) && LegalHandleRead(v, callbacks)
    ensures !AfterHandleRead(v, callbacks).calling
  {
    var done := AfterCallbacks(AfterBegin(v), callbacks, 0).(calling := false);
    SettlingStaysQuiet(done, v.clock);
  }

  lemma HandleReadKeepsIdle(v: View, callbacks: seq<seq<Command>>)
    requires Idle(v) && LegalHandleRead(v, callbacks)
    ensures Idle(AfterHandleRead(v, callbacks))
  {
    HandleReadKeepsInv(v, callbacks);
    HandleReadEndsCalling(v, callbacks);
    hide Inv;
  }

  lemma RunPostedKeepsInv(v: View)
    requires Inv(v) && v.posted != []
    ensures Inv(AfterAddInLoop(v.(posted := v.posted[1..]), v.posted[0]))
  {
    PostedIsLive(v);
    UnpostIsSound(v);
    hide Sound, AfterAddInLoop;
    AddInLoopKeepsInv(v.(posted := v.posted[1..]), v.posted[0]);
  }

  lemma StepKeepsInv(v: View, a: Action)
    requires Inv(v) && Enabled(v, a)
    ensures Inv(Step(v, a))
  {
    match a
    case Do(c) =>
      CommandKeepsInv(v, c);
      hide Inv;
    case RunPosted =>
      RunPostedKeepsInv(v);
      hide Inv;
    case Begin =>
      BeginKeepsInv(v);
      hide Inv;
    case Call =>
      CallKeepsInv(v, v.turn);
      hide Inv;
    case End =>
      FinishKeepsInv(v, v.roundStart);
      hide Inv;
  }

  lemma PostedIsLive(v: View)
    requires Sound(v, 0) && v.posted != []
    ensures v.posted[0] in v.heap
  {
  }

  lemma {:induction false} RunKeepsInv(v: View, run: seq<Action>)
    requires Inv(v) && Legal(v, run)
    ensures Inv(After(v, run))
    decreases |run|
  {
    hide Inv, Step, Enabled;
    if run != [] {
      StepKeepsInv(v, run[0]);
      RunKeepsInv(Step(v, run[0]), run[1..]);
    }
  }

  lemma InitialIsIdle(clock: int)
    requires 0 < clock
    ensures Idle(Initial(clock))
  {
  }

  lemma IdleIsInv(v: View)
    requires Idle(v)
    ensures Inv(v)
  {
    hide Inv;
  }

  lemma InvIsCovered(v: View)
    requires Inv(v)
    ensures !v.calling && v.timers != [] ==>
              && (v.fd.Armed? || v.fd.Fired?)
              && v.fd.deadline <= Max(v.timers[0].when, v.lastArm + 100)
              && (Max(v.timers[0].when, v.lastArm + 100) <= v.clock ==> v.fd.Fired?)
  {
    hide Sound;
  }

  /** On every run, whenever timers are pending outside of `handleRead`, the timerfd is armed or has gone
      off, with a deadline no later than the earliest timer or 100 microseconds after it was last set; once
      that time has come, it has gone off. Timers may be added for any time, also for times that count as
      invalid. */
  lemma NoTimerIsStranded(clock: int, run: seq<Action>)
    requires 0 < clock && Legal(Initial(clock), run)
    ensures var v := After(Initial(clock), run);
            !v.calling && v.timers != [] ==>
              && (v.fd.Armed? || v.fd.Fired?)
              && v.fd.deadline <= Max(v.timers[0].when, v.lastArm + 100)
              && (Max(v.timers[0].when, v.lastArm + 100) <= v.clock ==> v.fd.Fired?)
  {
    hide *;
    InitialIsIdle(clock);
    IdleIsInv(Initial(clock));
    RunKeepsInv(Initial(clock), run);
    InvIsCovered(After(Initial(clock), run));
  }

  /** On every run, inside callbacks and outside of them, a timer that was created is in one place: waiting to be
      added, in the index, in the batch, or deleted, and then it was deleted once. */
  lemma EveryTimerHasOneHome(clock: int, run: seq<Action>, s: nat)
    requires 0 < clock && Legal(Initial(clock), run)
    requires 1 <= s <= After(Initial(clock), run).created
    ensures var v := After(Initial(clock), run);
            if s in v.freed
            then !Owns(v.heap, s) && multiset(v.freed)[s] == 1
            else exists a :: a in v.heap && v.heap[a].sequence == s && Homes(v, a) == 1 &&
                             forall b :: b in v.heap && v.heap[b].sequence == s ==> b == a
  {
    InitialIsIdle(clock);
    RunKeepsInv(Initial(clock), run);
    var v := After(Initial(clock), run);
    hide After, Legal;
    if s in v.freed {
      CountOnce(v.freed, s);
    } else {
      assert Owns(v.heap, s);
      var a :| a in v.heap && v.heap[a].sequence == s;
      assert Homes(v, a) == 1;
    }
  }

  lemma {:induction false} CountOnce(s: seq<nat>, x: nat)
    requires forall i, j :: 0 <= i < j < |s| ==> s[i] != s[j]
    ensures multiset(s)[x] == if x in s then 1 else 0
    decreases |s|
  {
    if s != [] {
      assert s == [s[0]] + s[1..];
      CountOnce(s[1..], x);
    }
  }

  /** On every run, inside callbacks and outside of them, the two indexes hold the same timers, in the order of
      their times. */
  lemma IndexesAgree(clock: int, run: seq<Action>)
    requires 0 < clock && Legal(Initial(clock), run)
    ensures var v := After(Initial(clock), run);
            && |v.timers| == |v.active| && Sorted(v.timers)
            && (forall e :: e in v.timers ==> e.addr in v.heap && e.when == v.heap[e.addr].expiration && IdOf(v.heap, e.addr) in v.active)
            && (forall id :: id in v.active ==> id.addr in v.heap && id.sequence == v.heap[id.addr].sequence &&
                                                Entry(v.heap[id.addr].expiration, id.addr) in v.timers)
  {
    InitialIsIdle(clock);
    RunKeepsInv(Initial(clock), run);
    hide After, Legal;
  }

  // ----- What becomes of the timers of a batch -----

  predicate Untouched(v: View, v': View, addr: nat) {
    addr in v.heap && addr in v'.heap && v'.heap[addr] == v.heap[addr]
  }

  lemma BatchIsInactive(v: View, k: nat)
    requires Inv(v) && k < |v.batch|
    ensures v.batch[k].addr in v.heap && forall id :: id in v.active ==> id.addr != v.batch[k].addr
  {
    BatchIsLive(v, k);
    var addr := v.batch[k].addr;
    assert Homes(v, addr) == 1;
    forall id | id in v.active
      ensures id.addr != addr
    {
      ActiveIsLive(v, id);
    }
  }

  /** A timer of the batch is not active, so that no command can delete it or move it. */
  lemma CommandSparesBatch(v: View, c: Command, k: nat)
    requires Inv(v) && v.calling && LegalCommand(v, c) && k < |v.batch|
    ensures var v', addr := AfterCommand(v, c), v.batch[k].addr;
            && Untouched(v, v', addr)
            && (IdOf(v.heap, addr) in v'.canceling <==> IdOf(v.heap, addr) in v.canceling || c == Cancel(IdOf(v.heap, addr)))
  {
    hide Inv, SortedInsert, Erase, Deadline;
    BatchIsInactive(v, k);
  }

  lemma {:induction false} CommandsSpareBatch(v: View, commands: seq<Command>, k: nat)
    requires Inv(v) && v.calling && LegalCommands(v, commands) && k < |v.batch|
    ensures var v', addr := AfterCommands(v, commands), v.batch[k].addr;
            && Untouched(v, v', addr)
            && (IdOf(v.heap, addr) in v'.canceling <==> IdOf(v.heap, addr) in v.canceling || Cancel(IdOf(v.heap, addr)) in commands)
    decreases |commands|
  {
    BatchIsLive(v, k);
    hide Inv, AfterCommand, LegalCommand;
    if commands != [] {
      CommandSparesBatch(v, commands[0], k);
      CommandKeepsInv(v, commands[0]);
      CommandsSpareBatch(AfterCommand(v, commands[0]), commands[1..], k);
    }
  }

  predicate CanceledFrom(callbacks: seq<seq<Command>>, k: nat, id: TimerId)
    requires k <= |callbacks|
    decreases |callbacks| - k
  {
    k < |callbacks| && (Cancel(id) in callbacks[k] || CanceledFrom(callbacks, k + 1, id))
  }

  function SequencesOf(heap: map<nat, Timer>, entries: seq<Entry>): seq<nat> {
    seq(|entries|, i requires 0 <= i < |entries| => Deref(heap, entries[i].addr).sequence)
  }

  /** The callbacks from the k-th on spare the timers of the batch, whichever way they cancel and add. */
  lemma {:induction false} CallbacksSpareBatch(v: View, callbacks: seq<seq<Command>>, k: nat, i: nat)
    requires Inv(v) && v.calling && k <= |callbacks| == |v.batch| && LegalCallbacks(v, callbacks, k) && i < |v.batch|
    ensures var v', addr := AfterCallbacks(v, callbacks, k), v.batch[i].addr;
            && Untouched(v, v', addr)
            && (IdOf(v.heap, addr) in v'.canceling <==>
                IdOf(v.heap, addr) in v.canceling || CanceledFrom(callbacks, k, IdOf(v.heap, addr)))
    decreases |callbacks| - k
  {
    BatchIsLive(v, i);
    hide Inv, AfterCommands;
    if k < |callbacks| {
      CallKeepsInv(v, k);
      CommandsSpareBatch(AfterCall(v, k), callbacks[k], i);
      CommandsKeepInv(AfterCall(v, k), callbacks[k]);
      CallbacksSpareBatch(AfterCommands(AfterCall(v, k), callbacks[k]), callbacks, k + 1, i);
    }
  }

  lemma {:induction false} CallbacksRunBatch(v: View, callbacks: seq<seq<Command>>, k: nat)
    requires Inv(v) && v.calling && k <= |callbacks| == |v.batch| && LegalCallbacks(v, callbacks, k)
    ensures AfterCallbacks(v, callbacks, k).ran == v.ran + SequencesOf(v.heap, v.batch[k..])
    decreases |callbacks| - k
  {
    hide Inv, AfterCommands;
    if k < |callbacks| {
      var called := AfterCall(v, k);
      var v' := AfterCommands(called, callbacks[k]);
      CallKeepsInv(v, k);
      CommandsKeepInv(called, callbacks[k]);
      CallbacksRunBatch(v', callbacks, k + 1);
      forall i | 0 <= i < |v.batch|
        ensures Untouched(v, v', v.batch[i].addr)
      {
        CommandsSpareBatch(called, callbacks[k], i);
      }
      hide AfterCallbacks, LegalCallbacks, LegalCommands;
      assert SequencesOf(v'.heap, v.batch[k + 1..]) == SequencesOf(v.heap, v.batch[k + 1..]);
      assert SequencesOf(v.heap, v.batch[k..]) == [Deref(v.heap, v.batch[k].addr).sequence] + SequencesOf(v.heap, v.batch[k + 1..]);
    }
  }

  /** One `handleRead` runs the callbacks of exactly the timers that are due, each once, in the order of
      their times and addresses, whatever the callbacks add and cancel. */
  lemma DueTimersRunOnceInOrder(v: View, callbacks: seq<seq<Command>>)
    requires Idle(v) && LegalHandleRead(v, callbacks)
    ensures AfterHandleRead(v, callbacks).ran == v.ran + SequencesOf(v.heap, v.timers[..|callbacks|])
    ensures Sorted(v.timers) && forall i :: 0 <= i < |v.timers| ==> (v.timers[i].when <= v.clock <==> i < |callbacks|)
  {
    DueTimersSplit(v, v.clock);
    BeginKeepsInv(v);
    var begun := AfterBegin(v);
    CallbacksRunBatch(begun, callbacks, 0);
    assert begun.batch[0..] == v.timers[..|callbacks|];
    SettlingStaysQuiet(AfterCallbacks(begun, callbacks, 0).(calling := false), v.clock);
    hide Sound, AfterCallbacks, LegalCallbacks, AfterSettleAll;
  }

  /** Settling the first timer of the batch leaves the others alone. */
  lemma SettleSparesOthers(v: View, now: int, addr: nat)
    requires v.batch != [] && addr in v.heap && addr != v.batch[0].addr
    ensures var v' := AfterSettle(v, now);
            && Untouched(v, v', addr) && (IdOf(v.heap, addr) in v.active ==> IdOf(v.heap, addr) in v'.active)
            && v'.canceling == v.canceling
            && forall s :: s in v.freed ==> s in v'.freed
  {
  }

  /** Settling the batch leaves alone the timers outside of it. */
  lemma {:induction false} SettleAllSparesOthers(v: View, now: int, addr: nat)
    requires Sound(v, 0) && Ticking(v) && CoveredIfInvalid(v) && 0 < now
    requires addr in v.heap && EntryOf(v.heap, addr) !in v.batch
    ensures var v' := AfterSettleAll(v, now);
            Untouched(v, v', addr) && (IdOf(v.heap, addr) in v.active ==> IdOf(v.heap, addr) in v'.active)
    decreases |v.batch|
  {
    if v.batch != [] {
      BatchIsLive(v, 0);
      assert v.batch[0] in v.batch && v.batch[0].addr != addr;
      SettleSparesOthers(v, now, addr);
      SettleKeepsSound(v, now);
      hide Sound, AfterSettle;
      SettleAllSparesOthers(AfterSettle(v, now), now, addr);
    }
  }

  lemma {:induction false} SettleAllKeepsFreed(v: View, now: int, s: nat)
    requires s in v.freed
    ensures s in AfterSettleAll(v, now).freed
    decreases |v.batch|
  {
    if v.batch != [] {
      assert s in AfterSettle(v, now).freed;
      SettleAllKeepsFreed(AfterSettle(v, now), now, s);
    }
  }

  /** What is to become of a timer that has run: active again an interval from now, or deleted. */
  predicate Settled(t: Timer, addr: nat, canceled: bool, v': View, now: int) {
    if t.repeat && !canceled
    then && addr in v'.heap && v'.heap[addr] == t.(expiration := now + Micros(t.interval))
         && TimerId(addr, t.sequence) in v'.active
    else t.sequence in v'.freed
  }

  lemma SettleFate(v: View, now: int)
    requires Sound(v, 0) && Ticking(v) && CoveredIfInvalid(v) && 0 < now && v.batch != []
    ensures var v', addr := AfterSettle(v, now), v.batch[0].addr;
            && addr in v.heap
            && Settled(v.heap[addr], addr, IdOf(v.heap, addr) in v.canceling, v', now)
            && (v.heap[addr].repeat && IdOf(v.heap, addr) !in v.canceling ==> EntryOf(v'.heap, addr) !in v'.batch)
  {
    hide Sound, AfterSettle, Micros;
    BatchIsLive(v, 0);
    SettleKeepsSound(v, now);
    SettleDecides(v, now);
    var addr := v.batch[0].addr;
    if v.heap[addr].repeat && IdOf(v.heap, addr) !in v.canceling {
      OneHomeOnly(AfterSettle(v, now), addr);
    }
  }

  lemma SettleDecides(v: View, now: int)
    requires v.batch != [] && v.batch[0].addr in v.heap
    ensures var v', addr := AfterSettle(v, now), v.batch[0].addr;
            && Settled(v.heap[addr], addr, IdOf(v.heap, addr) in v.canceling, v', now)
            && (v.heap[addr].repeat && IdOf(v.heap, addr) !in v.canceling ==> IdOf(v'.heap, addr) in v'.active)
  {
    hide SortedInsert;
  }

  lemma OneHomeOnly(v: View, addr: nat)
    requires Sound(v, 0) && IdOf(v.heap, addr) in v.active
    ensures EntryOf(v.heap, addr) !in v.batch
  {
    ActiveIsLive(v, IdOf(v.heap, addr));
    assert Homes(v, addr) == 1;
  }

  lemma BatchApart(v: View, i: nat)
    requires Sound(v, 0) && 0 < i < |v.batch|
    ensures v.batch[i].addr != v.batch[0].addr
  {
    BatchIsLive(v, 0);
    BatchIsLive(v, i);
    assert Less(v.batch[0], v.batch[i]);
  }

  /** Each timer of the batch is dealt with by what `canceling` says when its turn comes, and keeps that fate. */
  lemma {:induction false} FateOfBatch(v: View, now: int, i: nat)
    requires Sound(v, 0) && Ticking(v) && CoveredIfInvalid(v) && 0 < now && i < |v.batch|
    ensures var addr := v.batch[i].addr;
            && addr in v.heap
            && Settled(v.heap[addr], addr, IdOf(v.heap, addr) in v.canceling, AfterSettleAll(v, now), now)
    decreases i
  {
    hide Sound, AfterSettle;
    BatchIsLive(v, i);
    SettleKeepsSound(v, now);
    var settled, addr := AfterSettle(v, now), v.batch[i].addr;
    if i == 0 {
      SettleFate(v, now);
      if v.heap[addr].repeat && IdOf(v.heap, addr) !in v.canceling {
        SettleAllSparesOthers(settled, now, addr);
      } else {
        SettleAllKeepsFreed(settled, now, v.heap[addr].sequence);
      }
    } else {
      BatchApart(v, i);
      SettleSparesOthers(v, now, addr);
      FateOfBatch(settled, now, i - 1);
    }
  }

  lemma FateAfterReset(v: View, now: int, i: nat)
    requires Inv(v) && v.calling && 0 < now && i < |v.batch|
    ensures var addr := v.batch[i].addr;
            && addr in v.heap
            && Settled(v.heap[addr], addr, IdOf(v.heap, addr) in v.canceling, AfterReset(v.(calling := false), now), now)
  {
    var done := v.(calling := false);
    SoundStays(v, done, 0);
    hide Sound, AfterSettleAll;
    FateOfBatch(done, now, i);
  }

  lemma BatchBegins(v: View)
    requires Idle(v)
    ensures var begun, n := AfterBegin(v), NumExpired(v, v.clock);
            && Inv(begun) && begun.calling && begun.heap == v.heap && begun.canceling == {}
            && begun.batch == v.timers[..n] && 0 < v.clock
  {
    BeginKeepsInv(v);
    hide Sound;
  }

  /** A timer that is due repeats if and only if it is a repeating one and no callback of this
      `handleRead` cancels it; otherwise it is deleted. */
  lemma DueTimersRepeatUnlessCanceled(v: View, callbacks: seq<seq<Command>>, i: nat)
    requires Idle(v) && LegalHandleRead(v, callbacks) && i < |callbacks|
    ensures var addr := v.timers[i].addr;
            && addr in v.heap
            && Settled(v.heap[addr], addr, CanceledFrom(callbacks, 0, IdOf(v.heap, addr)), AfterHandleRead(v, callbacks), v.clock)
  {
    BatchBegins(v);
    hide Idle, Inv, AfterBegin, AfterReset, AfterCallbacks, NumExpired, Settled, CanceledFrom;
    var begun := AfterBegin(v);
    CallbacksKeepInv(begun, callbacks, 0);
    CallbacksSpareBatch(begun, callbacks, 0, i);
    FateAfterReset(AfterCallbacks(begun, callbacks, 0), v.clock, i);
  }

  // ----- Identifiers -----

  /** Cancelling touches no timer but the one with the sequence number in the identifier, even if the
      address is in use again; and that timer, if it is pending, is deleted. */
  lemma CancelHitsItsTimerOnly(v: View, id: TimerId, addr: nat)
    requires Inv(v) && addr in v.heap
    ensures var v' := AfterCancel(v, id);
            if id in v.active && v.heap[addr].sequence == id.sequence
            then addr == id.addr && addr !in v'.heap && id.sequence in v'.freed
            else Untouched(v, v', addr) && Homes(v', addr) == Homes(v, addr)
    ensures AfterCancel(v, id).fd == v.fd && AfterCancel(v, id).lastArm == v.lastArm
  {
    if id in v.active {
      ActiveIsLive(v, id);
      EraseKeepsSorted(v.timers, EntryOf(v.heap, id.addr));
    }
  }

  /** An identifier whose timer is gone cancels nothing. */
  lemma StaleIdCancelsNothing(v: View, id: TimerId)
    requires Inv(v) && id.sequence in v.freed
    ensures AfterCancel(v, id) == if v.calling then v.(canceling := v.canceling + {id}) else v
  {
    if id in v.active {
      ActiveIsLive(v, id);
    }
  }

  lemma StepKeepsFreed(v: View, a: Action, s: nat)
    requires Inv(v) && Enabled(v, a) && s in v.freed
    ensures s in Step(v, a).freed
    ensures v.ran <= Step(v, a).ran && s !in Step(v, a).ran[|v.ran|..]
  {
    match a
    case Do(c) =>
    case RunPosted =>
    case Begin =>
    case Call =>
      assert v.batch[v.turn] in v.batch;
    case End =>
      SettleAllKeepsFreed(v.(calling := false), v.roundStart, s);
      SettlingStaysQuiet(v.(calling := false), v.roundStart);
  }

  lemma AbsentFromBoth(a: seq<nat>, b: seq<nat>, c: seq<nat>, s: nat)
    requires a <= b <= c && s !in b[|a|..] && s !in c[|b|..]
    ensures a <= c && s !in c[|a|..]
  {
    assert c[|a|..] == b[|a|..] + c[|b|..];
  }

  /** A timer that was deleted never runs again, on any run, also when another timer gets its address. */
  lemma {:induction false} DeletedTimersNeverRun(v: View, run: seq<Action>, s: nat)
    requires Inv(v) && Legal(v, run) && s in v.freed
    ensures var v' := After(v, run); s in v'.freed && v.ran <= v'.ran && s !in v'.ran[|v.ran|..]
    decreases |run|
  {
    if run != [] {
      var next := Step(v, run[0]);
      StepKeepsFreed(v, run[0], s);
      StepKeepsInv(v, run[0]);
      hide Inv, Step, Enabled;
      DeletedTimersNeverRun(next, run[1..], s);
      AbsentFromBoth(v.ran, next.ran, After(v, run).ran, s);
    }
  }

  lemma NewcomerIsNew(v: View, addr: nat)
    requires Sound(v, addr) && addr in v.heap
    ensures Sorted(v.timers) && |v.timers| == |v.active|
    ensures EntryOf(v.heap, addr) !in v.timers && IdOf(v.heap, addr) !in v.active
  {
    assert Homes(v, addr) == 0;
  }

  // ----- Times -----

  /** A whole number of seconds is a million times as many microseconds. */
  lemma MicrosOfSeconds(seconds: int)
    ensures Micros(seconds as real) == seconds * 1_000_000
  {
    assert seconds as real * 1000000.0 == (seconds * 1_000_000) as real;
  }

  /** Any interval is rounded down to whole microseconds. */
  lemma MicrosRoundDown(interval: real)
    ensures Micros(interval) as real <= interval * 1000000.0 < Micros(interval) as real + 1.0
  {
  }

  /** A due timer that repeats and is not cancelled is pending again, for the start of the round plus its interval,
      rounded down to a microsecond; nothing else about it changes. */
  lemma DueTimersRepeatAfterTheirInterval(v: View, callbacks: seq<seq<Command>>, i: nat)
    requires Idle(v) && LegalHandleRead(v, callbacks) && i < |callbacks| && v.timers[i].addr in v.heap
    requires v.heap[v.timers[i].addr].repeat && !CanceledFrom(callbacks, 0, IdOf(v.heap, v.timers[i].addr))
    ensures var v', addr := AfterHandleRead(v, callbacks), v.timers[i].addr;
            && addr in v'.heap
            && var delay := v'.heap[addr].expiration - v.clock;
               && delay as real <= v.heap[addr].interval * 1000000.0 < delay as real + 1.0
               && v'.heap[addr] == v.heap[addr].(expiration := v.clock + delay)
               && Entry(v.clock + delay, addr) in v'.timers
  {
    var addr := v.timers[i].addr;
    DueTimersRepeatUnlessCanceled(v, callbacks, i);
    HandleReadKeepsIdle(v, callbacks);
    ActiveIsLive(AfterHandleRead(v, callbacks), TimerId(addr, v.heap[addr].sequence));
    MicrosRoundDown(v.heap[addr].interval);
    hide Inv, AfterHandleRead, LegalHandleRead, CanceledFrom, Micros;
  }

  lemma AddingAdds(v: View, addr: nat)
    requires Sound(v, addr) && addr in v.heap
    ensures var v' := AfterAddInLoop(v, addr);
            && v'.heap == v.heap && v'.posted == v.posted
            && (forall e :: e in v'.timers <==> e == EntryOf(v.heap, addr) || e in v.timers)
            && (forall id :: id in v'.active <==> id == IdOf(v.heap, addr) || id in v.active)
  {
    hide Sound, SortedInsert, Deadline;
    NewcomerIsNew(v, addr);
    InsertKeepsSorted(v.timers, EntryOf(v.heap, addr));
  }

  /** An added timer is pending for the time asked for, with the interval asked for, next to all that were. */
  lemma AddedTimerIsPending(v: View, addr: nat, when: int, interval: real)
    requires Inv(v) && LegalCommand(v, Add(addr, when, interval))
    ensures var v' := AfterCommand(v, Add(addr, when, interval));
            && v'.heap == v.heap[addr := Timer(when, interval, interval > 0.0, v.created + 1)]
            && (forall e :: e in v'.timers <==> e == Entry(when, addr) || e in v.timers)
            && (forall id :: id in v'.active <==> id == TimerId(addr, v.created + 1) || id in v.active)
            && v'.posted == v.posted
  {
    hide Sound, AfterAddInLoop;
    NewIsSound(v, addr, when, interval);
    AddingAdds(AfterNew(v, addr, when, interval), addr);
  }

  /** A posted timer waits with the time and the interval asked for, and is pending when its functor has run. */
  lemma PostedTimerIsAddedLater(v: View, addr: nat, when: int, interval: real)
    requires Inv(v) && LegalCommand(v, Post(addr, when, interval))
    ensures var v' := AfterCommand(v, Post(addr, when, interval));
            && v'.heap == v.heap[addr := Timer(when, interval, interval > 0.0, v.created + 1)]
            && v'.posted == v.posted + [addr] && v'.timers == v.timers && v'.active == v.active
            && v'.fd == v.fd && v'.lastArm == v.lastArm
  {
  }

  lemma FunctorAddsItsTimer(v: View)
    requires Inv(v) && Enabled(v, RunPosted)
    ensures v.posted[0] in v.heap
    ensures var v', addr := Step(v, RunPosted), v.posted[0];
            && v'.heap == v.heap && v'.posted == v.posted[1..]
            && (forall e :: e in v'.timers <==> e == Entry(v.heap[addr].expiration, addr) || e in v.timers)
            && (forall id :: id in v'.active <==> id == TimerId(addr, v.heap[addr].sequence) || id in v.active)
  {
    hide Sound, AfterAddInLoop;
    PostedIsLive(v);
    UnpostIsSound(v);
    AddingAdds(v.(posted := v.posted[1..]), v.posted[0]);
  }

  /** Adding sets the timerfd if and only if there was no timer or the earliest time is now earlier, and then for
      that time. */
  lemma AddingArmsExactly(v: View, addr: nat)
    requires Sound(v, addr) && addr in v.heap
    ensures var v' := AfterAddInLoop(v, addr);
            && v'.timers != []
            && (if v.timers == [] || v'.timers[0].when < v.timers[0].when
                then v'.fd == Armed(Max(v'.timers[0].when, v.clock + 100)) && v'.lastArm == v.clock
                else v'.fd == v.fd && v'.lastArm == v.lastArm)
  {
    hide Sound, SortedInsert, Deadline;
    InsertIsSound(v, addr);
    NewcomerIsNew(v, addr);
    InsertKeepsSorted(v.timers, EntryOf(v.heap, addr));
    DeadlineIsExact(Deref(v.heap, addr).expiration, v.clock);
  }

  /** The end of a round sets the timerfd for the earliest time if there is one that counts as valid, and otherwise
      leaves it alone. */
  lemma RoundEndArmsExactly(v: View)
    requires Inv(v) && Enabled(v, End)
    ensures var v' := Step(v, End);
            && v'.clock == v.clock
            && (if v'.timers != [] && v'.timers[0].when > 0
                then v'.fd == Armed(Max(v'.timers[0].when, v.clock + 100)) && v'.lastArm == v.clock
                else v'.fd == v.fd && v'.lastArm == v.lastArm)
  {
    hide Inv, AfterSettleAll, Deadline;
    var settled := AfterSettleAll(v.(calling := false), v.roundStart);
    SettlingLeavesTimerfd(v.(calling := false), v.roundStart);
    if settled.timers != [] {
      DeadlineIsExact(settled.timers[0].when, settled.clock);
    }
  }

  lemma {:induction false} SettlingLeavesTimerfd(v: View, now: int)
    ensures var v' := AfterSettleAll(v, now); v'.fd == v.fd && v'.lastArm == v.lastArm && v'.clock == v.clock
    decreases |v.batch|
  {
    if v.batch != [] {
      SettlingLeavesTimerfd(AfterSettle(v, now), now);
    }
  }

  /** A round starts by reading the timerfd: one that has gone off is not set any more. */
  lemma RoundReadsTimerfd(v: View)
    requires Enabled(v, Begin)
    ensures Step(v, Begin).fd == if v.fd.Fired? then Disarmed else v.fd
    ensures Step(v, Begin).roundStart == v.clock && Step(v, Begin).turn == 0 && Step(v, Begin).canceling == {}
  {
  }

  // ----- The class -----

  /** The identifiers of a batch are taken out one at a time, each of them for the first time. */
  lemma NextIdIsNew(heap: map<nat, Timer>, entries: seq<Entry>, i: nat)
    requires Sorted(entries) && i < |entries| && forall e :: e in entries ==> e == EntryOf(heap, e.addr)
    ensures IdOf(heap, entries[i].addr) !in IdsOf(heap, entries[..i])
    ensures IdsOf(heap, entries[..i + 1]) == IdsOf(heap, entries[..i]) + {IdOf(heap, entries[i].addr)}
  {
    assert entries[..i + 1] == entries[..i] + [entries[i]];
    forall e | e in entries[..i]
      ensures e.addr != entries[i].addr
    {
      assert e in entries && entries[i] in entries;
    }
  }

  lemma BatchWasActive(v: View, now: int)
    requires Sound(v, 0) && v.batch == []
    ensures var expired := v.timers[..NumExpired(v, now)];
            && Sorted(expired) && IdsOf(v.heap, expired) <= v.active
            && forall e :: e in expired ==> e.addr in v.heap && e == EntryOf(v.heap, e.addr)
  {
    BatchLeavesIndex(v, now);
    assert forall e :: e in v.timers[..NumExpired(v, now)] ==> e in v.timers;
    hide Indexed, Numbered;
  }

  lemma SizesAgree(v: View)
    requires Sound(v, 0)
    ensures |v.timers| == |v.active|
  {
  }

  lemma FirstIsLive(v: View)
    requires Sound(v, 0) && v.timers != []
    ensures v.timers[0].addr in v.heap && v.heap[v.timers[0].addr].expiration == v.timers[0].when
  {
    assert v.timers[0] in v.timers;
  }

  lemma BeginIsSound(v: View)
    requires Idle(v)
    ensures Sound(v.(fd := AfterRead(v.fd)), 0) && v.batch == []
  {
    SoundStays(v, v.(fd := AfterRead(v.fd)), 0);
    hide Sound;
  }

  lemma FinishIsSound(v: View)
    requires Inv(v) && v.calling
    ensures var v' := v.(calling := false); Sound(v', 0) && Ticking(v') && CoveredIfInvalid(v') && 0 < v.clock
  {
    SoundStays(v, v.(calling := false), 0);
    hide Sound;
  }

  class TimerQueue {
    var clock: int
    var fd: Timerfd
    var heap: map<nat, Timer>
    var timers: seq<Entry>
    var active: set<TimerId>
    var calling: bool
    var canceling: set<TimerId>
    var posted: seq<nat>
    var created: nat
    ghost var lastArm: int
    ghost var batch: seq<Entry>
    ghost var turn: nat
    ghost var roundStart: int
    ghost var freed: seq<nat>
    ghost var ran: seq<nat>

    ghost function Current(): View
      reads this
    {
      View(clock, fd, lastArm, heap, timers, active, calling, canceling, batch, turn, roundStart, posted, created, freed, ran)
    }

    constructor (now: int)
      ensures Current() == Initial(now)
    {
      clock, fd, heap, timers, active := now, Disarmed, map[], [], {};
      calling, canceling, posted, created := false, {}, [], 0;
      lastArm, batch, freed, ran := now, [], [], [];
      turn, roundStart := 0, now;
    }

    method New(addr: nat, when: int, interval: real)
      requires addr !in heap
      modifies this`heap, this`created
      ensures Current() == AfterNew(old(Current()), addr, when, interval)
    {
      created := created + 1;
      heap := heap[addr := Timer(when, interval, interval > 0.0, created)];
    }

    method Delete(addr: nat)
      requires addr in heap
      modifies this`heap, this`freed
      ensures Current() == AfterDelete(old(Current()), addr)
    {
      freed := freed + [heap[addr].sequence];
      heap := heap - {addr};
    }

    method ResetTimerfd(expiration: int)
      modifies this`fd, this`lastArm
      ensures Current() == AfterResetTimerfd(old(Current()), expiration)
    {
      var ts := HowMuchTimeFromNow(expiration, clock);
      fd := Armed(clock + ts.sec * MICRO_SECONDS_PER_SECOND + ts.nsec / 1000);
      lastArm := clock;
    }

    method Insert(addr: nat) returns (earliestChanged: bool)
      requires addr in heap && Sound(Current(), addr)
      modifies this`timers, this`active
      ensures Current() == AfterInsert(old(Current()), addr) && earliestChanged == EarliestChanged(old(Current()), addr)
    {
      hide Sound;
      NewcomerIsNew(Current(), addr);
      assert |timers| == |active|;
      earliestChanged := false;
      var when := heap[addr].expiration;
      if timers == [] || when < timers[0].when {
        earliestChanged := true;
      }
      assert Entry(when, addr) !in timers && TimerId(addr, heap[addr].sequence) !in active;
      InsertKeepsSorted(timers, Entry(when, addr));
      timers := SortedInsert(timers, Entry(when, addr));
      active := active + {TimerId(addr, heap[addr].sequence)};
      assert |timers| == |active|;
    }

    method AddTimerInLoop(addr: nat)
      requires addr in heap && Sound(Current(), addr)
      modifies this`timers, this`active, this`fd, this`lastArm
      ensures Current() == AfterAddInLoop(old(Current()), addr)
    {
      hide Sound;
      var earliestChanged := Insert(addr);
      if earliestChanged {
        ResetTimerfd(heap[addr].expiration);
      }
    }

    /** `addTimer` on the loop's thread. */
    method AddTimer(addr: nat, when: int, interval: real) returns (id: TimerId)
      requires Inv(Current()) && LegalCommand(Current(), Add(addr, when, interval))
      modifies this
      ensures Current() == AfterCommand(old(Current()), Add(addr, when, interval)) && Inv(Current())
      ensures id == TimerId(addr, created) && id in active
    {
      CommandKeepsInv(Current(), Add(addr, when, interval));
      NewIsSound(Current(), addr, when, interval);
      hide Inv, Sound;
      New(addr, when, interval);
      AddTimerInLoop(addr);
      id := TimerId(addr, heap[addr].sequence);
    }

    /** `addTimer` on another thread. */
    method PostTimer(addr: nat, when: int, interval: real) returns (id: TimerId)
      requires Inv(Current()) && LegalCommand(Current(), Post(addr, when, interval))
      modifies this
      ensures Current() == AfterCommand(old(Current()), Post(addr, when, interval)) && Inv(Current())
      ensures id == TimerId(addr, created)
    {
      CommandKeepsInv(Current(), Post(addr, when, interval));
      hide Inv, Sound;
      New(addr, when, interval);
      posted := posted + [addr];
      id := TimerId(addr, heap[addr].sequence);
    }

    method CancelInLoop(id: TimerId)
      requires Inv(Current())
      modifies this
      ensures Current() == AfterCancel(old(Current()), id) && Inv(Current())
    {
      assert |timers| == |active|;
      CancelKeepsInv(Current(), id);
      if id in active {
        ActiveIsLive(Current(), id);
        EraseKeepsSorted(timers, EntryOf(heap, id.addr));
        hide Inv;
        ghost var size := |timers|;
        timers := Erase(timers, Entry(heap[id.addr].expiration, id.addr));
        assert size - |timers| == 1;
        Delete(id.addr);
        active := active - {id};
      } else if calling {
        hide Inv;
        canceling := canceling + {id};
      }
    }

    method Wait(micros: nat)
      requires Inv(Current())
      modifies this`clock, this`fd
      ensures Current() == AfterWait(old(Current()), micros) && Inv(Current())
    {
      WaitKeepsInv(Current(), micros);
      hide Inv;
      clock := clock + micros;
      if fd.Armed? && fd.deadline <= clock {
        fd := Fired(fd.deadline);
      }
    }

    method Perform(c: Command)
      requires Inv(Current()) && LegalCommand(Current(), c)
      modifies this
      ensures Current() == AfterCommand(old(Current()), c) && Inv(Current())
    {
      hide Inv;
      match c
      case Add(addr, when, interval) =>
        var _ := AddTimer(addr, when, interval);
      case Post(addr, when, interval) =>
        var _ := PostTimer(addr, when, interval);
      case Cancel(id) =>
        CancelInLoop(id);
      case Wait(micros) =>
        Wait(micros);
    }

    method RunCallback(commands: seq<Command>)
      requires Inv(Current()) && LegalCommands(Current(), commands)
      modifies this
      ensures Current() == AfterCommands(old(Current()), commands) && Inv(Current())
    {
      hide Inv, AfterCommand, LegalCommand;
      for i := 0 to |commands|
        invariant Inv(Current()) && LegalCommands(Current(), commands[i..])
        invariant AfterCommands(Current(), commands[i..]) == AfterCommands(old(Current()), commands)
      {
        assert commands[i..][1..] == commands[i + 1..];
        Perform(commands[i]);
      }
    }

    method RunPosted()
      requires Inv(Current()) && posted != []
      modifies this
      ensures Current() == AfterAddInLoop(old(Current()).(posted := old(posted)[1..]), old(posted)[0]) && Inv(Current())
    {
      RunPostedKeepsInv(Current());
      UnpostIsSound(Current());
      PostedIsLive(Current());
      hide Inv, Sound;
      var addr := posted[0];
      posted := posted[1..];
      AddTimerInLoop(addr);
    }

    method GetExpired(now: int) returns (expired: seq<Entry>)
      requires Sound(Current(), 0) && batch == []
      modifies this`timers, this`active, this`batch
      ensures Current() == AfterGetExpired(old(Current()), now) && expired == batch
    {
      hide Sound, LowerBound;
      SizesAgree(Current());
      assert |timers| == |active|;
      var n := LowerBound(timers, Entry(now, UINTPTR_MAX));
      DueTimersSplit(Current(), now);
      BatchWasActive(Current(), now);
      GetExpiredIsSound(Current(), now);
      assert n == |timers| || now < timers[n].when;
      expired := timers[..n];
      timers := timers[n..];
      EraseActive(expired);
      batch := expired;
      SizesAgree(Current());
      assert |timers| == |active|;
    }

    /** The loop of `getExpired` over the identifiers of the expired timers. */
    method EraseActive(expired: seq<Entry>)
      requires Sorted(expired) && IdsOf(heap, expired) <= active
      requires forall e :: e in expired ==> e.addr in heap && e == EntryOf(heap, e.addr)
      modifies this`active
      ensures active == old(active) - IdsOf(heap, expired)
    {
      hide Sorted;
      for i := 0 to |expired|
        invariant active == old(active) - IdsOf(heap, expired[..i])
      {
        assert expired[i] in expired;
        var timer := TimerId(expired[i].addr, heap[expired[i].addr].sequence);
        NextIdIsNew(heap, expired, i);
        assert timer in active;
        active := active - {timer};
      }
      assert expired[..|expired|] == expired;
    }

    /** Restarts or deletes the timers whose callbacks have run, and sets the timerfd for the earliest. */
    method Reset(expired: seq<Entry>, now: int)
      requires Sound(Current(), 0) && Ticking(Current()) && CoveredIfInvalid(Current()) && 0 < now && expired == batch
      modifies this
      ensures Current() == AfterReset(old(Current()), now)
    {
      hide Sound, AfterSettle;
      for i := 0 to |expired|
        invariant Sound(Current(), 0) && Ticking(Current()) && CoveredIfInvalid(Current()) && batch == expired[i..]
        invariant AfterSettleAll(Current(), now) == AfterSettleAll(old(Current()), now)
      {
        Settle(expired[i], now);
      }
      var nextExpire := 0;
      if timers != [] {
        FirstIsLive(Current());
        nextExpire := heap[timers[0].addr].expiration;
      }
      if nextExpire > 0 {
        ResetTimerfd(nextExpire);
      }
    }

    /** One turn of the loop in `reset`. */
    method Settle(entry: Entry, now: int)
      requires Sound(Current(), 0) && Ticking(Current()) && CoveredIfInvalid(Current()) && 0 < now
      requires batch != [] && entry == batch[0]
      modifies this
      ensures Current() == AfterSettle(old(Current()), now)
      ensures Sound(Current(), 0) && Ticking(Current()) && CoveredIfInvalid(Current())
    {
      hide Sound;
      SettleKeepsSound(Current(), now);
      BatchIsLive(Current(), 0);
      UnbatchIsSound(Current());
      var addr := entry.addr;
      batch := batch[1..];
      var timer := heap[addr];
      if timer.repeat && TimerId(addr, timer.sequence) !in canceling {
        RestartIsSound(Current(), addr, now + Micros(timer.interval));
        heap := heap[addr := timer.(expiration := now + Micros(timer.interval))];
        var _ := Insert(addr);
      } else {
        Delete(addr);
      }
    }

    /** `callbacks[k]` is what the callback of the k-th expired timer does. */
    method HandleRead(callbacks: seq<seq<Command>>)
      requires Idle(Current()) && LegalHandleRead(Current(), callbacks)
      modifies this
      ensures Current() == AfterHandleRead(old(Current()), callbacks) && Idle(Current())
    {
      hide Idle, Inv, Sound, AfterCallbacks, LegalCallbacks, NumExpired, AfterReset;
      BatchBegins(Current());
      HandleReadKeepsIdle(Current(), callbacks);
      BeginIsSound(Current());
      var now := clock;
      if fd.Fired? {
        fd := Disarmed;
      }
      var expired := GetExpired(now);
      calling := true;
      canceling := {};
      turn, roundStart := 0, now;
      RunCallbacks(expired, callbacks);
      FinishIsSound(Current());
      calling := false;
      Reset(expired, now);
    }

    method RunCallbacks(expired: seq<Entry>, callbacks: seq<seq<Command>>)
      requires Inv(Current()) && calling && expired == batch
      requires |callbacks| == |batch| && LegalCallbacks(Current(), callbacks, 0)
      modifies this
      ensures Current() == AfterCallbacks(old(Current()), callbacks, 0) && Inv(Current()) && calling
    {
      hide Inv, AfterCommands, LegalCommands;
      for k := 0 to |expired|
        invariant Inv(Current()) && calling && batch == expired && LegalCallbacks(Current(), callbacks, k)
        invariant AfterCallbacks(Current(), callbacks, k) == AfterCallbacks(old(Current()), callbacks, 0)
      {
        CallKeepsInv(Current(), k);
        CommandsKeepInv(AfterCall(Current(), k), callbacks[k]);
        RunBatchTimer(k);
        RunCallback(callbacks[k]);
      }
    }

    /** The call of a timer's callback, as far as the history goes; the timer is live. */
    method RunBatchTimer(k: nat)
      requires Inv(Current()) && k < |batch|
      modifies this`ran, this`turn
      ensures Current() == AfterCall(old(Current()), k)
    {
      BatchIsLive(Current(), k);
      turn := k + 1;
      ran := ran + [heap[batch[k].addr].sequence];
    }
  }
}
