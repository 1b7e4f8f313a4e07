/**
 What cancelling a timer is good for: exactly which timers never run again, and the runs in which a cancelled
 timer still does.
 */
module Canceling {
  import opened TimerQueue

  /** The callback of the timer at an address has begun in this round. */
  predicate HadItsTurn(v: View, addr: nat) {
    v.calling && exists i :: 0 <= i < v.turn && i < |v.batch| && v.batch[i].addr == addr
  }

  ghost predicate NeverRuns(v: View, s: nat) {
    forall run :: Legal(v, run) ==> v.ran <= After(v, run).ran && s !in After(v, run).ran[|v.ran|..]
  }

  // ----- Timers that do not run again -----

  /** Deleted, or to be deleted at the end of the round without another turn. */
  predicate Doomed(v: View, addr: nat, s: nat) {
    s in v.freed ||
    (HadItsTurn(v, addr) && addr in v.heap && v.heap[addr].sequence == s && TimerId(addr, s) in v.canceling)
  }

  lemma EntriesApart(v: View, i: nat, j: nat)
    requires Inv(v) && i < j < |v.batch|
    ensures v.batch[i].addr in v.heap && v.batch[j].addr in v.heap
    ensures v.heap[v.batch[i].addr].sequence != v.heap[v.batch[j].addr].sequence
  {
    BatchIsLive(v, i);
    BatchIsLive(v, j);
    assert Less(v.batch[i], v.batch[j]);
  }

  lemma StepKeepsDoomed(v: View, a: Action, addr: nat, s: nat)
    requires Inv(v) && Enabled(v, a) && Doomed(v, addr, s)
    ensures Doomed(Step(v, a), addr, s)
    ensures v.ran <= Step(v, a).ran && s !in Step(v, a).ran[|v.ran|..]
  {
    if s in v.freed {
      StepKeepsFreed(v, a, s);
    } else {
      var i :| 0 <= i < v.turn && i < |v.batch| && v.batch[i].addr == addr;
      match a
      case Do(c) =>
        CommandSparesBatch(v, c, i);
        hide Inv, AfterCommand;
        assert Step(v, a).batch[i].addr == addr;
      case Call =>
        EntriesApart(v, i, v.turn);
        hide Inv;
        assert Step(v, a).batch[i].addr == addr;
      case End =>
        FateAfterReset(v, v.roundStart, i);
        SettlingStaysQuiet(v.(calling := false), v.roundStart);
        hide Inv, AfterSettleAll;
      case _ =>
    }
  }

  lemma {:induction false} DoomedTimersNeverRun(v: View, run: seq<Action>, addr: nat, s: nat)
    requires Inv(v) && Legal(v, run) && Doomed(v, addr, s)
    ensures v.ran <= After(v, run).ran && s !in After(v, run).ran[|v.ran|..]
    decreases |run|
  {
    hide Inv, Step, Enabled, Doomed;
    if run != [] {
      var next := Step(v, run[0]);
      StepKeepsDoomed(v, run[0], addr, s);
      StepKeepsInv(v, run[0]);
      DoomedTimersNeverRun(next, run[1..], addr, s);
      AbsentFromBoth(v.ran, next.ran, After(v, run).ran, s);
    }
  }

  // ----- Timers that do -----

  lemma StepExtendsRan(v: View, a: Action)
    requires Enabled(v, a)
    ensures v.ran <= Step(v, a).ran
  {
    if a.End? {
      SettlingStaysQuiet(v.(calling := false), v.roundStart);
    }
    hide AfterSettleAll;
  }

  lemma {:induction false} RunExtendsRan(v: View, run: seq<Action>)
    requires Legal(v, run)
    ensures v.ran <= After(v, run).ran
    decreases |run|
  {
    hide Step, Enabled;
    if run != [] {
      StepExtendsRan(v, run[0]);
      RunExtendsRan(Step(v, run[0]), run[1..]);
    }
  }

  /** A run in which a timer runs. */
  predicate Runs(v: View, run: seq<Action>, s: nat) {
    Legal(v, run) && v.ran <= After(v, run).ran && s in After(v, run).ran[|v.ran|..]
  }

  lemma FirstStep(v: View, a: Action, run: seq<Action>, s: nat) returns (longer: seq<Action>)
    requires Enabled(v, a) && Runs(Step(v, a), run, s)
    ensures longer == [a] + run && Runs(v, longer, s)
  {
    hide Step, Enabled;
    longer := [a] + run;
    assert longer[1..] == run;
    StepExtendsRan(v, a);
    var next := Step(v, a);
    assert After(v, longer).ran[|v.ran|..] == next.ran[|v.ran|..] + After(v, longer).ran[|next.ran|..];
  }

  /** The turn of the i-th timer of the batch is still to come. */
  predicate TurnToCome(v: View, i: nat, addr: nat, s: nat) {
    v.calling && v.turn <= i < |v.batch| && v.batch[i].addr == addr && addr in v.heap && v.heap[addr].sequence == s
  }

  lemma {:induction false} TurnCanCome(v: View, i: nat, addr: nat, s: nat) returns (run: seq<Action>)
    requires TurnToCome(v, i, addr, s)
    ensures Runs(v, run, s)
    decreases i - v.turn
  {
    OneStep(v, Call);
    if v.turn == i {
      run := [Call];
    } else {
      var rest := TurnCanCome(Step(v, Call), i, addr, s);
      run := FirstStep(v, Call, rest, s);
    }
  }

  lemma StepKeepsTurn(v: View, a: Action, i: nat, addr: nat, s: nat)
    requires Inv(v) && Enabled(v, a) && TurnToCome(v, i, addr, s)
    ensures TurnToCome(Step(v, a), i, addr, s) || (a == Call && Step(v, a).ran == v.ran + [s])
  {
    match a
    case Do(c) =>
      CommandSparesBatch(v, c, i);
      hide Inv, AfterCommand;
    case _ =>
  }

  /** It does come, whatever is cancelled meanwhile: once the round is over, the timer has run. */
  lemma {:induction false} TurnComes(v: View, run: seq<Action>, i: nat, addr: nat, s: nat)
    requires Inv(v) && TurnToCome(v, i, addr, s) && Legal(v, run) && !After(v, run).calling
    ensures v.ran <= After(v, run).ran && s in After(v, run).ran[|v.ran|..]
    decreases |run|
  {
    assert run != [] && (TurnToCome(v, i, addr, s) ==> v.calling);
    var next := Step(v, run[0]);
    StepKeepsTurn(v, run[0], i, addr, s);
    StepKeepsInv(v, run[0]);
    StepExtendsRan(v, run[0]);
    hide Inv, Step, Enabled, TurnToCome;
    RunExtendsRan(next, run[1..]);
    if TurnToCome(next, i, addr, s) {
      TurnComes(next, run[1..], i, addr, s);
      PresentInLonger(v.ran, next.ran, After(v, run).ran, s);
    } else {
      assert After(v, run).ran[|v.ran|..][0] == s;
    }
  }

  lemma PresentInLonger(a: seq<nat>, b: seq<nat>, c: seq<nat>, s: nat)
    requires a <= b <= c && s in c[|b|..]
    ensures s in c[|a|..]
  {
    assert c[|a|..] == b[|a|..] + c[|b|..];
  }

  /** A pending timer can come to its turn: when its time has come, and the next round begins. */
  lemma ActiveCanRun(v: View, addr: nat) returns (run: seq<Action>)
    requires Inv(v) && !v.calling && IdOf(v.heap, addr) in v.active
    ensures addr in v.heap && Runs(v, run, v.heap[addr].sequence)
  {
    ActiveIsLive(v, IdOf(v.heap, addr));
    var timer := v.heap[addr];
    var wait := Do(Wait(if timer.expiration > v.clock then timer.expiration - v.clock else 0));
    var waited := Step(v, wait);
    StepKeepsInv(v, wait);
    var i := DueTimerIsInBatch(waited, addr);
    hide Inv, AfterGetExpired;
    var rest := TurnCanCome(Step(waited, Begin), i, addr, timer.sequence);
    var begun := FirstStep(waited, Begin, rest, timer.sequence);
    run := FirstStep(v, wait, begun, timer.sequence);
  }

  lemma DueTimerIsInBatch(v: View, addr: nat) returns (i: nat)
    requires Inv(v) && !v.calling && addr in v.heap && v.heap[addr].expiration <= v.clock && EntryOf(v.heap, addr) in v.timers
    ensures TurnToCome(Step(v, Begin), i, addr, v.heap[addr].sequence)
  {
    DueTimersSplit(v, v.clock);
    i :| 0 <= i < |v.timers| && v.timers[i] == EntryOf(v.heap, addr);
    hide Inv;
    assert i < NumExpired(v, v.clock);
  }

  lemma EndSparesPosted(v: View, addr: nat)
    requires Inv(v) && v.calling && addr in v.posted
    ensures addr in v.heap && Untouched(v, AfterReset(v.(calling := false), v.roundStart), addr)
    ensures AfterReset(v.(calling := false), v.roundStart).posted == v.posted
    ensures !AfterReset(v.(calling := false), v.roundStart).calling
  {
    var done := v.(calling := false);
    assert Homes(v, addr) == 1;
    SoundStays(v, done, 0);
    SettleAllSparesOthers(done, v.roundStart, addr);
    SettlingStaysQuiet(done, v.roundStart);
    hide Sound, AfterSettleAll;
  }

  /** A posted timer can run: the round ends, the functors before it and its own run, and its time comes. */
  lemma {:induction false} PostedCanRun(v: View, addr: nat) returns (run: seq<Action>)
    requires Inv(v) && addr in v.posted
    ensures addr in v.heap && Runs(v, run, v.heap[addr].sequence)
    decreases if v.calling then 1 else 0, |v.batch| - v.turn, |v.posted|
  {
    assert addr in v.heap;
    var a := if v.calling then (if v.turn < |v.batch| then Call else End) else RunPosted;
    StepKeepsInv(v, a);
    if v.calling && v.turn == |v.batch| {
      EndSparesPosted(v, addr);
    }
    hide Inv, AfterReset, AfterAddInLoop;
    var rest: seq<Action>;
    if a == RunPosted && v.posted[0] == addr {
      PostedIsActive(v);
      rest := ActiveCanRun(Step(v, a), addr);
    } else {
      if a == RunPosted {
        PostedStays(v, addr);
      }
      rest := PostedCanRun(Step(v, a), addr);
    }
    run := FirstStep(v, a, rest, v.heap[addr].sequence);
  }

  lemma PostedIsActive(v: View)
    requires v.posted != [] && !v.calling
    ensures var v' := Step(v, RunPosted);
            IdOf(v.heap, v.posted[0]) in v'.active && v'.heap == v.heap && !v'.calling
  {
  }

  lemma PostedStays(v: View, addr: nat)
    requires !v.calling && v.posted != [] && addr in v.posted && v.posted[0] != addr
    ensures var v' := Step(v, RunPosted);
            addr in v'.posted && |v'.posted| < |v.posted| && v'.heap == v.heap && v'.calling == v.calling
            && v'.batch == v.batch && v'.turn == v.turn
  {
  }

  // ----- Which are which -----

  /** A timer that is cancelled, inside callbacks or outside of them, never runs again if and only if it is
      active or has had its turn in this round. A timer whose turn in this round is still to come runs all the
      same, and so may one that another thread has posted and that is still to be added. */
  lemma CanceledNeverRunsExactly(v: View, addr: nat)
    requires Inv(v) && addr in v.heap
    ensures NeverRuns(AfterCancel(v, IdOf(v.heap, addr)), v.heap[addr].sequence) <==>
            IdOf(v.heap, addr) in v.active || HadItsTurn(v, addr)
  {
    var id, s := IdOf(v.heap, addr), v.heap[addr].sequence;
    var v' := AfterCancel(v, id);
    CancelKeepsInv(v, id);
    if id in v.active || HadItsTurn(v, addr) {
      CanceledIsDoomed(v, addr);
      forall run | Legal(v', run) ensures v'.ran <= After(v', run).ran && s !in After(v', run).ran[|v'.ran|..] {
        DoomedTimersNeverRun(v', run, addr, s);
      }
    } else {
      var run := CanceledCanRun(v, addr);
      assert Runs(v', run, s);
    }
  }

  lemma CanceledIsDoomed(v: View, addr: nat)
    requires Inv(v) && addr in v.heap && (IdOf(v.heap, addr) in v.active || HadItsTurn(v, addr))
    ensures Doomed(AfterCancel(v, IdOf(v.heap, addr)), addr, v.heap[addr].sequence)
  {
    if IdOf(v.heap, addr) !in v.active {
      var i :| 0 <= i < v.turn && i < |v.batch| && v.batch[i].addr == addr;
      assert AfterCancel(v, IdOf(v.heap, addr)).batch[i].addr == addr;
    }
  }

  lemma CanceledCanRun(v: View, addr: nat) returns (run: seq<Action>)
    requires Inv(v) && addr in v.heap && IdOf(v.heap, addr) !in v.active && !HadItsTurn(v, addr)
    ensures Runs(AfterCancel(v, IdOf(v.heap, addr)), run, v.heap[addr].sequence)
  {
    var v' := AfterCancel(v, IdOf(v.heap, addr));
    CancelKeepsInv(v, IdOf(v.heap, addr));
    assert Homes(v, addr) == 1;
    if addr in v.posted {
      run := PostedCanRun(v', addr);
    } else {
      var i :| 0 <= i < |v.batch| && v.batch[i] == EntryOf(v.heap, addr);
      run := TurnCanCome(v', i, addr, v.heap[addr].sequence);
    }
  }

  /** In one `handleRead`, a timer that an earlier callback cancels runs like any other that is due. */
  lemma CanceledInTheSameRoundRuns(v: View, callbacks: seq<seq<Command>>, i: nat, j: nat)
    requires Idle(v) && LegalHandleRead(v, callbacks) && i < j < |callbacks|
    requires Cancel(IdOf(v.heap, v.timers[j].addr)) in callbacks[i]
    ensures var v' := AfterHandleRead(v, callbacks);
            && v.ran <= v'.ran && Deref(v.heap, v.timers[j].addr).sequence in v'.ran[|v.ran|..]
            && (v.timers[j].addr in v.heap ==> v.heap[v.timers[j].addr].sequence in v'.freed)
  {
    DueTimersRunOnceInOrder(v, callbacks);
    DueTimersRepeatUnlessCanceled(v, callbacks, j);
    CanceledByOne(callbacks, 0, i, IdOf(v.heap, v.timers[j].addr));
    var ran := SequencesOf(v.heap, v.timers[..|callbacks|]);
    hide AfterHandleRead, LegalHandleRead, Idle, CanceledFrom;
    assert ran[j] == Deref(v.heap, v.timers[j].addr).sequence;
    assert (v.ran + ran)[|v.ran|..] == ran;
  }

  lemma {:induction false} CanceledByOne(callbacks: seq<seq<Command>>, k: nat, i: nat, id: TimerId)
    requires k <= i < |callbacks| && Cancel(id) in callbacks[i]
    ensures CanceledFrom(callbacks, k, id)
    decreases i - k
  {
    if k < i {
      CanceledByOne(callbacks, k + 1, i, id);
    }
  }

  // ----- Two failing runs -----

  lemma Leads(v: View, a: Action, w: View, run: seq<Action>) returns (longer: seq<Action>)
    requires Enabled(v, a) && Step(v, a) == w && Legal(w, run)
    ensures longer == [a] + run && Legal(v, longer) && After(v, longer) == After(w, run)
  {
    hide Step, Enabled;
    longer := [a] + run;
    assert longer[1..] == run;
  }

  const FIRST := TimerId(1, 1)
  const SECOND := TimerId(2, 2)
  const BOTH := [Entry(1, 1), Entry(1, 2)]

  /** One timer, or two, due at time 1, at that time. */
  const ALONE := Initial(1).(heap := map[1 := Timer(1, 0.0, false, 1)], created := 1)
  const TWO := Initial(1).(heap := map[1 := Timer(1, 0.0, false, 1), 2 := Timer(1, 0.0, false, 2)], created := 2,
                           fd := Armed(101), lastArm := 1)

  lemma AddFirst()
    ensures var a := Do(Add(1, 1, 0.0));
            && Enabled(Initial(1), a)
            && Step(Initial(1), a) == ALONE.(timers := [Entry(1, 1)], active := {FIRST}, fd := Armed(101), lastArm := 1)
  {
    DeadlineIsExact(1, 1);
    hide Deadline;
  }

  lemma AddSecond()
    ensures var v, a := ALONE.(timers := [Entry(1, 1)], active := {FIRST}, fd := Armed(101), lastArm := 1), Do(Add(2, 1, 0.0));
            Enabled(v, a) && Step(v, a) == TWO.(timers := BOTH, active := {FIRST, SECOND})
  {
    assert SortedInsert([Entry(1, 1)], Entry(1, 2)) == [Entry(1, 1)] + SortedInsert([], Entry(1, 2)) == BOTH;
    hide SortedInsert, Deadline;
  }

  lemma BothAreDue()
    ensures var v := TWO.(timers := BOTH, active := {FIRST, SECOND});
            Enabled(v, Begin) && Step(v, Begin) == TWO.(calling := true, batch := BOTH)
  {
    var v := TWO.(timers := BOTH, active := {FIRST, SECOND});
    LowerBoundSplits(BOTH, Entry(1, UINTPTR_MAX));
    assert NumExpired(v, 1) == 2 && v.timers[2..] == [] && v.timers[..2] == BOTH;
    assert BOTH[0] in BOTH && BOTH[1] in BOTH;
    assert IdsOf(v.heap, BOTH) == {FIRST, SECOND};
    hide NumExpired, IdsOf;
  }

  lemma FirstCancelsSecond()
    ensures var v := TWO.(calling := true, batch := BOTH);
            && Enabled(v, Call) && Step(v, Call) == v.(turn := 1, ran := [1])
            && Enabled(v.(turn := 1, ran := [1]), Do(Cancel(SECOND)))
            && Step(v.(turn := 1, ran := [1]), Do(Cancel(SECOND))) == v.(turn := 1, ran := [1], canceling := {SECOND})
  {
  }

  lemma SecondRuns()
    ensures var v := TWO.(calling := true, batch := BOTH, turn := 1, ran := [1], canceling := {SECOND});
            Enabled(v, Call) && Step(v, Call) == v.(turn := 2, ran := [1, 2])
  {
  }

  /** Two timers due at the same time: the callback of the first cancels the second, and it runs. */
  lemma CanceledByFirstRuns()
    ensures var run := [Do(Add(1, 1, 0.0)), Do(Add(2, 1, 0.0)), Begin, Call, Do(Cancel(SECOND)), Call];
            Legal(Initial(1), run) && After(Initial(1), run).ran == [1, 2]
  {
    hide Enabled, Step;
    AddFirst();
    AddSecond();
    BothAreDue();
    FirstCancelsSecond();
    SecondRuns();
    var one := ALONE.(timers := [Entry(1, 1)], active := {FIRST}, fd := Armed(101), lastArm := 1);
    var two := TWO.(timers := BOTH, active := {FIRST, SECOND});
    var begun := TWO.(calling := true, batch := BOTH);
    var called := begun.(turn := 1, ran := [1]);
    var canceled := called.(canceling := {SECOND});
    var r5 := Leads(canceled, Call, canceled.(turn := 2, ran := [1, 2]), []);
    var r4 := Leads(called, Do(Cancel(SECOND)), canceled, r5);
    var r3 := Leads(begun, Call, called, r4);
    var r2 := Leads(two, Begin, begun, r3);
    var r1 := Leads(one, Do(Add(2, 1, 0.0)), two, r2);
    var r0 := Leads(Initial(1), Do(Add(1, 1, 0.0)), one, r1);
    assert r0 == [Do(Add(1, 1, 0.0)), Do(Add(2, 1, 0.0)), Begin, Call, Do(Cancel(SECOND)), Call];
  }

  lemma PostFirst()
    ensures var v := ALONE.(posted := [1]);
            && Enabled(Initial(1), Do(Post(1, 1, 0.0))) && Step(Initial(1), Do(Post(1, 1, 0.0))) == v
            && Enabled(v, Do(Cancel(FIRST))) && Step(v, Do(Cancel(FIRST))) == v
  {
    assert [] + [1] == [1];
  }

  lemma PostedIsAdded()
    ensures var v := ALONE.(posted := [1]);
            && Enabled(v, RunPosted)
            && Step(v, RunPosted) == ALONE.(timers := [Entry(1, 1)], active := {FIRST}, fd := Armed(101), lastArm := 1)
  {
    DeadlineIsExact(1, 1);
    hide Deadline;
    assert [1][1..] == [];
  }

  lemma FirstIsDue()
    ensures var v := ALONE.(timers := [Entry(1, 1)], active := {FIRST}, fd := Armed(101), lastArm := 1);
            Enabled(v, Begin) && Enabled(Step(v, Begin), Call) && Step(Step(v, Begin), Call).ran == [1]
  {
    var v := ALONE.(timers := [Entry(1, 1)], active := {FIRST}, fd := Armed(101), lastArm := 1);
    LowerBoundSplits(v.timers, Entry(1, UINTPTR_MAX));
    assert NumExpired(v, 1) == 1 && v.timers[..1] == [Entry(1, 1)];
    hide NumExpired, IdsOf;
  }

  /** A timer that another thread posts and that is cancelled before it is added runs. */
  lemma CanceledPostRuns()
    ensures var run := [Do(Post(1, 1, 0.0)), Do(Cancel(FIRST)), RunPosted, Begin, Call];
            Legal(Initial(1), run) && After(Initial(1), run).ran == [1]
  {
    hide Enabled, Step;
    PostFirst();
    PostedIsAdded();
    FirstIsDue();
    var posted := ALONE.(posted := [1]);
    var added := ALONE.(timers := [Entry(1, 1)], active := {FIRST}, fd := Armed(101), lastArm := 1);
    var begun := Step(added, Begin);
    var r4 := Leads(begun, Call, Step(begun, Call), []);
    var r3 := Leads(added, Begin, begun, r4);
    var r2 := Leads(posted, RunPosted, added, r3);
    var r1 := Leads(posted, Do(Cancel(FIRST)), posted, r2);
    var r0 := Leads(Initial(1), Do(Post(1, 1, 0.0)), posted, r1);
    assert r0 == [Do(Post(1, 1, 0.0)), Do(Cancel(FIRST)), RunPosted, Begin, Call];
  }
}
