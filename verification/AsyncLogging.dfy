/**
 The double-buffered logger: threads append lines to a current buffer under a lock; one background thread
 swaps the full buffers out and writes them to the file.
 */
module AsyncLogging {
  import opened Wrappers

  const LARGE_BUFFER: nat := 4000 * 1000
  const MAX_BUFFERS: nat := 25
  const DROP_MESSAGE := "Dropped log messages\n"

  type Line = seq<char>
  type Buffer = seq<char>

  predicate Fits(buffer: Buffer, line: Line) {
    LARGE_BUFFER - |buffer| > |line|
  }

  /** A buffer takes a whole line or nothing. */
  function WithLine(buffer: Buffer, line: Line): Buffer {
    if Fits(buffer, line) then buffer + line else buffer
  }

  function Concat(parts: seq<seq<char>>): seq<char> {
    if parts == [] then [] else Concat(parts[..|parts| - 1]) + parts[|parts| - 1]
  }

  // ----- The critical sections -----

  /** What the lock protects. The current buffer is never missing between critical sections. */
  datatype Shared = Shared(current: Buffer, next: Option<Buffer>, buffers: seq<Buffer>)

  /** `append` under the lock. */
  function AfterAppend(s: Shared, line: Line): Shared {
    if Fits(s.current, line) then s.(current := s.current + line)
    else
      var spare := if s.next.Some? then s.next.value else [];
      Shared(WithLine(spare, line), None, s.buffers + [s.current])
  }

  /** The back end's swap under the lock, given its first spare buffer and the second if it has one. */
  function AfterSwap(s: Shared, spare1: Buffer, spare2: Option<Buffer>): Shared {
    Shared(spare1, if s.next.None? then spare2 else s.next, [])
  }

  function Batch(s: Shared): seq<Buffer> {
    s.buffers + [s.current]
  }

  /** What a round writes: everything, or a message and the last two buffers. */
  function RoundOutput(batch: seq<Buffer>): seq<char> {
    if |batch| > MAX_BUFFERS then DROP_MESSAGE + Concat(batch[|batch| - 2..]) else Concat(batch)
  }

  /** The buffers that a round has to reuse after writing: what is left of the batch when all but the last two
      buffers of a long one have been dropped, and at most two are kept. */
  function Reusable(batch: seq<Buffer>): seq<Buffer> {
    var written := if |batch| > MAX_BUFFERS then batch[|batch| - 2..] else batch;
    if |written| > 2 then written[..2] else written
  }

  /** The two spare buffers after a round: each one that is missing is taken from the end of the reusable
      buffers and emptied, as long as there is one. */
  function Recycled(batch: seq<Buffer>, spare2: Option<Buffer>): (Option<Buffer>, Option<Buffer>) {
    var reusable := Reusable(batch);
    var newBuffer1 := if reusable == [] then None else Some([]);
    var rest := if reusable == [] then [] else reusable[..|reusable| - 1];
    (newBuffer1, if spare2.Some? then spare2 else if rest == [] then None else Some([]))
  }

  /** Two empty spare buffers come out of a round if and only if there are enough buffers in its batch, and
      the spare buffer that is still there, if any, is empty. */
  lemma RecycledExactly(batch: seq<Buffer>, spare2: Option<Buffer>)
    ensures Recycled(batch, spare2) == (Some([]), Some([])) <==>
            batch != [] && (spare2.None? ==> |batch| > 1) && (spare2.Some? ==> spare2.value == [])
  {
    assert |Reusable(batch)| == if |batch| < 2 then |batch| else 2;
  }

  /** The front end and its lock. */
  class Logger {
    var currentBuffer: Buffer
    var nextBuffer: Option<Buffer>
    var buffers: seq<Buffer>

    constructor ()
      ensures View() == Shared([], Some([]), [])
    {
      currentBuffer := [];
      nextBuffer := Some([]);
      buffers := [];
    }

    function View(): Shared
      reads this
    {
      Shared(currentBuffer, nextBuffer, buffers)
    }

    method Append(line: Line) returns (notify: bool)
      modifies this
      ensures View() == AfterAppend(old(View()), line)
      ensures notify <==> |buffers| == |old(buffers)| + 1
    {
      notify := false;
      if Fits(currentBuffer, line) {
        currentBuffer := WithLine(currentBuffer, line);
      } else {
        buffers := buffers + [currentBuffer];
        if nextBuffer.Some? {
          currentBuffer := nextBuffer.value;
          nextBuffer := None;
        } else {
          currentBuffer := [];
        }
        currentBuffer := WithLine(currentBuffer, line);
        notify := true;
      }
    }

    method Swap(newBuffer1: Buffer, newBuffer2: Option<Buffer>)
      returns (buffersToWrite: seq<Buffer>, spare2: Option<Buffer>)
      modifies this
      ensures View() == AfterSwap(old(View()), newBuffer1, newBuffer2)
      ensures buffersToWrite == Batch(old(View()))
      ensures spare2 == if old(nextBuffer).None? then None else newBuffer2
    {
      buffers := buffers + [currentBuffer];
      currentBuffer := newBuffer1;
      buffersToWrite := buffers;
      buffers := [];
      spare2 := newBuffer2;
      if nextBuffer.None? {
        nextBuffer := spare2;
        spare2 := None;
      }
    }
  }

  method WriteAll(buffers: seq<Buffer>, file: seq<char>) returns (output: seq<char>)
    ensures output == file + Concat(buffers)
  {
    output := file;
    for i := 0 to |buffers|
      invariant output == file + Concat(buffers[..i])
    {
      ConcatSnoc(buffers[..i], buffers[i]);
      assert buffers[..i] + [buffers[i]] == buffers[..i + 1];
      assert (file + Concat(buffers[..i])) + buffers[i] == file + (Concat(buffers[..i]) + buffers[i]);
      output := output + buffers[i];
    }
    assert buffers[..|buffers|] == buffers;
  }

  /** The rest of a round, without the lock. The two assertions about buffers to reuse are the source's. */
  method WriteAndRecycle(batch: seq<Buffer>, spare2: Option<Buffer>, file: seq<char>)
    returns (output: seq<char>, newBuffer1: Option<Buffer>, newBuffer2: Option<Buffer>)
    requires batch != [] && (spare2.None? ==> |batch| > 1) && (spare2.Some? ==> spare2.value == [])
    ensures output == file + RoundOutput(batch)
    ensures (newBuffer1, newBuffer2) == Recycled(batch, spare2) == (Some([]), Some([]))
  {
    hide Concat, Recycled;
    RecycledExactly(batch, spare2);
    output := file;
    var buffersToWrite := batch;
    if |buffersToWrite| > MAX_BUFFERS {
      output := output + DROP_MESSAGE;
      buffersToWrite := buffersToWrite[|buffersToWrite| - 2..];
    }
    assert output + Concat(buffersToWrite) == file + RoundOutput(batch);
    output := WriteAll(buffersToWrite, output);
    if |buffersToWrite| > 2 {
      buffersToWrite := buffersToWrite[..2];
    }
    assert |buffersToWrite| == if |batch| < 2 then 1 else 2;
    assert buffersToWrite != [];
    buffersToWrite := buffersToWrite[..|buffersToWrite| - 1];
    newBuffer1 := Some([]);
    newBuffer2 := spare2;
    if newBuffer2.None? {
      assert buffersToWrite != [];
      newBuffer2 := Some([]);
      buffersToWrite := buffersToWrite[..|buffersToWrite| - 1];
    }
  }

  // ----- The two sides together -----

  /** Where the back end is: before its check, in its timed wait, with a batch in hand, or out of its loop. */
  datatype Phase = Top | Waiting | Swapped(batch: seq<Buffer>, spare2: Option<Buffer>) | Stopped

  /** `spare1` and `spare2` are the back end's own buffers outside a round; a batch is in `Swapped`.
      The last three fields are history: the lines accepted, their distribution over the buffers that are
      no longer current, the lines of the current buffer, and the batches of the rounds. */
  datatype State = State(shared: Shared, phase: Phase, newBuffer1: Option<Buffer>, newBuffer2: Option<Buffer>, file: seq<char>,
                         lines: seq<Line>, closed: seq<seq<Line>>, open: seq<Line>, rounds: seq<seq<Buffer>>)

  datatype Action = AppendLine(line: Line) | Wait | Swap | Write | Stop

  const INIT := State(Shared([], Some([]), []), Top, Some([]), Some([]), [], [], [], [], [])

  /** The back end waits when the buffer list is not empty, and swaps after any wakeup or without a wait. */
  predicate Enabled(s: State, a: Action) {
    match a
    case AppendLine(_) => true
    case Wait => s.phase.Top? && s.shared.buffers != []
    case Swap => (s.phase.Top? && s.shared.buffers == []) || s.phase.Waiting?
    case Write => s.phase.Swapped?
    case Stop => s.phase.Top?
  }

  function SpareOf(b: Option<Buffer>): Buffer {
    if b.Some? then b.value else []
  }

  function Do(s: State, a: Action): State
    requires Enabled(s, a)
  {
    match a
    case AppendLine(line) =>
      var kept := if |line| < LARGE_BUFFER then [line] else [];
      if Fits(s.shared.current, line)
      then s.(shared := AfterAppend(s.shared, line), lines := s.lines + kept, open := s.open + kept)
      else s.(shared := AfterAppend(s.shared, line), lines := s.lines + kept, closed := s.closed + [s.open], open := kept)
    case Wait => s.(phase := Waiting)
    case Swap =>
      s.(shared := AfterSwap(s.shared, SpareOf(s.newBuffer1), s.newBuffer2),
         phase := Swapped(Batch(s.shared), if s.shared.next.None? then None else s.newBuffer2),
         newBuffer1 := None, newBuffer2 := None,
         closed := s.closed + [s.open], open := [], rounds := s.rounds + [Batch(s.shared)])
    case Write =>
      var spares := Recycled(s.phase.batch, s.phase.spare2);
      s.(phase := Top, newBuffer1 := spares.0, newBuffer2 := spares.1, file := s.file + RoundOutput(s.phase.batch))
    case Stop => s.(phase := Stopped)
  }

  /** Which buffers there are to reuse: without a next buffer there is a full one, and every round starts
      with two empty spare buffers. The middle case is what `WriteAndRecycle` requires. */
  predicate Ownership(s: State) {
    && (s.shared.next.None? ==> s.shared.buffers != [])
    && (s.shared.next.Some? ==> s.shared.next.value == [])
    && match s.phase
       case Swapped(batch, spare2) =>
         batch != [] && (spare2.None? ==> |batch| > 1) && (spare2.Some? ==> spare2.value == [])
       case _ => s.newBuffer1 == Some([]) && s.newBuffer2 == Some([])
  }

  function Flatten<T>(parts: seq<seq<T>>): seq<T> {
    if parts == [] then [] else Flatten(parts[..|parts| - 1]) + parts[|parts| - 1]
  }

  /** Every buffer that is or was full or swapped out, oldest first. */
  function PastBuffers(s: State): seq<Buffer> {
    Flatten(s.rounds) + s.shared.buffers
  }

  /** Each buffer holds whole lines, and the lines of all buffers are the accepted lines in order. */
  predicate WholeLines(s: State) {
    && |PastBuffers(s)| == |s.closed|
    && (forall i :: 0 <= i < |s.closed| ==> PastBuffers(s)[i] == Concat(s.closed[i]))
    && s.shared.current == Concat(s.open)
    && s.lines == Flatten(s.closed) + s.open
  }

  function RoundOutputs(rounds: seq<seq<Buffer>>): seq<char> {
    if rounds == [] then [] else RoundOutputs(rounds[..|rounds| - 1]) + RoundOutput(rounds[|rounds| - 1])
  }

  /** The file has what the finished rounds wrote. */
  predicate FileOfRounds(s: State) {
    match s.phase
    case Swapped(batch, _) =>
      s.rounds != [] && s.rounds[|s.rounds| - 1] == batch && s.file == RoundOutputs(s.rounds[..|s.rounds| - 1])
    case _ => s.file == RoundOutputs(s.rounds)
  }

  predicate Inv(s: State) {
    Ownership(s) && WholeLines(s) && FileOfRounds(s)
  }

  lemma FlattenSnoc<T>(parts: seq<seq<T>>, part: seq<T>)
    ensures Flatten(parts + [part]) == Flatten(parts) + part
  {
    assert (parts + [part])[..|parts|] == parts;
  }

  lemma ConcatSnoc(parts: seq<seq<char>>, part: seq<char>)
    ensures Concat(parts + [part]) == Concat(parts) + part
  {
    assert (parts + [part])[..|parts|] == parts;
  }

  lemma StepKeepsOwnership(s: State, a: Action)
    requires Ownership(s) && Enabled(s, a)
    ensures Ownership(Do(s, a))
  {
    if a.Write? {
      RecycledExactly(s.phase.batch, s.phase.spare2);
    }
    hide Recycled;
  }

  lemma StepKeepsFile(s: State, a: Action)
    requires FileOfRounds(s) && Enabled(s, a)
    ensures FileOfRounds(Do(s, a))
  {
    var s' := Do(s, a);
    if a.Swap? {
      assert s'.rounds[..|s.rounds|] == s.rounds;
    }
  }

  lemma AppendKeepsWholeLines(s: State, line: Line)
    requires Ownership(s) && WholeLines(s)
    ensures WholeLines(Do(s, AppendLine(line)))
  {
    var s' := Do(s, AppendLine(line));
    ConcatSnoc(s.open, line);
    ConcatSnoc([], line);
    FlattenSnoc(s.closed, s.open);
    hide Flatten, Concat;
    assert PastBuffers(s') == PastBuffers(s) + (if Fits(s.shared.current, line) then [] else [s.shared.current]);
  }

  lemma SwapKeepsWholeLines(s: State)
    requires Ownership(s) && WholeLines(s) && Enabled(s, Swap)
    ensures WholeLines(Do(s, Swap))
  {
    FlattenSnoc(s.closed, s.open);
    FlattenSnoc(s.rounds, Batch(s.shared));
    assert PastBuffers(Do(s, Swap)) == PastBuffers(s) + [s.shared.current];
  }

  lemma StepKeepsInv(s: State, a: Action)
    requires Inv(s) && Enabled(s, a)
    ensures Inv(Do(s, a))
  {
    StepKeepsOwnership(s, a);
    StepKeepsFile(s, a);
    match a
    case AppendLine(line) => AppendKeepsWholeLines(s, line);
    case Swap => SwapKeepsWholeLines(s);
    case _ =>
  }

  // ----- Every interleaving -----

  predicate Legal(s: State, run: seq<Action>)
    decreases |run|
  {
    run == [] || (Enabled(s, run[0]) && Legal(Do(s, run[0]), run[1..]))
  }

  function After(s: State, run: seq<Action>): State
    requires Legal(s, run)
    decreases |run|
  {
    if run == [] then s else After(Do(s, run[0]), run[1..])
  }

  lemma {:induction false} RunKeepsInv(s: State, run: seq<Action>)
    requires Inv(s) && Legal(s, run)
    ensures Inv(After(s, run))
    decreases |run|
  {
    if run != [] {
      StepKeepsInv(s, run[0]);
      RunKeepsInv(Do(s, run[0]), run[1..]);
    }
  }

  /** The lines that one buffer can hold, in the order in which they were appended. */
  function Accepted(run: seq<Action>): seq<Line> {
    if run == [] then [] else LinesOf(run[0]) + Accepted(run[1..])
  }

  function LinesOf(a: Action): seq<Line> {
    if a.AppendLine? && |a.line| < LARGE_BUFFER then [a.line] else []
  }

  lemma StepAccepts(s: State, a: Action)
    requires Enabled(s, a)
    ensures Do(s, a).lines == s.lines + LinesOf(a)
  {
    hide AfterAppend, AfterSwap, Recycled;
  }

  lemma {:induction false} LinesAreAccepted(s: State, run: seq<Action>)
    requires Legal(s, run)
    ensures After(s, run).lines == s.lines + Accepted(run)
    decreases |run|
  {
    if run != [] {
      StepAccepts(s, run[0]);
      hide Do, Enabled;
      LinesAreAccepted(Do(s, run[0]), run[1..]);
    }
  }

  lemma {:induction false} ConcatPlus(x: seq<seq<char>>, y: seq<seq<char>>)
    ensures Concat(x + y) == Concat(x) + Concat(y)
  {
    if y == [] {
      assert x + y == x;
    } else {
      var n := |y| - 1;
      assert (x + y)[..|x| + n] == x + y[..n];
      ConcatPlus(x, y[..n]);
    }
  }

  lemma {:induction false} BuffersHoldLines(buffers: seq<Buffer>, blocks: seq<seq<Line>>)
    requires |buffers| == |blocks| && forall i :: 0 <= i < |blocks| ==> buffers[i] == Concat(blocks[i])
    ensures Concat(buffers) == Concat(Flatten(blocks))
  {
    if blocks != [] {
      var n := |blocks| - 1;
      BuffersHoldLines(buffers[..n], blocks[..n]);
      ConcatPlus(Flatten(blocks[..n]), blocks[n]);
    }
  }

  lemma {:induction false} SmallRoundsWriteAll(rounds: seq<seq<Buffer>>)
    requires forall i :: 0 <= i < |rounds| ==> |rounds[i]| <= MAX_BUFFERS
    ensures RoundOutputs(rounds) == Concat(Flatten(rounds))
  {
    if rounds != [] {
      var n := |rounds| - 1;
      SmallRoundsWriteAll(rounds[..n]);
      ConcatPlus(Flatten(rounds[..n]), rounds[n]);
    }
  }

  /** The batch in hand, if there is one. */
  function InHand(s: State): seq<char> {
    if s.phase.Swapped? then Concat(s.phase.batch) else []
  }

  /** What has not reached the file yet. */
  function Pending(s: State): seq<char> {
    InHand(s) + Concat(s.shared.buffers) + s.shared.current
  }

  /** On every interleaving, every accepted line is in exactly one buffer, whole and in order, and the file
      has what the rounds wrote of their batches. */
  lemma NothingIsLostOrSplit(run: seq<Action>)
    requires Legal(INIT, run)
    ensures var s := After(INIT, run);
            && WholeLines(s) && FileOfRounds(s) && s.lines == Accepted(run)
            && Concat(PastBuffers(s)) + s.shared.current == Concat(Accepted(run))
  {
    var s := After(INIT, run);
    RunKeepsInv(INIT, run);
    LinesAreAccepted(INIT, run);
    BuffersHoldLines(PastBuffers(s), s.closed);
    ConcatPlus(Flatten(s.closed), s.open);
  }

  predicate SmallRounds(s: State) {
    forall i :: 0 <= i < |s.rounds| ==> |s.rounds[i]| <= MAX_BUFFERS
  }

  lemma InHandCompletesRounds(s: State)
    requires FileOfRounds(s) && SmallRounds(s)
    ensures s.file + InHand(s) == Concat(Flatten(s.rounds))
  {
    if s.phase.Swapped? {
      var n := |s.rounds| - 1;
      SmallRoundsWriteAll(s.rounds[..n]);
      ConcatPlus(Flatten(s.rounds[..n]), s.rounds[n]);
    } else {
      SmallRoundsWriteAll(s.rounds);
    }
  }

  lemma PendingCompletesFile(s: State)
    requires FileOfRounds(s) && SmallRounds(s)
    ensures s.file + Pending(s) == Concat(PastBuffers(s)) + s.shared.current
  {
    hide Concat, Flatten, FileOfRounds;
    InHandCompletesRounds(s);
    ConcatPlus(Flatten(s.rounds), s.shared.buffers);
    var rest := Concat(s.shared.buffers);
    assert s.file + ((InHand(s) + rest) + s.shared.current) == ((s.file + InHand(s)) + rest) + s.shared.current;
  }

  /** Without a round of more than 25 buffers, the file and what is still on its way make up all lines. */
  lemma FilePlusPendingIsEverything(run: seq<Action>)
    requires Legal(INIT, run) && SmallRounds(After(INIT, run))
    ensures After(INIT, run).file + Pending(After(INIT, run)) == Concat(Accepted(run))
  {
    NothingIsLostOrSplit(run);
    PendingCompletesFile(After(INIT, run));
  }

  /** The assertions of the back end hold on every interleaving: a round starts with two empty spare
      buffers, and a swapped batch has as many buffers as the round has to take from it. */
  lemma SparesAreThere(run: seq<Action>)
    requires Legal(INIT, run)
    ensures var s := After(INIT, run);
            match s.phase
            case Swapped(batch, spare2) => batch != [] && (spare2.None? ==> |batch| > 1)
            case _ => s.newBuffer1 == Some([]) && s.newBuffer2 == Some([])
  {
    RunKeepsInv(INIT, run);
  }

  // ----- What goes where -----

  /** A line goes into the current buffer if and only if room for one character more is left then; otherwise into
      a fresh buffer, if it fits into one at all, and the current buffer is full. */
  lemma LineGoesWhereItFits(s: Shared, line: Line)
    requires s.next.Some? ==> s.next.value == []
    ensures var s' := AfterAppend(s, line);
            if |s.current| + |line| < 4_000_000
            then s' == s.(current := s.current + line)
            else s'.buffers == s.buffers + [s.current] && s'.next == None && s'.current == (if |line| < 4_000_000 then line else [])
  {
  }

  /** No buffer is ever as full as its memory. */
  predicate Roomy(s: State) {
    && |s.shared.current| < LARGE_BUFFER && (forall i :: 0 <= i < |s.shared.buffers| ==> |s.shared.buffers[i]| < LARGE_BUFFER)
    && (s.phase.Swapped? ==> forall i :: 0 <= i < |s.phase.batch| ==> |s.phase.batch[i]| < LARGE_BUFFER)
  }

  lemma StepKeepsRoomy(s: State, a: Action)
    requires Ownership(s) && Roomy(s) && Enabled(s, a)
    ensures Roomy(Do(s, a))
  {
    hide Recycled, RoundOutput;
  }

  lemma {:induction false} RunKeepsRoomy(s: State, run: seq<Action>)
    requires Ownership(s) && Roomy(s) && Legal(s, run)
    ensures Roomy(After(s, run))
    decreases |run|
  {
    hide Do, Enabled, Roomy, Ownership;
    if run != [] {
      StepKeepsRoomy(s, run[0]);
      StepKeepsOwnership(s, run[0]);
      RunKeepsRoomy(Do(s, run[0]), run[1..]);
    }
  }

  /** On every interleaving, appending never passes the end of a buffer. */
  lemma BuffersNeverOverflow(run: seq<Action>)
    requires Legal(INIT, run)
    ensures Roomy(After(INIT, run))
  {
    RunKeepsRoomy(INIT, run);
  }

  // ----- Long rounds -----

  /** A round of at most 25 buffers writes all of them. A longer one writes the message and then exactly the end of
      its batch: the last two buffers, the latest lines. */
  lemma RoundWritesTheEnd(batch: seq<Buffer>)
    ensures |batch| <= 25 ==> RoundOutput(batch) == Concat(batch)
    ensures |batch| > 25 ==>
              var n := |batch|;
              && RoundOutput(batch) == "Dropped log messages\n" + (batch[n - 2] + batch[n - 1])
              && Concat(batch) == Concat(batch[..n - 2]) + (batch[n - 2] + batch[n - 1])
  {
    hide Concat;
    if |batch| > 25 {
      LastTwo(batch);
    }
  }

  lemma LastTwo(batch: seq<Buffer>)
    requires |batch| >= 2
    ensures var n := |batch|;
            && batch[n - 2..] == [batch[n - 2], batch[n - 1]]
            && Concat(batch[n - 2..]) == batch[n - 2] + batch[n - 1]
            && Concat(batch) == Concat(batch[..n - 2]) + Concat(batch[n - 2..])
  {
    hide Concat;
    SplitAtLastTwo(batch);
    ConcatTwo(batch[|batch| - 2], batch[|batch| - 1]);
    ConcatPlus(batch[..|batch| - 2], batch[|batch| - 2..]);
  }

  lemma SplitAtLastTwo(batch: seq<Buffer>)
    requires |batch| >= 2
    ensures var n := |batch|;
            batch[n - 2..] == [batch[n - 2], batch[n - 1]] && batch[..n - 2] + batch[n - 2..] == batch
  {
  }

  lemma ConcatTwo(x: Buffer, y: Buffer)
    ensures Concat([x, y]) == x + y && [x] + [y] == [x, y]
  {
    ConcatSnoc([], x);
    ConcatSnoc([x], y);
    assert [] + [x] == [x] && [x] + [y] == [x, y];
  }

  lemma {:induction false} FlattenPlus<T>(x: seq<seq<T>>, y: seq<seq<T>>)
    ensures Flatten(x + y) == Flatten(x) + Flatten(y)
    decreases |y|
  {
    if y == [] {
      assert x + y == x;
    } else {
      var n := |y| - 1;
      assert (x + y)[..|x| + n] == x + y[..n];
      FlattenPlus(x, y[..n]);
    }
  }

  /** Where the buffers of a round are among all buffers that are or were full. */
  function StartOf(s: State, r: nat): nat
    requires r <= |s.rounds|
  {
    |Flatten(s.rounds[..r])|
  }

  lemma RoundIsASlice(s: State, r: nat)
    requires r < |s.rounds|
    ensures var start, n := StartOf(s, r), |s.rounds[r]|;
            start + n <= |PastBuffers(s)| && PastBuffers(s)[start..start + n] == s.rounds[r]
  {
    FlattenSnoc(s.rounds[..r], s.rounds[r]);
    assert s.rounds[..r] + [s.rounds[r]] == s.rounds[..r + 1];
    FlattenPlus(s.rounds[..r + 1], s.rounds[r + 1..]);
    assert s.rounds[..r + 1] + s.rounds[r + 1..] == s.rounds;
    hide Flatten;
    assert PastBuffers(s) == Flatten(s.rounds[..r]) + (s.rounds[r] + (Flatten(s.rounds[r + 1..]) + s.shared.buffers));
  }

  /** The buffers from one position to another hold the lines of their blocks. */
  lemma SliceHoldsLines(s: State, from: nat, to: nat)
    requires WholeLines(s) && from <= to <= |s.closed|
    ensures Concat(PastBuffers(s)[from..to]) == Concat(Flatten(s.closed[from..to]))
  {
    hide Concat, Flatten, PastBuffers;
    BuffersHoldLines(PastBuffers(s)[from..to], s.closed[from..to]);
  }

  /** What a round writes are the lines of its buffers, in order, or the message and those of its last two. */
  predicate WritesLines(s: State, r: nat)
    requires r < |s.rounds|
  {
    var from, to := StartOf(s, r), StartOf(s, r) + |s.rounds[r]|;
    && to <= |s.closed|
    && RoundOutput(s.rounds[r]) ==
       if to - from > 25
       then "Dropped log messages\n" + Concat(Flatten(s.closed[to - 2..to]))
       else Concat(Flatten(s.closed[from..to]))
  }

  lemma RoundWritesLinesOf(s: State, r: nat)
    requires WholeLines(s) && r < |s.rounds|
    ensures WritesLines(s, r)
  {
    hide Concat, Flatten, RoundOutput, WholeLines, PastBuffers, StartOf;
    var from, n := StartOf(s, r), |s.rounds[r]|;
    var to := from + n;
    RoundIsASlice(s, r);
    WholeLinesParts(s);
    RoundWritesTheEnd(s.rounds[r]);
    if n > 25 {
      LastTwo(s.rounds[r]);
      SubSlice(PastBuffers(s), from, to);
      SliceHoldsLines(s, to - 2, to);
    } else {
      SliceHoldsLines(s, from, to);
    }
  }

  lemma WholeLinesParts(s: State)
    requires WholeLines(s)
    ensures |PastBuffers(s)| == |s.closed| && s.lines == Flatten(s.closed) + s.open
  {
    hide Flatten, Concat, PastBuffers;
  }

  lemma SubSlice(buffers: seq<Buffer>, from: nat, to: nat)
    requires from + 2 <= to <= |buffers|
    ensures buffers[from..to][to - from - 2..] == buffers[to - 2..to]
  {
  }

  /** On every interleaving, the lines of the buffers are the accepted lines, and each round writes the lines of
      its own buffers; so the lines missing from the file are the older ones of rounds of more than 25 buffers. */
  lemma RoundsWriteTheirLines(run: seq<Action>, r: nat)
    requires Legal(INIT, run) && r < |After(INIT, run).rounds|
    ensures var s := After(INIT, run);
            Accepted(run) == Flatten(s.closed) + s.open && WritesLines(s, r)
  {
    hide Concat, Flatten, WholeLines, WritesLines, PastBuffers, FileOfRounds, Do, Enabled;
    NothingIsLostOrSplit(run);
    WholeLinesParts(After(INIT, run));
    RoundWritesLinesOf(After(INIT, run), r);
  }

  /** The file is the outputs of the rounds, one after another. */
  lemma {:induction false} OutputsFollowEachOther(rounds: seq<seq<Buffer>>, r: nat)
    requires r < |rounds|
    ensures RoundOutputs(rounds[..r]) + RoundOutput(rounds[r]) <= RoundOutputs(rounds)
    decreases |rounds|
  {
    var n := |rounds| - 1;
    hide RoundOutput;
    if r < n {
      OutputsFollowEachOther(rounds[..n], r);
      assert rounds[..n][..r] == rounds[..r];
    }
  }
}
