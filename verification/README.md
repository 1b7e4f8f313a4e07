# fppnet, verified

A Dafny model of the hard parts of fppnet, a reactor in the manner of muduo, with proofs about it.
`dafny verify dfyconfig.toml` checks everything. One module stands for one component of the repository.

- **Calendar and time zones** (`Date.dfy`, `TimeZone.dfy`, `LocalTime.dfy`). The two closed forms between dates and Julian day
  numbers are proved against a calendar that counts days one by one. Local time is converted to UTC and back in any zone;
  the proof says exactly which moments survive, exactly which zones have no other moments, and what every local time is
  read as, shown or skipped, with and without the flag for summer time.
- **Timers** (`TimerQueue.dfy`, `Canceling.dfy`). Two indexes, a batch of expired timers whose callbacks add and cancel
  timers, addresses that are used again, and one timerfd. No timer is stranded, none is freed twice, the timers that are
  due run once each, in order, and it is said exactly which cancelled timers never run again.
- **Loops and connections** (`EventLoop.dfy`, `TcpServer.dfy`, `Closing.dfy`, `TcpConnection.dfy`, `Connector.dfy`). Wakeups, the
  life cycle of connections across loops and when exactly each of them closes once, the order of the byte stream, and
  reconnecting with growing delays. `ConnStates.dfy` and `Wrappers.dfy` hold two shared types.
- **Registries** (`Channel.dfy`, `EPoller.dfy`, `Poller.dfy`). The dispatch of events, the mirror of the kernel's set,
  and the poll table with removal by swapping.
- **Logging** (`AsyncLogging.dfy`, `LogStream.dfy`). The double-buffered logger on every interleaving of its two sides;
  integers printed into a bounded buffer and read back.
- **Buffers, queues, signals** (`Buffer.dfy`, `BoundedBlockingQueue.dfy`, `SignalSlot.dfy`).

## How the models are built

What the source changes step by step is a class whose methods are proved to compute a function of the old state
(`Current()` or `View()` before and after), and the theorems are about these functions over every run; the array of
`Buffer` and the tables of the pollers are tied to what they stand for by the methods' contracts and `Valid()`. A module with
threads has a state, the steps that any thread may take (`Enabled`, `Do` or `Step`), an invariant that each step keeps, and
theorems about every legal run from the initial state. What the kernel, the clock, the allocator and the users do is a
parameter of a step, restricted only to what they may do: a write takes any part of a message, `poll` reports any
watched channels, an address is any that is not in use.

Where the code and its comments or names differ, the model has the code:

- The logger's back end waits while `buffers_` is *not* empty (`AsyncLoggingDoubleBuffering.h:114`), the reverse of the
  usual form. Conservation and ownership hold all the same.
- `handleWrite` tests for `kDisconnected` where a half-close is pending in `kDisconnecting` (`TcpConnection.cpp:154`).
  So a half-close that finds output pending is lost: `TcpConnection.HalfClosedExactly`, `TcpConnection.DrainedButNotHalfClosed`.
- A connection can close twice, and then the erase in the server fails (`TcpServer.SecondCloseFails`). There are two ways.
  A hang-up without readable data runs the close and the read callback (`Channel.cpp:43-54`), and one dispatch closes twice exactly
  when the read then finds the end of the stream (`TcpConnection.ClosesTwiceExactly`, `Closing.DispatchFails`). And
  `handleClose` leaves the state as it is (`TcpConnection.cpp:169-178`): a send after it can leave output behind, which turns write
  interest on again, and the next hang-up closes a second time (`Closing.LateSendFails`). There is no third way:
  `Closing.CarefulExactly`.
- Functors that the loop's thread queues before `loop()` get no wakeup (`EventLoop.cpp:164`). They are the one exception in
  `EventLoop.NoLostWakeupExactly`.
- Cancelling comes too late for a timer whose turn in the round of callbacks is still to come: it runs all the same, also if
  an earlier callback of the round cancelled it (`TimerQueue.cpp:171-173`), and it comes too early for a timer that another
  thread has posted and that is not added yet (`TimerQueue.cpp:138-154`). `Canceling.CanceledNeverRunsExactly` says that these
  are the only two; `Canceling.CanceledByFirstRuns` and `Canceling.CanceledPostRuns` are such runs.
- So `Connector::stop` does not always stop the retry (`Connector.cpp:99-103`): when the retry is due in the same round, a
  `start` after the `stop` makes the assertion in `startInLoop` fail (`Connector.cpp:41`). A `start` has to wait until the retry has
  fired: `Connector.StartIsSafeExactly`, `Connector.StopAndStartFails`.
- A channel that was removed keeps its index and can not be registered with `Poller` again (`Poller.cpp:92-129`):
  `Poller.MayUpdateExactly`.
- A channel that wanted nothing once is ignored by `Poller` for good (`Poller.cpp:81-88`): `Poller.WatchedUntilDisabled`.
- `shrink` does not reset the indices (`Buffer.h:127-131`): `Buffer.Buffer.Shrink` says exactly when the contents survive,
  `Buffer.ShrinkLosesContents` shows two bytes of which one is lost.
- `toUtcTime` counts the days of the year -4800 from a first of January that is encoded a day too late
  (`TimeZone.cc:326-330`): `TimeZone.DayOfYearExactly`.
- `EPoller` puts a disabled channel back into the kernel's set if it is disabled again (`EPoller.cpp:94-110`):
  `EPoller.EPoller.DisableAll`.
- `fromLocalTime` recovers one hour only (`TimeZone.cc:293-303`): `TimeZone.LocalRoundTripExactly`, `TimeZone.HalfHourZoneFails`.
  A wall clock that a transition skips is read by the offset before it, also where another moment shows it
  (`LocalTime.LatestIsReadExactly`, `LocalTime.SkippedYetShown`); in a sparse zone there is no such moment.

## Model

| member | source | states |
|---|---|---|
| Date.DateRoundTripExactly | src/base/datetime/Date.cc:22-44 | a valid date survives encoding and decoding if and only if it is -4800-03-01 or later |
| Date.NumberRoundTripExactly | src/base/datetime/Date.cc:22-44 | a day number decodes to a valid date if and only if it is at least -32044, and then it is encoded as itself |
| Date.ClosedFormsCountDays | src/base/datetime/Date_unittest.cc:41-87 | both formulas compute what stepping n days through the leap-year calendar computes, for every n |
| Date.NextDayIsNextNumber | src/base/datetime/Date.cc:22-29 | the day after a date, by the lengths of the months, has the next number |
| Date.NumbersKeepOrder | src/base/datetime/Date.h:110-113 | the order of the numbers is the order of year, month and day |
| Date.DateRoundTrip | src/base/datetime/Date.cc:22-44 | decoding inverts encoding from -4800-03-01 on |
| Date.DecodedDayBeforeRange | src/base/datetime/Date.cc:31-44 | before -32044 the decoded day of the month is never positive, because C++ division truncates |
| Date.LeapDayBeforeRange | src/base/datetime/Date.cc:22-44 | -4800-02-29 is encoded like the day after it, so it is the first failing date |
| Date.DecodingFitsInt32 | src/base/datetime/Date.cc:31-44 | up to day 536838867 no intermediate value leaves 32-bit `int`; the next day's first one does |
| Date.WeekDaysCycle | src/base/datetime/Date.h:99-102 | weekdays follow each other, 1970-01-01 is a Thursday, and the result is a weekday if and only if the number is at least -1 or one below a multiple of seven |
| TimeZone.UtcFields | src/base/datetime/TimeZone.cc:307-332 | the corrections after C++ division give the floor: the day is that of t / 86400 and the clock shows t % 86400, also for negative times |
| TimeZone.UtcRoundTrip | src/base/datetime/TimeZone.cc:307-347 | `fromUtcTime(toUtcTime(t)) == t`, with valid date, clock and weekday |
| TimeZone.UtcRoundTripBack | src/base/datetime/TimeZone.cc:307-347 | splitting a joined date and time gives it back |
| TimeZone.DayOfYearExactly | src/base/datetime/TimeZone.cc:326-330 | from -4800-03-01 on, the day of the year counts the days of the months before and of this one if and only if the year is not -4800 |
| TimeZone.BuildTransitions | src/base/datetime/TimeZone.cc:190-195 | each transition has its local time at the offset that starts with it |
| TimeZone.LowerBound | src/base/datetime/TimeZone.cc:227-230 | binary search finds the first transition that is not before the key |
| TimeZone.FindLocaltime | src/base/datetime/TimeZone.cc:216-248 | the search equals a linear search for the latest transition at or before the key, in UTC and in local order; before all transitions it is the first type |
| TimeZone.ToLocalTime | src/base/datetime/TimeZone.cc:263-282 | the fields are those of the moment shifted by the offset in force, with that type's flag and offset |
| TimeZone.FromLocalTime | src/base/datetime/TimeZone.cc:284-305 | the moment by the offset found in local order, an hour earlier in the case that the source tests for |
| TimeZone.SearchesAgree | src/base/datetime/TimeZone.cc:216-305 | the local search finds another transition than the UTC search if and only if a later transition shows the wall clock again, and then a smaller offset |
| TimeZone.LocalRoundTripExactly | src/base/datetime/TimeZone.cc:263-305 | in any zone sorted in both orders, `fromLocalTime(toLocalTime(t)) == t` if and only if the wall clock is not shown again or the one-hour correction applies |
| TimeZone.ZoneRoundTripsExactly | src/base/datetime/TimeZone.cc:263-305 | a zone with sparse transitions converts every moment back if and only if its clocks fall only by one hour, from summer to standard time |
| TimeZone.OneHourZoneRoundTrips | src/base/datetime/TimeZone.cc:263-305 | with offsets s and s + 3600 and transitions more than an hour apart every moment survives, in both passes through the repeated hour |
| TimeZone.HalfHourZoneFails | src/base/datetime/TimeZone.cc:293-303 | with half an hour of summer time the last second before the change back is lost |
| LocalTime.LocalTimeShows | src/base/datetime/TimeZone.cc:263-282 | a local time is the moment shifted by the offset that the last transition at or before it has started, with that type's flag and offset, its weekday and its day of the year |
| LocalTime.FoundIsTheReading | src/base/datetime/TimeZone.cc:216-248 | every wall clock stands for exactly one moment, and the search in local order finds it: the latest moment that shows the wall clock; for one that is skipped, the moment at which clocks that had not been put forward would show it |
| LocalTime.FoundShowsUnlessSkipped | src/base/datetime/TimeZone.cc:216-248 | the moment found shows the wall clock if and only if no transition skips it |
| LocalTime.FromLocalTimeExactly | src/base/datetime/TimeZone.cc:284-305 | for every local time in any zone sorted in both orders: the result is that moment, or an hour earlier if and only if the flag says summer time, the moment is not in it, and its hour and minute are those given |
| LocalTime.ShownClocks | src/base/datetime/TimeZone.cc:284-305 | a wall clock that is shown and not skipped: without the flag the latest moment that shows it, with the flag an hour earlier if and only if that moment is in standard time |
| LocalTime.LatestIsReadExactly | src/base/datetime/TimeZone.cc:284-305 | without the flag, in any zone, the result is the latest moment that shows the wall clock if and only if no transition skips it |
| LocalTime.SkippedClocks | src/base/datetime/TimeZone.cc:284-305 | what comes out for a wall clock that is skipped: a moment after the transition, by the offset before it |
| LocalTime.SkippedMeansNeverShown | src/base/datetime/TimeZone.cc:284-305 | in a sparse zone the skipped wall clocks are exactly those that are never shown |
| LocalTime.FlagPicksSummerTime | src/base/datetime/TimeZone.cc:293-303 | in a sparse zone whose clocks fall only by one hour, from summer to standard time, the flag picks the pass of a repeated hour that is in summer time |
| LocalTime.SkippedYetShown | src/base/datetime/TimeZone.cc:284-305 | in a zone whose clocks fall ten hours and an hour later rise two, a wall clock that is shown is not read as the moment that shows it |
| TimerQueue.DeadlineIsExact | src/net/TimerQueue.cpp:31-74 | the split into seconds and nanoseconds is exact: the timerfd goes off at the time asked for or 100 microseconds from now, whichever is later, and is never set to zero |
| TimerQueue.LowerBoundSplits | src/net/TimerQueue.cpp:183-193 | the bound splits the ordered set at the sentry |
| TimerQueue.InsertKeepsSorted | src/net/TimerQueue.cpp:246-277 | inserting keeps the order, adds one entry and tells which one is first |
| TimerQueue.EraseKeepsSorted | src/net/TimerQueue.cpp:145-146 | erasing takes out exactly the entry and does not make the first time earlier |
| TimerQueue.DueTimersSplit | src/net/TimerQueue.cpp:183-196 | the batch is exactly the timers with a time at or before now |
| TimerQueue.TimerQueue.constructor | src/net/TimerQueue.cpp:84-94 | an empty queue with the timerfd not set |
| TimerQueue.TimerQueue.New | src/net/Timer.h:19-25 | a new timer has the next sequence number and repeats if its interval is positive |
| TimerQueue.TimerQueue.ResetTimerfd | src/net/TimerQueue.cpp:61-74 | the timerfd is set to the deadline of the expiration |
| TimerQueue.TimerQueue.Insert | src/net/TimerQueue.cpp:246-277 | the timer, which is in neither index, is added to both; whether it is now the earliest is reported |
| TimerQueue.TimerQueue.AddTimerInLoop | src/net/TimerQueue.cpp:120-130 | the timerfd is set again exactly when the earliest time changed |
| TimerQueue.TimerQueue.AddTimer | src/net/TimerQueue.cpp:110-118 | on the loop's thread: the timer is active and the identifier names it |
| TimerQueue.TimerQueue.PostTimer | src/net/TimerQueue.cpp:110-118 | on another thread: the timer waits among the loop's functors |
| TimerQueue.TimerQueue.RunPosted | src/net/TimerQueue.cpp:116-130 | the functor of such a timer adds it |
| TimerQueue.TimerQueue.CancelInLoop | src/net/TimerQueue.cpp:138-154 | an active timer leaves both indexes and is deleted, with the source's assertions; otherwise the identifier is noted while callbacks run |
| TimerQueue.TimerQueue.GetExpired | src/net/TimerQueue.cpp:178-216 | the batch leaves both indexes, with the source's assertions |
| TimerQueue.TimerQueue.EraseActive | src/net/TimerQueue.cpp:208-213 | each identifier of the batch is erased once |
| TimerQueue.TimerQueue.Settle | src/net/TimerQueue.cpp:223-235 | a repeating timer that was not cancelled starts again and goes into the indexes, any other is deleted |
| TimerQueue.TimerQueue.Reset | src/net/TimerQueue.cpp:218-244 | the whole batch is settled, then the timerfd is set for the earliest valid time |
| TimerQueue.TimerQueue.HandleRead | src/net/TimerQueue.cpp:156-176 | the whole handler, with callbacks that add and cancel timers |
| TimerQueue.TimerQueue.RunCallbacks | src/net/TimerQueue.cpp:171-173 | the loop over the batch: every timer in it is still live when its turn comes |
| TimerQueue.CommandKeepsInv | src/net/TimerQueue.cpp:110-154 | adding, posting, cancelling and waiting keep all invariants, inside and outside of callbacks |
| TimerQueue.HandleReadKeepsInv | src/net/TimerQueue.cpp:156-244 | so does `handleRead` |
| TimerQueue.ResetKeepsInv | src/net/TimerQueue.cpp:218-244 | after `reset` the timerfd is good for all pending timers, also if the earliest time counts as invalid |
| TimerQueue.StepKeepsInv | src/net/TimerQueue.cpp:110-277 | so does every step: the start of a round, the turn of each callback, what callbacks do, the end of the round |
| TimerQueue.RunKeepsInv | src/net/TimerQueue.cpp:110-277 | so does every run of these steps, wherever it stops |
| TimerQueue.HandleReadIsARun | src/net/TimerQueue.cpp:156-176 | a whole `handleRead` is a run of these steps |
| TimerQueue.NoTimerIsStranded | src/net/TimerQueue.cpp:120-176 | on every run, outside of `handleRead`, pending timers mean a timerfd that is armed or has gone off, no later than the earliest time or 100 microseconds after it was last set; for timers of any time |
| TimerQueue.EveryTimerHasOneHome | src/net/TimerQueue.cpp:138-277 | on every run, inside callbacks and outside of them, each timer created is in exactly one of the posted adds, the index and the batch, or was deleted exactly once |
| TimerQueue.IndexesAgree | src/net/TimerQueue.cpp:138-277 | on every run, inside callbacks and outside of them, `timers_` and `activeTimers_` hold the same timers, by their current expiration and sequence number, in order |
| TimerQueue.DueTimersRunOnceInOrder | src/net/TimerQueue.cpp:156-216 | one `handleRead` runs exactly the timers that are due, once each, by time and address, whatever the callbacks do |
| TimerQueue.DueTimersRepeatUnlessCanceled | src/net/TimerQueue.cpp:218-235 | a timer that ran is active again one interval from now if and only if it repeats and no callback of this round cancelled it; otherwise it is deleted |
| TimerQueue.MicrosOfSeconds | src/base/datetime/Timestamp.h:101-105 | a whole number of seconds is a million times as many microseconds |
| TimerQueue.MicrosRoundDown | src/base/datetime/Timestamp.h:101-105 | any interval comes out within a microsecond below itself |
| TimerQueue.DueTimersRepeatAfterTheirInterval | src/net/Timer.cpp:8-18 | a repeating timer that was due and is not cancelled is pending for the start of the round plus its interval in microseconds, rounded down, and is otherwise as it was |
| TimerQueue.AddedTimerIsPending | src/net/Timer.h:19-25 | an added timer is pending for the time asked for, with the interval asked for, repeating if and only if that is positive, next to all that were pending |
| TimerQueue.PostedTimerIsAddedLater | src/net/TimerQueue.cpp:110-118 | a posted timer waits with the time and interval asked for and changes nothing else |
| TimerQueue.FunctorAddsItsTimer | src/net/TimerQueue.cpp:120-130 | the functor of a posted timer makes it pending for its time, next to all that were |
| TimerQueue.AddingArmsExactly | src/net/TimerQueue.cpp:120-130 | adding sets the timerfd if and only if there was no timer or the earliest time is now earlier, and then for that time, or 100 microseconds from now if that is later |
| TimerQueue.RoundEndArmsExactly | src/net/TimerQueue.cpp:237-243 | the end of a round sets the timerfd for the earliest time if and only if there is one that is valid, and otherwise leaves it alone |
| TimerQueue.CallbacksSpareBatch | src/net/TimerQueue.cpp:138-173 | no callback changes or deletes a timer of the batch; a cancellation of one is noted, and nothing else is noted for it |
| TimerQueue.CancelHitsItsTimerOnly | src/net/TimerQueue.cpp:138-154 | cancelling deletes the pending timer with that sequence number and touches no other, also when the address is in use again |
| TimerQueue.StaleIdCancelsNothing | src/net/TimerQueue.cpp:138-154 | the identifier of a deleted timer cancels nothing |
| TimerQueue.DeletedTimersNeverRun | src/net/TimerQueue.cpp:138-244 | a deleted timer does not run on any later run |
| Canceling.CanceledNeverRunsExactly | src/net/TimerQueue.cpp:138-176 | inside callbacks and outside of them, a live timer that is cancelled never runs again if and only if it is active or its callback of this round has begun |
| Canceling.DoomedTimersNeverRun | src/net/TimerQueue.cpp:138-244 | a timer that is deleted, or noted as cancelled after its turn, does not run on any later run |
| Canceling.TurnComes | src/net/TimerQueue.cpp:171-173 | a timer of the batch whose turn is still to come has run when the round is over, whatever is cancelled meanwhile |
| Canceling.PostedCanRun | src/net/TimerQueue.cpp:110-176 | from any state a posted timer can come to its turn |
| Canceling.ActiveCanRun | src/net/TimerQueue.cpp:156-176 | so can a pending one |
| Canceling.CanceledInTheSameRoundRuns | src/net/TimerQueue.cpp:156-235 | in one `handleRead`, a due timer that an earlier callback cancels runs, and is deleted afterwards |
| Canceling.CanceledByFirstRuns | src/net/TimerQueue.cpp:138-176 | a run from the start in which this happens |
| Canceling.CanceledPostRuns | src/net/TimerQueue.cpp:138-154 | a run from the start in which a posted timer is cancelled before it is added, and runs |
| EventLoop.EventLoop.Wakeup | src/net/EventLoop.cpp:194-202 | after a wakeup the counter is positive, also when it was full |
| EventLoop.EventLoop.HandleRead | src/net/EventLoop.cpp:205-213 | reading empties the counter |
| EventLoop.EventLoop.QueueInLoop | src/net/EventLoop.cpp:153-167 | the functor comes last; there is a wakeup from other threads and while functors run |
| EventLoop.EventLoop.Quit | src/net/EventLoop.cpp:109-124 | `quit_` is set; there is a wakeup from other threads only |
| EventLoop.EventLoop.SwapFunctors | src/net/EventLoop.cpp:224-227 | under the lock, all queued functors are taken and none is left |
| EventLoop.EventLoop.DoPendingFunctors | src/net/EventLoop.cpp:216-233 | exactly the functors queued before run, in order; what they queue stays queued, and then the next poll does not block |
| EventLoop.StepKeepsInv | src/net/EventLoop.cpp:80-233 | every step of every thread keeps the wakeup invariant and the order of the functors |
| EventLoop.NoLostWakeupExactly | src/net/EventLoop.cpp:80-233 | on every interleaving, a loop in poll with functors pending, or with `quit_` set by another thread, has a positive counter or a thread about to write it, if and only if that is so as the loop starts |
| EventLoop.RunDoesWhatIsAsked | src/net/EventLoop.cpp:109-233 | on every run, exactly the functors that its threads push have been queued, in that order; `quit_` is set if and only if it was or a thread sets it; as many functors have run as had a turn; the eventfd is readable if and only if it was written since it was last read |
| EventLoop.FunctorsRunInOrder | src/net/EventLoop.cpp:153-233 | the functors that have run are the first of those queued and pushed, in order, each once, as many as had a turn; the others are swapped out and waiting, or in the queue |
| EventLoop.SwapTakesAll | src/net/EventLoop.cpp:224-227 | the swap takes every functor pushed so far that has not run, and they run next |
| EventLoop.LoopEndsExactly | src/net/EventLoop.cpp:80-101 | the loop ends only if somebody asked it to, and at the test of `quit_` if and only if somebody has |
| EventLoop.ReportedWakeupIsRead | src/net/EventLoop.cpp:205-213 | a wakeup that the poll reports is read before the functors are swapped out |
| TcpServer.TcpServer.constructor | src/net/TcpServer.cpp:14-24 | a server without connections |
| TcpServer.TcpServer.NewConnection | src/net/TcpServer.cpp:54-80 | a connection with a new number enters the map, and is established at once or by a functor of its loop |
| TcpServer.TcpServer.RemoveConnectionInLoop | src/net/TcpServer.cpp:90-101 | the entry, which is there, is erased and the teardown queued on the connection's loop |
| TcpServer.TcpServer.HandleClose | src/net/TcpConnection.cpp:169-178 | closing on the accept loop removes at once, on another loop by a functor, with the source's assertions |
| TcpServer.TcpServer.RunNextFunctor | src/net/EventLoop.cpp:229-231 | a functor of a connection does what it is for, with the source's assertions |
| TcpServer.TcpServer.ConnectEstablished | src/net/TcpConnection.cpp:106-120 | the connection is connected and its channel registered |
| TcpServer.TcpServer.ConnectDestroyed | src/net/TcpConnection.cpp:189-200 | the connection is disconnected and its channel removed |
| TcpServer.StepKeepsInv | src/net/TcpServer.cpp:54-101 | each step of each loop keeps every connection in one of five stages, told by its state, its map entry, its registration and the functors that are queued for it |
| TcpServer.StepPassesAssertions | src/net/TcpServer.cpp:95-98 | the assertions at a step hold: the erase finds one entry, the states are the expected ones |
| TcpServer.LifeCycle | src/net/TcpServer.cpp:54-101 | on every interleaving in which no close callback fires twice: all assertions hold, handlers run only between establishing and teardown, a registered channel has an owner, a connection is deleted only after one `connectDestroyed` and never inside its handler; `Closing.CarefulRunsCloseOnce` says when that is so |
| TcpServer.UnownedIsDone | src/net/Channel.cpp:23-26 | a connection without an owner has been torn down and no loop is handling it |
| TcpServer.QuietServerHasNoLeftovers | src/net/TcpServer.cpp:54-101 | when no functor is queued, each connection is open, or torn down exactly once |
| TcpServer.ServedByChosenLoop | src/net/TcpServer.cpp:70-79 | on every run, a connection is served by the loop that was chosen when it was accepted |
| TcpServer.ExistsUntilFreed | src/net/TcpServer.cpp:54-80 | a connection exists if and only if it has been accepted and not been deleted |
| TcpServer.QueuedFunctorsGetTheirTurn | src/net/EventLoop.cpp:216-233 | once a loop has run its handlers, every functor queued for it has its turn before it sleeps again: the connection is established, erased or torn down, and no assertion is in the way |
| TcpServer.SecondCloseFails | src/net/TcpServer.cpp:90-98 | if a close callback does fire twice, the erase fails to find its entry, at once or when the accept loop drains its queue |
| TcpServer.ExcessRemovalFails | src/net/TcpServer.cpp:95-98 | a removal beyond the map's entry fails whatever is queued before it |
| Closing.StepKeepsCalm | src/net/TcpConnection.cpp:169-178 | a careful step is no second close, and a closed connection is still not reported again unless it is torn down first |
| Closing.CarefulRunsCloseOnce | src/net/TcpServer.cpp:54-101 | on every run in which no dispatch closes twice and no send leaves output behind on a closed connection that its loop does not tear down before it polls again, no close callback fires twice |
| Closing.CarefulLifeCycle | src/net/TcpServer.cpp:54-101 | on every such run all assertions hold, each connection closes at most once, a registered channel has an owner, and a connection is deleted only after one `connectDestroyed` |
| Closing.AcceptLoopSendsAreCareful | src/net/TcpServer.cpp:84-101 | on the accept loop no send does harm: a closed connection is torn down before the next poll |
| Closing.ServerFollowsConnection | src/net/TcpConnection.cpp:51-200 | the server's record of a connection is that of the connection itself, step by step; a send leaves output behind as its message and write(2) have it |
| Closing.WritingIsNotSeen | src/net/TcpConnection.cpp:139-166 | writing out output of an open connection does not change the record |
| Closing.LateSendIsCarefulExactly | src/net/TcpConnection.cpp:51-81 | a send on a closed connection that is not torn down in time is careful if and only if the socket takes all of its message at once |
| Closing.CarefulExactly | src/net/TcpConnection.cpp:51-81 | both conditions are needed: after a step that breaks one of them there is a run, without another such step, in which a close callback fires twice; after any other step there is none |
| Closing.DispatchFails | src/net/Channel.cpp:43-54 | a run from the start in which one dispatch closes twice |
| Closing.LateSendFails | src/net/TcpConnection.cpp:51-81 | a run from the start in which every dispatch closes at most once, and a send between two hang-ups makes the second one close again |
| Closing.SecondCloseIsCaught | src/net/TcpServer.cpp:90-98 | on every run with a second close an assertion fails there, or when the accept loop drains its queue |
| TcpConnection.TcpConnection.constructor | src/net/TcpConnection.cpp:14-29 | a new connection is connecting, with empty buffers and no interest |
| TcpConnection.TcpConnection.SendInLoop | src/net/TcpConnection.cpp:51-81 | a direct write only when nothing is waiting; the rest is appended to the output and write interest is on |
| TcpConnection.TcpConnection.WriteAtOnce | src/net/TcpConnection.cpp:57-71 | the socket took a part of the message, and if it took all the callback is queued |
| TcpConnection.TcpConnection.KeepRest | src/net/TcpConnection.cpp:75-80 | the rest is appended to the output, and write interest is on |
| TcpConnection.TcpConnection.Send | src/net/TcpConnection.cpp:39-49 | messages count only while connected |
| TcpConnection.TcpConnection.Shutdown | src/net/TcpConnection.cpp:83-90 | disconnecting, and the half-close if nothing is being written |
| TcpConnection.TcpConnection.ShutdownInLoop | src/net/TcpConnection.cpp:92-99 | half-closed if and only if write interest is off |
| TcpConnection.TcpConnection.HandleWrite | src/net/TcpConnection.cpp:139-166 | what the socket took leaves the output; when it is empty, write interest goes off and the callback is queued |
| TcpConnection.TcpConnection.HandleRead | src/net/TcpConnection.cpp:122-136 | the bytes read are appended to the input; no bytes close, an error changes nothing |
| TcpConnection.TcpConnection.HandleClose | src/net/TcpConnection.cpp:169-178 | all interest is off |
| TcpConnection.TcpConnection.ConnectEstablished | src/net/TcpConnection.cpp:106-120 | connected and reading |
| TcpConnection.TcpConnection.ConnectDestroyed | src/net/TcpConnection.cpp:189-200 | disconnected without interest |
| TcpConnection.StepKeepsOrder | src/net/TcpConnection.cpp:51-166 | accepted bytes ++ output grow by exactly the message sent, at every step |
| TcpConnection.StreamOrder | src/net/TcpConnection.cpp:51-166 | on every run, accepted bytes ++ output are the messages sent, in order; until the close, write interest is on exactly when output is pending, and a half-closed socket has taken everything |
| TcpConnection.AcceptedIsWhatWasSent | src/net/TcpConnection.cpp:40-200 | on every run, accepted bytes ++ output are the messages sent between the establishment and the first shutdown or teardown; the connection reads from its establishment to its close or teardown |
| TcpConnection.StepTakesExactly | src/net/TcpConnection.cpp:55-166 | a step writes to the socket if and only if it is a send while connected with nothing waiting, or a writable event with write interest on, and counts exactly the bytes taken |
| TcpConnection.StepCompletesExactly | src/net/TcpConnection.cpp:55-166 | the write-complete callback is queued if and only if such a write takes the whole message, or all of a non-empty output |
| TcpConnection.CompleteMeansDrained | src/net/TcpConnection.cpp:51-166 | a write-complete callback is queued only by a step that leaves nothing pending and everything so far accepted |
| TcpConnection.ShutdownHalfClosesExactly | src/net/TcpConnection.cpp:83-99 | `shutdown` half-closes at once if and only if nothing is pending |
| TcpConnection.SendTurnsWritingOnExactly | src/net/TcpConnection.cpp:55-80 | with write interest off, a send turns it on if and only if a byte is left over; after a close too, and this is when a late send does harm |
| TcpConnection.HalfCloseIsLost | src/net/TcpConnection.cpp:147-156 | a half-close that was put off never happens, on any run |
| TcpConnection.HalfClosedExactly | src/net/TcpConnection.cpp:83-166 | at any time after `shutdown` the socket is half-closed if and only if nothing was being written when it was called; before a close, if and only if nothing was pending |
| TcpConnection.DrainedButNotHalfClosed | src/net/TcpConnection.cpp:139-166 | a run in which all of a message is taken after `shutdown` and the socket is not half-closed |
| TcpConnection.ClosesTwiceExactly | src/net/Channel.cpp:43-54 | one dispatch closes twice if and only if there is a hang-up without readable data and the read finds the end |
| Connector.Connector.constructor | src/net/Connector.cpp:15-23 | disconnected, with the first delay |
| Connector.Connector.Connect | src/net/Connector.cpp:50-88 | by the error number: connecting, retry, or close |
| Connector.Connector.StartConnecting | src/net/Connector.cpp:105-113 | connecting with a new channel, where there was none |
| Connector.Connector.StartInLoop | src/net/Connector.cpp:38-47 | connects if wanted |
| Connector.Connector.Start | src/net/Connector.cpp:32-36 | wants a connection and starts |
| Connector.Connector.Restart | src/net/Connector.cpp:90-97 | starts over with the first delay |
| Connector.Connector.Stop | src/net/Connector.cpp:99-103 | no longer wants a connection; the retry is cancelled, unless it is due and its turn is still to come |
| Connector.Connector.RemoveAndResetChannel | src/net/Connector.cpp:115-124 | the channel is not watched any more and its reset is queued |
| Connector.Connector.HandleWrite | src/net/Connector.cpp:132-166 | an error or a connection to itself retries; otherwise the socket is handed over, or closed if no longer wanted |
| Connector.Connector.HandleError | src/net/Connector.cpp:169-177 | the attempt is given up and retried |
| Connector.Connector.Retry | src/net/Connector.cpp:180-194 | the socket is closed; if wanted, a retry is scheduled and the delay doubled up to the maximum |
| Connector.Connector.HandleEvent | src/net/Channel.cpp:36-61 | the handlers of one event, in the order of the dispatch |
| Connector.StepKeepsInv | src/net/Connector.cpp:32-194 | every step keeps the invariant and passes the source's assertions |
| Connector.SocketsDisposedOnce | src/net/Connector.cpp:50-194 | on every run, each socket is closed or handed over exactly once, except one that neither happened to, which is the one that is connecting |
| Connector.DelaysDoubleUpToMaximum | src/net/Connector.cpp:180-194 | on every run, the k-th delay since construction or restart is min(500 * 2^k, 30000) |
| Connector.AssertionsAlwaysHold | src/net/Connector.cpp:38-177 | on every run on which `start` and `restart` come when they are safe, the assertions about state and channel hold |
| Connector.StartIsSafeExactly | src/net/Connector.cpp:32-47 | after a `start`, whatever connect(2) answers and whatever follows, all assertions hold if and only if the connector was disconnected without a queued reset and without a retry still to fire |
| Connector.RestartIsSafeExactly | src/net/Connector.cpp:90-97 | after a `restart`, if and only if there was no channel and no retry still to fire |
| Connector.StopAndStartFails | src/net/Connector.cpp:38-41 | a stop that comes too late for its retry, then a start: the retry finds an attempt in progress |
| Connector.EventDisposesAtMostOnce | src/net/Channel.cpp:48-58 | an event disposes of its socket once if it is an error or writable or both, and otherwise not |
| Connector.EventOutcome | src/net/Connector.cpp:132-194 | an event hands the socket over if and only if it is writable without an error, the probe shows no error and no connection to itself, and a connection is wanted; it closes the socket in every other case that disposes of it, and schedules a retry exactly for the failures while wanted |
| Connector.ConnectOutcome | src/net/Connector.cpp:50-88 | for every error number: the socket is being connected with a watched channel, or closed with a retry exactly if wanted, or closed without one |
| Connector.MakesSocketExactly | src/net/Connector.cpp:32-97 | a socket is made by `start`, by `restart` and by a retry that fires while a connection is wanted, and by nothing else |
| Connector.StartsAttempt | src/net/Connector.cpp:32-97 | these make an attempt; `restart` starts over with the first delay |
| Connector.StoppedStaysStopped | src/net/Connector.cpp:99-194 | after `stop`, until the next `start` or `restart`, no socket is made and none is handed over, on any run, and no retry can fire unless it was due already |
| Channel.Dispatch | src/net/Channel.cpp:36-61 | exactly the installed callbacks that the mask calls for, in the order close, error, read, write |
| Channel.Channel.HandleEvent | src/net/Channel.cpp:36-61 | the handler runs this dispatch |
| EPoller.EPoller.constructor | src/net/EPoller.cpp:31-39 | nothing is registered or watched |
| EPoller.EPoller.Adopt | src/net/EPoller.cpp:87-110 | a channel made later can be registered too, also with a descriptor that another channel had before |
| EPoller.EPoller.Update | src/net/EPoller.cpp:153-168 | `epoll_ctl`; callers have to show that it finds what it needs |
| EPoller.EPoller.AddChannel | src/net/EPoller.cpp:94-110 | a new or deleted channel is added to the kernel's set, with the source's assertions; the descriptor of a new one must not be in use |
| EPoller.EPoller.ChangeChannel | src/net/EPoller.cpp:111-128 | an added channel is modified, or taken out if it wants nothing |
| EPoller.EPoller.UpdateChannel | src/net/EPoller.cpp:87-129 | afterwards the kernel watches exactly the added channels, each for its events, and `channels_` is exactly the added and deleted ones |
| EPoller.EPoller.RemoveChannel | src/net/EPoller.cpp:131-150 | the channel is in neither table any more, and the others stay in step with the kernel |
| EPoller.EPoller.EnableReading | src/net/Channel.h:71-74 | the channel is added, for reading too |
| EPoller.EPoller.EnableWriting | src/net/Channel.h:76-79 | the channel is added, for writing too |
| EPoller.EPoller.DisableWriting | src/net/Channel.h:81-84 | without interest in writing, in step with the kernel |
| EPoller.EPoller.DisableAll | src/net/Channel.h:86-89 | without interest; the kernel watches it only if it did not before |
| EPoller.EPoller.FillActiveChannels | src/net/EPoller.cpp:69-85 | each event goes to the registered channel that it was reported for |
| EPoller.EPoller.Poll | src/net/EPoller.cpp:46-66 | the event list doubles exactly when it was full |
| Poller.Poller.constructor | src/net/Poller.cpp:11-13 | no slot and no channel |
| Poller.Poller.Adopt | src/net/Poller.cpp:60-74 | a channel made later can be registered too |
| Poller.Poller.AddChannel | src/net/Poller.cpp:64-74 | a slot at the end, to which the channel's index points |
| Poller.Poller.ChangeChannel | src/net/Poller.cpp:75-89 | the slot at the index gets the events; it is negated if there are none |
| Poller.Poller.UpdateChannel | src/net/Poller.cpp:60-90 | slots and channels stay in bijection, and no other slot changes |
| Poller.Poller.EraseChannel | src/net/Poller.cpp:107-111 | the channel leaves the map; exactly its slot has no channel |
| Poller.Poller.RemoveChannel | src/net/Poller.cpp:92-129 | the last slot takes the removed one's place, the bijection holds, and the channel is retired for good |
| Poller.Poller.MoveLastTo | src/net/Poller.cpp:118-126 | the moved slot's channel, by its descriptor or the negated one, gets the new index |
| Poller.WithoutSlotDropsOne | src/net/Poller.cpp:113-127 | exactly the one slot is dropped |
| Poller.MayUpdateExactly | src/net/Poller.cpp:60-90 | a channel passes the assertions of `updateChannel` if and only if it has not been removed and its descriptor is not another registered channel's |
| Poller.Poller.FillActiveChannels | src/net/Poller.cpp:42-57 | leaving early finds the channels of the first active slots, and all of them with the true count |
| Poller.ActiveSlotsFilter | src/net/Poller.cpp:42-57 | that is: every slot with events, once, in order, and no other |
| Poller.WatchedUntilDisabled | src/net/Poller.cpp:81-88 | after any updates a slot is watched if and only if none of them wanted nothing; it has the events of the last one and no events reported before |
| AsyncLogging.Logger.constructor | src/base/logging/AsyncLoggingDoubleBuffering.h:27-45 | an empty current and an empty next buffer |
| AsyncLogging.Logger.Append | src/base/logging/AsyncLoggingDoubleBuffering.h:55-77 | a line goes into the current buffer or into a fresh one after the current one is full; then the back end is notified |
| AsyncLogging.Logger.Swap | src/base/logging/AsyncLoggingDoubleBuffering.h:112-125 | all buffers go to the back end, and its spare ones to the front |
| AsyncLogging.WriteAndRecycle | src/base/logging/AsyncLoggingDoubleBuffering.h:127-163 | the round writes its batch, or the message and the last two buffers; the source's assertions hold and the spare buffers are the recycled ones |
| AsyncLogging.RecycledExactly | src/base/logging/AsyncLoggingDoubleBuffering.h:129-161 | dropping, keeping two and taking from the end yields two empty spare buffers if and only if the batch is long enough for those that are missing |
| AsyncLogging.WriteAll | src/base/logging/AsyncLoggingDoubleBuffering.h:137-141 | the buffers are written in order |
| AsyncLogging.StepKeepsInv | src/base/logging/AsyncLoggingDoubleBuffering.h:55-163 | every step of either side keeps ownership, whole lines and the file's contents |
| AsyncLogging.NothingIsLostOrSplit | src/base/logging/AsyncLoggingDoubleBuffering.h:55-141 | on every interleaving, the buffers of all rounds, the full ones and the current one are the accepted lines, whole and in order, and the file has what the rounds wrote |
| AsyncLogging.FilePlusPendingIsEverything | src/base/logging/AsyncLoggingDoubleBuffering.h:112-141 | without a round of more than 25 buffers, file ++ batch ++ full buffers ++ current buffer are all accepted lines |
| AsyncLogging.SparesAreThere | src/base/logging/AsyncLoggingDoubleBuffering.h:106-163 | on every interleaving, a round starts with two empty spare buffers and has buffers to take back |
| AsyncLogging.LineGoesWhereItFits | src/base/logging/AsyncLoggingDoubleBuffering.h:55-77 | a line goes into the current buffer if and only if room for one character more is left then, otherwise into a fresh one if it fits there at all |
| AsyncLogging.BuffersNeverOverflow | src/base/logging/AsyncLoggingDoubleBuffering.h:55-125 | on every interleaving, no buffer is as full as its memory |
| AsyncLogging.RoundWritesTheEnd | src/base/logging/AsyncLoggingDoubleBuffering.h:129-141 | a round of at most 25 buffers writes all of them; a longer one writes the message and then exactly the contents of its last two buffers, which are the end of the batch |
| AsyncLogging.RoundsWriteTheirLines | src/base/logging/AsyncLoggingDoubleBuffering.h:55-141 | on every interleaving, each round writes exactly the accepted lines of its own buffers, or the message and those of its last two; so the lines missing from the file are the older ones of rounds of more than 25 buffers |
| AsyncLogging.OutputsFollowEachOther | src/base/logging/AsyncLoggingDoubleBuffering.h:137-141 | the file is the outputs of the rounds, one after another |
| LogStream.DecimalRoundTrip | src/base/logging/LogStream.cpp:28-49 | reading a printed integer gives it back; no leading zero, no minus before zero |
| LogStream.NumeralHasValue | src/base/logging/LogStream.cpp:51-67 | reading a decimal or hexadecimal numeral gives its number |
| LogStream.NoLeadingZero | src/base/logging/LogStream.cpp:28-67 | a numeral starts with zero only if it is "0" |
| LogStream.NumeralLength | src/base/logging/LogStream.cpp:92-98 | a number below the k-th power of the base has at most k digits |
| LogStream.DigitStep | src/base/logging/LogStream.cpp:20-39 | the table centred on '0' gives the right digit for remainders of either sign, also for the least value |
| LogStream.ConvertDigits | src/base/logging/LogStream.cpp:34-39 | the loop writes the digits of the absolute value, least first, at most 20 |
| LogStream.Convert | src/base/logging/LogStream.cpp:28-49 | for every 64-bit value, signed or not, the text and its NUL fit into 32 characters |
| LogStream.ConvertHex | src/base/logging/LogStream.cpp:51-67 | the hexadecimal numeral and a NUL, at most 16 digits |
| LogStream.ConvertHexDigits | src/base/logging/LogStream.cpp:56-61 | the loop writes the digits, least first |
| LogStream.Reverse | src/base/logging/LogStream.cpp:46 | the part is reversed in place and nothing else changes |
| LogStream.FixedBuffer.constructor | src/base/logging/LogStream.h:24-28 | empty |
| LogStream.FixedBuffer.Append | src/base/logging/LogStream.h:35-42 | all of it, or nothing without room for one character more |
| LogStream.FixedBuffer.Reset | src/base/logging/LogStream.h:52 | empty |
| LogStream.FixedBuffer.FormatInteger | src/base/logging/LogStream.cpp:100-108 | the integer's text is appended, or nothing; the end is never passed |
| LogStream.FixedBuffer.FormatPointer | src/base/logging/LogStream.cpp:158-170 | "0x" and the numeral are appended, or nothing |
| Buffer.Buffer.constructor | src/net/Buffer.h:30-38 | empty, with 1024 writable and 8 prependable bytes |
| Buffer.Buffer.Retrieve | src/net/Buffer.h:54-57 | takes from the front |
| Buffer.Buffer.RetrieveUntil | src/net/Buffer.h:60-64 | takes what is before a position |
| Buffer.Buffer.RetrieveAll | src/net/Buffer.h:67-70 | empties the queue |
| Buffer.Buffer.RetrieveAsString | src/net/Buffer.h:73-78 | returns the contents and empties the queue |
| Buffer.Buffer.MakeSpace | src/net/Buffer.h:148-161 | the contents survive; they move within the array if and only if that makes enough room, and then the source's assertions hold |
| Buffer.Buffer.EnsureWritableBytes | src/net/Buffer.h:99-105 | room for the bytes, and the contents as before |
| Buffer.Buffer.HasWritten | src/net/Buffer.h:115-116 | the bytes behind the contents become contents |
| Buffer.Buffer.Append | src/net/Buffer.h:86-91 | adds at the end, growing or relocating as needed |
| Buffer.Buffer.Prepend | src/net/Buffer.h:119-124 | adds at the front |
| Buffer.Buffer.Shrink | src/net/Buffer.h:127-131 | the contents are at the cheap prepend area of a new array, and the rest of it is NUL; the indices are valid if and only if the reader was not too far up, and then the queue is the same if and only if the reader was at the cheap prepend area or the contents are all NUL |
| Buffer.ShrinkLosesContents | src/net/Buffer.h:127-131 | two bytes behind one that was read: the first of them is lost |
| Buffer.Buffer.ReadFd | src/net/Buffer.cpp:11-30 | whatever was read, into one area or two, is appended; an error changes nothing |
| Buffer.CopyDown | src/net/Buffer.h:156 | copying to an overlapping lower position keeps the bytes |
| Buffer.Perform | src/net/Buffer.h:54-124 | each operation does to the array what it does to the byte queue |
| Buffer.Replay | src/net/Buffer.h:54-161 | over any sequence of operations the array and its indices behave as the byte queue |
| Buffer.BytesAreConserved | src/net/Buffer.h:54-124 | every byte that came in is in the queue or went out, as often as it came, for any operations |
| Buffer.FirstInFirstOut | src/net/Buffer.h:54-124 | without prepending, bytes leave in the order in which they came |
| BoundedBlockingQueue.LockedQueue.PutSection | src/base/thread/BoundedBlockingQueue.h:33-43 | under the lock, a value is added if and only if there is a free place |
| BoundedBlockingQueue.LockedQueue.TakeSection | src/base/thread/BoundedBlockingQueue.h:45-57 | under the lock, the oldest value is taken if there is one |
| BoundedBlockingQueue.StepKeepsInv | src/base/thread/BoundedBlockingQueue.h:33-57 | every step of every thread, with spurious wakeups and threads that overtake, keeps bound, order and signals |
| BoundedBlockingQueue.FirstInFirstOut | src/base/thread/BoundedBlockingQueue.h:33-57 | on every run, takes return puts in order, at most the capacity behind |
| BoundedBlockingQueue.NoSignalIsMissing | src/base/thread/BoundedBlockingQueue.h:33-57 | on every run, while a consumer waits the size is at most the number of woken consumers; likewise for producers and free places |
| BoundedBlockingQueue.SleepersHaveAReason | src/base/thread/BoundedBlockingQueue.h:33-57 | with nobody woken, consumers wait only on an empty queue and producers on a full one, never both |
| BoundedBlockingQueue.OperationsHappenAtOnce | src/base/thread/BoundedBlockingQueue.h:33-57 | on every run, the queue is one whose operations happen at once: a put returns when, and only when, it has entered the value it was called with, at one of its own tries; a take when it has taken the oldest value |
| BoundedBlockingQueue.WaitEndsExactly | src/base/thread/BoundedBlockingQueue.h:33-57 | a wait ends at a wakeup of its own, or at a put or take whose notification reaches it, and at nothing else; then the thread tries again |
| BoundedBlockingQueue.WaitsExactly | src/base/thread/BoundedBlockingQueue.h:33-57 | a thread waits after its try if and only if it found the queue full, or empty |
| SignalSlot.SignalImpl.CopyOnWrite | src/base/thread/SignalSlot.h:32-40 | afterwards no call refers to the signal's list, which has the same slots |
| SignalSlot.EraseAll | src/base/thread/SignalSlot.h:46-58 | the loop that erases leaves exactly the live slots, in order |
| SignalSlot.SignalImpl.EraseExpired | src/base/thread/SignalSlot.h:42-59 | only the list that the signal refers to changes, and it keeps exactly its live slots |
| SignalSlot.SignalImpl.Clean | src/base/thread/SignalSlot.h:42-59 | expired slots leave the signal's list and no list in use |
| SignalSlot.SignalImpl.Add | src/base/thread/SignalSlot.h:171-179 | a slot comes last in the signal's list and in no list in use |
| SignalSlot.ListsInUseStay | src/base/thread/SignalSlot.h:32-59 | no step modifies or frees a list that a call iterates over |
| SignalSlot.StepKeepsInv | src/base/thread/SignalSlot.h:32-179 | every step keeps lists in connection order, live slots listed and calls on their snapshots |
| SignalSlot.CallsVisitTheirSnapshot | src/base/thread/SignalSlot.h:138-167 | on every interleaving, a call visits exactly the slots of its snapshot, in connection order |
| SignalSlot.TurnsRunLiveSlots | src/base/thread/SignalSlot.h:147-166 | a turn runs the callback if and only if the slot and its tie object are alive then, and keeps the slot alive meanwhile |
| SignalSlot.NewCallsSeeLiveSlots | src/base/thread/SignalSlot.h:138-145 | a call that begins has every live slot in its snapshot |
| SignalSlot.ConnectHandsOutANewSlot | src/base/thread/SignalSlot.h:122-136 | connecting makes a new slot, which its user holds, at the end of the list |
| SignalSlot.HandlesExactly | src/base/thread/SignalSlot.h:97-101 | over any run, a slot keeps its handle if and only if nobody drops it, and its tie object lives on if and only if it does not die |
| SignalSlot.ConnectedUntilDropped | src/base/thread/SignalSlot.h:97-101 | a slot stays connected for the lifetime of its handle, whatever else happens |
| SignalSlot.CleaningDropsTheExpired | src/base/thread/SignalSlot.h:42-59 | cleaning drops exactly the slots that have expired, and keeps the others in order |
| SignalSlot.ConnectedSlotsRunOnce | src/base/thread/SignalSlot.h:138-167 | a call runs the callback of every slot that stays connected, with its tie object, until the call ends, and exactly once, whatever the other threads and callbacks do |
| SignalSlot.NoListLeaks | src/base/thread/SignalSlot.h:32-59 | on every interleaving, every list in memory is the signal's or in use by a call |

## Left out

- System calls, sockets, addresses, `Acceptor`, `Socket`, `SocketsOps`, `InetAddress`: their results are parameters of steps.
- `LogFile`, `Logging`, formatted timestamps and the printing of `double`: file and library work.
- Reading the bytes of a TZif file: the model starts from the transition times, type indices and types that were read.
- The names of zones (`tm_zone`), and `gmtime_r` and `timegm`, for which the model has the repository's own UTC functions.
- Overflow and narrowing of integers, except where `Date.DecodingFitsInt32` speaks of them: times are unbounded integers.
- Rounding of `double`: a timer's interval is a real number, converted to microseconds by truncation.
- Different clocks for timestamps and the timerfd: there is one clock, which does not go back.
- A timer that another thread cancels: that is a cancellation by the loop at a later step.
- Destructors of servers, loops, queues and connectors, and what they do to objects still in use.
- `EventLoopThreadPool`, `TcpClient`, `ThreadPool`, singletons, thread-locals and mutex wrappers: easy or library-bound.
- Names of connections: a connection is its number. `send` and `shutdown` by threads other than the connection's loop.
- Memory-model effects of the unsynchronised flags `quit_` and `running_`: each access is one step.
- The logger's last buffers when it is stopped: the source does not write them.
- The lock and the two conditions of the bounded queue as library objects: a critical section is one step.
- AsyncLogging.WriteAndRecycle: buffers are values, so that reuse of the same memory is not visible, only that the buffers are there and empty.
- SignalSlot.SignalImpl.Clean: the cleaning done by a slot's destructor is a step of its own, at any later time.
