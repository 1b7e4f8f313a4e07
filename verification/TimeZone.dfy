/**
 Time zones: splitting and joining UTC times, looking a moment up in a zone's transitions,
 and the conversion from local time back to UTC, with its correction for the repeated hour.
 */
module TimeZone {
  import opened Date

  const SECONDS_PER_DAY := 24 * 60 * 60

  /** The fields of `struct tm` that the conversions read or write, except the zone's name. */
  datatype Tm = Tm(year: int, mon: int, mday: int, hour: int, min: int, sec: int,
                   wday: int, yday: int, isdst: bool, gmtoff: int)

  // ----- UTC -----

  function FillHms(seconds: nat, tm: Tm): Tm {
    var minutes := seconds / 60;
    tm.(sec := seconds % 60, min := minutes % 60, hour := minutes / 60)
  }

  function ToUtcTime(secondsSinceEpoch: int, yday: bool): Tm {
    var remainder := Rem(secondsSinceEpoch, SECONDS_PER_DAY);
    var quotient := Quot(secondsSinceEpoch, SECONDS_PER_DAY);
    var seconds := if remainder < 0 then remainder + SECONDS_PER_DAY else remainder;
    var days := if remainder < 0 then quotient - 1 else quotient;
    var jdn := days + JULIAN_DAY_OF_1970_01_01;
    var ymd := FromJulianDayNumber(jdn);
    var dayOfYear := if yday then jdn - JulianDayNumber(YearMonthDay(ymd.year, 1, 1)) else 0;
    assert 0 <= seconds by { SplitDay(secondsSinceEpoch); }
    FillHms(seconds, Tm(ymd.year - 1900, ymd.month - 1, ymd.day, 0, 0, 0, WeekDay(jdn), dayOfYear, false, 0))
  }

  function DateOf(tm: Tm): YearMonthDay {
    YearMonthDay(tm.year + 1900, tm.mon + 1, tm.mday)
  }

  function FromUtcTime(tm: Tm): int {
    (JulianDayNumber(DateOf(tm)) - JULIAN_DAY_OF_1970_01_01) * SECONDS_PER_DAY
    + (tm.hour * 3600 + tm.min * 60 + tm.sec)
  }

  const MIN_SECONDS := (FIRST_JULIAN_DAY - JULIAN_DAY_OF_1970_01_01) * SECONDS_PER_DAY

  predicate ValidClock(tm: Tm) {
    0 <= tm.hour < 24 && 0 <= tm.min < 60 && 0 <= tm.sec < 60
  }

  /** The two corrections after the C++ division make it a floor division. */
  lemma SplitDay(t: int)
    ensures Quot(t, SECONDS_PER_DAY) == (if Rem(t, SECONDS_PER_DAY) < 0 then t / SECONDS_PER_DAY + 1 else t / SECONDS_PER_DAY)
    ensures Rem(t, SECONDS_PER_DAY) == (if Rem(t, SECONDS_PER_DAY) < 0 then t % SECONDS_PER_DAY - SECONDS_PER_DAY else t % SECONDS_PER_DAY)
  {
  }

  /** The day and the time of day of a moment, without the C++ detour. */
  lemma UtcFields(t: int, yday: bool)
    ensures var tm := ToUtcTime(t, yday);
            && DateOf(tm) == FromJulianDayNumber(t / SECONDS_PER_DAY + JULIAN_DAY_OF_1970_01_01)
            && ValidClock(tm) && tm.hour * 3600 + tm.min * 60 + tm.sec == t % SECONDS_PER_DAY
            && tm.wday == WeekDay(t / SECONDS_PER_DAY + JULIAN_DAY_OF_1970_01_01)
            && (!yday ==> tm.yday == 0) && !tm.isdst && tm.gmtoff == 0
  {
    hide FromJulianDayNumber, JulianDayNumber;
    SplitDay(t);
  }

  /** Splitting a moment and joining the parts gives the moment back; the parts are a valid date and time. */
  lemma UtcRoundTrip(t: int, yday: bool)
    requires t >= MIN_SECONDS
    ensures var tm := ToUtcTime(t, yday);
            && ValidDate(DateOf(tm)) && InRange(DateOf(tm)) && ValidClock(tm)
            && FromUtcTime(tm) == t
            && (t >= -SECONDS_PER_DAY * (JULIAN_DAY_OF_1970_01_01 + 1) ==> 0 <= tm.wday < 7)
  {
    hide FromJulianDayNumber, JulianDayNumber;
    UtcFields(t, yday);
    var jdn := t / SECONDS_PER_DAY + JULIAN_DAY_OF_1970_01_01;
    NumberRoundTripExactly(jdn);
    WeekDaysCycle(jdn);
  }

  /** Joining a valid date and time and splitting the moment gives the date and time back. */
  lemma UtcRoundTripBack(tm: Tm, yday: bool)
    requires ValidDate(DateOf(tm)) && InRange(DateOf(tm)) && ValidClock(tm)
    ensures FromUtcTime(tm) >= MIN_SECONDS
    ensures var back := ToUtcTime(FromUtcTime(tm), yday);
            DateOf(back) == DateOf(tm) && back.hour == tm.hour && back.min == tm.min && back.sec == tm.sec
  {
    hide FromJulianDayNumber, JulianDayNumber;
    DateRoundTrip(DateOf(tm));
    var t := FromUtcTime(tm);
    assert t / SECONDS_PER_DAY == JulianDayNumber(DateOf(tm)) - JULIAN_DAY_OF_1970_01_01;
    UtcFields(t, yday);
    ClockIsUnique(tm, ToUtcTime(t, yday));
  }

  lemma ClockIsUnique(x: Tm, y: Tm)
    requires ValidClock(x) && ValidClock(y)
    requires x.hour * 3600 + x.min * 60 + x.sec == y.hour * 3600 + y.min * 60 + y.sec
    ensures x.hour == y.hour && x.min == y.min && x.sec == y.sec
  {
  }

  /** The days in the months of a year before a given one. */
  function DaysInMonthsBefore(year: int, month: int): int
    requires 1 <= month <= 12
    decreases month
  {
    if month == 1 then 0 else DaysInMonthsBefore(year, month - 1) + DaysOfMonth(year, month - 1)
  }

  lemma {:induction false} DaysFromFirstOfMonth(year: int, month: int, day: int)
    requires InRange(YearMonthDay(year, month, 1)) && ValidDate(YearMonthDay(year, month, day))
    ensures JulianDayNumber(YearMonthDay(year, month, day)) == JulianDayNumber(YearMonthDay(year, month, 1)) + day - 1
    decreases day
  {
    hide JulianDayNumber;
    if day > 1 {
      DaysFromFirstOfMonth(year, month, day - 1);
      NextDayIsNextNumber(YearMonthDay(year, month, day - 1));
    }
  }

  lemma {:induction false} DaysFromFirstOfYear(year: int, month: int)
    requires year > -4800 && 1 <= month <= 12
    ensures JulianDayNumber(YearMonthDay(year, month, 1)) == JulianDayNumber(YearMonthDay(year, 1, 1)) + DaysInMonthsBefore(year, month)
    decreases month
  {
    hide JulianDayNumber;
    if month > 1 {
      DaysFromFirstOfYear(year, month - 1);
      var last := YearMonthDay(year, month - 1, DaysOfMonth(year, month - 1));
      DaysFromFirstOfMonth(year, month - 1, last.day);
      NextDayIsNextNumber(last);
    }
  }

  lemma FirstOfJanuary()
    ensures JulianDayNumber(YearMonthDay(-4800, 1, 1)) == FIRST_JULIAN_DAY - 59
  {
  }

  /** The first of January of the year -4800 is encoded a day too late for the days after it. */
  lemma {:induction false} DaysFromMarch(month: int)
    requires 3 <= month <= 12
    ensures JulianDayNumber(YearMonthDay(-4800, month, 1)) + 1
            == JulianDayNumber(YearMonthDay(-4800, 1, 1)) + DaysInMonthsBefore(-4800, month)
    decreases month
  {
    hide JulianDayNumber;
    if month == 3 {
      FirstDayNumber();
      FirstOfJanuary();
      assert DaysInMonthsBefore(-4800, 2) == 31;
    } else {
      DaysFromMarch(month - 1);
      var last := YearMonthDay(-4800, month - 1, DaysOfMonth(-4800, month - 1));
      DaysFromFirstOfMonth(-4800, month - 1, last.day);
      NextDayIsNextNumber(last);
    }
  }

  /** From the first day of the range on, the day of the year counts the days of the months before it if and
      only if the year is not -4800: its first of January is out of the range. */
  lemma DayOfYearExactly(t: int)
    requires t >= MIN_SECONDS
    ensures var tm := ToUtcTime(t, true);
            && 1 <= DateOf(tm).month <= 12
            && (tm.yday == DaysInMonthsBefore(DateOf(tm).year, DateOf(tm).month) + tm.mday - 1 <==> DateOf(tm).year != -4800)
  {
    hide FromJulianDayNumber, JulianDayNumber;
    UtcFields(t, true);
    UtcRoundTrip(t, true);
    var date := DateOf(ToUtcTime(t, true));
    var jdn := t / SECONDS_PER_DAY + JULIAN_DAY_OF_1970_01_01;
    NumberRoundTripExactly(jdn);
    SplitDay(t);
    DaysFromFirstOfMonth(date.year, date.month, date.day);
    if date.year == -4800 {
      DaysFromMarch(date.month);
    } else {
      DaysFromFirstOfYear(date.year, date.month);
    }
  }

  // ----- Zones -----

  datatype Transition = Transition(gmttime: int, localtime: int, localtimeIdx: nat) {
    function Key(gmt: bool): int {
      if gmt then gmttime else localtime
    }
  }

  datatype Localtime = Localtime(gmtOffset: int, isDst: bool)

  datatype Data = Data(transitions: seq<Transition>, localtimes: seq<Localtime>)

  /** The zone has a type to fall back on, and its transitions name types it has. */
  predicate ValidData(data: Data) {
    |data.localtimes| > 0 && forall i :: 0 <= i < |data.transitions| ==> data.transitions[i].localtimeIdx < |data.localtimes|
  }

  predicate SortedBy(ts: seq<Transition>, gmt: bool) {
    forall i, j :: 0 <= i < j < |ts| ==> ts[i].Key(gmt) < ts[j].Key(gmt)
  }

  /** Building the transitions of a zone from the times and type indices read from its file. */
  method BuildTransitions(trans: seq<int>, localIdx: seq<nat>, localtimes: seq<Localtime>) returns (transitions: seq<Transition>)
    requires |localIdx| == |trans|
    requires forall i :: 0 <= i < |trans| ==> localIdx[i] < |localtimes|
    ensures |transitions| == |trans|
    ensures forall i :: 0 <= i < |trans| ==>
                          transitions[i] == Transition(trans[i], trans[i] + localtimes[localIdx[i]].gmtOffset, localIdx[i])
  {
    transitions := [];
    for i := 0 to |trans|
      invariant |transitions| == i
      invariant forall k :: 0 <= k < i ==>
                              transitions[k] == Transition(trans[k], trans[k] + localtimes[localIdx[k]].gmtOffset, localIdx[k])
    {
      transitions := transitions + [Transition(trans[i], trans[i] + localtimes[localIdx[i]].gmtOffset, localIdx[i])];
    }
  }

  /** What the loop above promises: local times are taken with the offset that starts at the transition. */
  predicate Consistent(data: Data)
    requires ValidData(data)
  {
    forall i :: 0 <= i < |data.transitions| ==> data.transitions[i].localtime == data.transitions[i].gmttime + OffsetAfter(data, i)
  }

  // ----- The search -----

  /** The latest transition at or before a moment, searched linearly; -1 when there is none. */
  function Latest(ts: seq<Transition>, key: int, gmt: bool): (r: int)
    ensures -1 <= r < |ts|
    ensures r >= 0 ==> ts[r].Key(gmt) <= key
    ensures forall k :: r < k < |ts| ==> key < ts[k].Key(gmt)
  {
    if |ts| == 0 then -1
    else if ts[|ts| - 1].Key(gmt) <= key then |ts| - 1
    else Latest(ts[..|ts| - 1], key, gmt)
  }

  /** The type in force after transition `i`; before the first one it is the zone's first type. */
  function TypeAfter(data: Data, i: int): Localtime
    requires ValidData(data) && -1 <= i < |data.transitions|
  {
    if i < 0 then data.localtimes[0] else data.localtimes[data.transitions[i].localtimeIdx]
  }

  function OffsetAfter(data: Data, i: int): int
    requires ValidData(data) && -1 <= i < |data.transitions|
  {
    TypeAfter(data, i).gmtOffset
  }

  function TypeAt(data: Data, key: int, gmt: bool): Localtime
    requires ValidData(data)
  {
    TypeAfter(data, Latest(data.transitions, key, gmt))
  }

  /** `std::lower_bound`: the first transition that is not before the key. */
  method LowerBound(ts: seq<Transition>, key: int, gmt: bool) returns (first: nat)
    requires SortedBy(ts, gmt)
    ensures first <= |ts|
    ensures forall k :: 0 <= k < first ==> ts[k].Key(gmt) < key
    ensures forall k :: first <= k < |ts| ==> key <= ts[k].Key(gmt)
  {
    first := 0;
    var len := |ts|;
    while len > 0
      invariant 0 <= len && first + len <= |ts|
      invariant forall k :: 0 <= k < first ==> ts[k].Key(gmt) < key
      invariant forall k :: first + len <= k < |ts| ==> key <= ts[k].Key(gmt)
    {
      var half := len / 2;
      if ts[first + half].Key(gmt) < key {
        first, len := first + half + 1, len - half - 1;
      } else {
        len := half;
      }
    }
  }

  method FindLocaltime(data: Data, sentry: Transition, gmt: bool) returns (local: Localtime)
    requires ValidData(data) && SortedBy(data.transitions, gmt)
    ensures local == TypeAt(data, sentry.Key(gmt), gmt)
  {
    if |data.transitions| == 0 || sentry.Key(gmt) < data.transitions[0].Key(gmt) {
      local := data.localtimes[0];
    } else {
      var i := LowerBound(data.transitions, sentry.Key(gmt), gmt);
      if i != |data.transitions| {
        if sentry.Key(gmt) != data.transitions[i].Key(gmt) {
          assert i > 0;
          i := i - 1;
        }
        local := data.localtimes[data.transitions[i].localtimeIdx];
      } else {
        local := data.localtimes[data.transitions[|data.transitions| - 1].localtimeIdx];
      }
    }
  }

  // ----- Local time -----

  /** The local time of a moment. */
  function LocalTm(data: Data, seconds: int): Tm
    requires ValidData(data)
  {
    var local := TypeAt(data, seconds, true);
    ToUtcTime(seconds + local.gmtOffset, true).(isdst := local.isDst, gmtoff := local.gmtOffset)
  }

  method ToLocalTime(data: Data, seconds: int) returns (localTime: Tm)
    requires ValidData(data) && SortedBy(data.transitions, true)
    ensures localTime == LocalTm(data, seconds)
  {
    hide ToUtcTime, SortedBy;
    var local := FindLocaltime(data, Transition(seconds, 0, 0), true);
    var localSeconds := seconds + local.gmtOffset;
    localTime := ToUtcTime(localSeconds, true);
    localTime := localTime.(isdst := local.isDst);
    localTime := localTime.(gmtoff := local.gmtOffset);
  }

  /** The moment at which a zone's clocks show a local time. */
  function SecondsOf(data: Data, localTm: Tm): int
    requires ValidData(data)
  {
    var seconds := FromUtcTime(localTm);
    var offset := TypeAt(data, seconds, false).gmtOffset;
    var tryTm := LocalTm(data, seconds - offset);
    if localTm.isdst && !tryTm.isdst && tryTm.hour == localTm.hour && tryTm.min == localTm.min
    then seconds - 3600 - offset
    else seconds - offset
  }

  method FromLocalTime(data: Data, localTm: Tm) returns (t: int)
    requires ValidData(data) && SortedBy(data.transitions, true) && SortedBy(data.transitions, false)
    ensures t == SecondsOf(data, localTm)
  {
    var seconds := FromUtcTime(localTm);
    var local := FindLocaltime(data, Transition(0, seconds, 0), false);
    if localTm.isdst {
      var tryTm := ToLocalTime(data, seconds - local.gmtOffset);
      if !tryTm.isdst && tryTm.hour == localTm.hour && tryTm.min == localTm.min {
        seconds := seconds - 3600;
      }
    }
    t := seconds - local.gmtOffset;
  }

  // ----- The local round trip -----

  predicate ValidZone(data: Data) {
    ValidData(data) && Consistent(data) && SortedBy(data.transitions, true) && SortedBy(data.transitions, false)
  }

  /** What a clock in the zone shows at a moment, as seconds. */
  function WallClock(data: Data, t: int): int
    requires ValidData(data)
  {
    t + TypeAt(data, t, true).gmtOffset
  }

  /** The wall clock of this moment is shown again after transition `k`, which is still to come. */
  predicate ShownAgainAfter(data: Data, t: int, k: int)
    requires ValidData(data) && 0 <= k < |data.transitions|
  {
    t < data.transitions[k].gmttime && data.transitions[k].localtime <= WallClock(data, t)
  }

  predicate FirstPass(data: Data, t: int)
    requires ValidData(data)
  {
    exists k :: 0 <= k < |data.transitions| && ShownAgainAfter(data, t, k)
  }

  /** The correction in `fromLocalTime` applies to this moment, and one hour is what it takes. */
  predicate Recoverable(data: Data, t: int)
    requires ValidData(data)
  {
    var wall := WallClock(data, t);
    && TypeAt(data, t, true).isDst
    && TypeAt(data, t, true).gmtOffset - TypeAt(data, wall, false).gmtOffset == 3600
    && !TypeAt(data, t + 3600, true).isDst
    && ToUtcTime(WallClock(data, t + 3600), true).hour == ToUtcTime(wall, true).hour
    && ToUtcTime(WallClock(data, t + 3600), true).min == ToUtcTime(wall, true).min
  }

  /** Outside the first pass through a repeated period, the local search finds what the UTC search finds. */
  lemma SearchesAgree(data: Data, t: int)
    requires ValidZone(data)
    ensures !FirstPass(data, t) ==>
              Latest(data.transitions, WallClock(data, t), false) == Latest(data.transitions, t, true)
    ensures FirstPass(data, t) ==>
              var k := Latest(data.transitions, WallClock(data, t), false);
              k >= 0 && ShownAgainAfter(data, t, k) && OffsetAfter(data, k) < TypeAt(data, t, true).gmtOffset
  {
    var ts := data.transitions;
    var i, j := Latest(ts, t, true), Latest(ts, WallClock(data, t), false);
    if FirstPass(data, t) {
      var k :| 0 <= k < |ts| && ShownAgainAfter(data, t, k);
      assert k <= j;
      assert ts[k].Key(true) <= ts[j].Key(true);
    } else {
      assert i >= 0 ==> ts[i].localtime == ts[i].gmttime + OffsetAfter(data, i) <= WallClock(data, t);
      assert j >= 0 ==> !ShownAgainAfter(data, t, j);
    }
  }

  /** Converting to local time and back: exactly which moments survive, in any zone sorted in both orders. */
  lemma LocalRoundTripExactly(data: Data, t: int)
    requires ValidZone(data) && WallClock(data, t) >= MIN_SECONDS
    ensures SecondsOf(data, LocalTm(data, t)) == t <==> !FirstPass(data, t) || Recoverable(data, t)
  {
    hide ToUtcTime, FromUtcTime, Consistent, SortedBy;
    var wall := WallClock(data, t);
    UtcRoundTrip(wall, true);
    FlagsDoNotMatter(ToUtcTime(wall, true), LocalTm(data, t));
    SearchesAgree(data, t);
  }

  lemma FlagsDoNotMatter(x: Tm, y: Tm)
    requires x == y.(isdst := x.isdst, gmtoff := x.gmtoff)
    ensures FromUtcTime(x) == FromUtcTime(y)
  {
  }

  // ----- Which zones round-trip everywhere -----

  /** Transitions are more than an hour apart, and further apart than any two offsets of the zone. */
  predicate Sparse(data: Data) {
    forall i, x, y :: 0 <= i < |data.transitions| - 1 && x in data.localtimes && y in data.localtimes ==>
      Gap(data.transitions, i) > 3600 && Gap(data.transitions, i) > x.gmtOffset - y.gmtOffset
  }

  function Gap(ts: seq<Transition>, i: nat): int
    requires i < |ts| - 1
  {
    ts[i + 1].gmttime - ts[i].gmttime
  }

  /** Clocks are only ever put back by one hour, from summer time to standard time. */
  predicate FallsByOneHour(data: Data)
    requires ValidData(data)
  {
    forall k :: 0 <= k < |data.transitions| ==> GoodFall(data, k)
  }

  predicate GoodFall(data: Data, k: nat)
    requires ValidData(data) && k < |data.transitions|
  {
    OffsetAfter(data, k) < OffsetAfter(data, k - 1) ==>
      && OffsetAfter(data, k - 1) - OffsetAfter(data, k) == 3600
      && TypeAfter(data, k - 1).isDst && !TypeAfter(data, k).isDst
  }

  lemma {:induction false} SparseIsSorted(data: Data, i: nat, j: nat)
    requires ValidData(data) && Consistent(data) && Sparse(data) && i < j < |data.transitions|
    ensures data.transitions[i].localtime < data.transitions[j].localtime
    decreases j
  {
    assert Gap(data.transitions, j - 1) > OffsetAfter(data, j - 1) - OffsetAfter(data, j);
    if i < j - 1 {
      SparseIsSorted(data, i, j - 1);
    }
  }

  lemma SparseZoneIsValid(data: Data)
    requires ValidData(data) && Consistent(data) && Sparse(data) && SortedBy(data.transitions, true)
    ensures ValidZone(data)
  {
    forall i, j | 0 <= i < j < |data.transitions| ensures data.transitions[i].localtime < data.transitions[j].localtime {
      SparseIsSorted(data, i, j);
    }
  }

  /** In a sparse zone only the very next transition can repeat a moment's wall clock. */
  lemma OnlyNextRepeats(data: Data, t: int, k: nat)
    requires ValidZone(data) && Sparse(data) && k < |data.transitions| && ShownAgainAfter(data, t, k)
    ensures k == Latest(data.transitions, t, true) + 1
  {
    var i := Latest(data.transitions, t, true);
    if k > 0 {
      assert Gap(data.transitions, k - 1) > OffsetAfter(data, i) - OffsetAfter(data, k);
    }
  }

  lemma GoodZoneRecovers(data: Data, t: int)
    requires ValidZone(data) && Sparse(data) && FallsByOneHour(data) && FirstPass(data, t)
    ensures Recoverable(data, t)
  {
    hide ToUtcTime;
    var ts := data.transitions;
    SearchesAgree(data, t);
    var k := Latest(ts, WallClock(data, t), false);
    OnlyNextRepeats(data, t, k);
    assert GoodFall(data, k);
    TypeAnHourLater(data, t, k);
  }

  /** An hour on, the transition has happened and no other one has. */
  lemma TypeAnHourLater(data: Data, t: int, k: nat)
    requires ValidZone(data) && Sparse(data) && k < |data.transitions|
    requires t < data.transitions[k].gmttime <= t + 3600
    ensures Latest(data.transitions, t + 3600, true) == k
  {
    var j := Latest(data.transitions, t + 3600, true);
    assert data.transitions[k].Key(true) <= t + 3600;
    assert data.localtimes[0] in data.localtimes;
    assert k < |data.transitions| - 1 ==> Gap(data.transitions, k) > 3600 && t + 3600 < data.transitions[k + 1].Key(true);
  }

  /** The last second before a transition that puts the clocks back is a first pass. */
  lemma LastSecondRepeats(data: Data, k: nat)
    requires ValidZone(data) && Sparse(data) && k < |data.transitions|
    requires OffsetAfter(data, k) < OffsetAfter(data, k - 1)
    ensures var t := data.transitions[k].gmttime - 1;
            FirstPass(data, t) && (Recoverable(data, t) ==> GoodFall(data, k))
  {
    hide ToUtcTime;
    var ts := data.transitions;
    var t := ts[k].gmttime - 1;
    var i := Latest(ts, t, true);
    assert k > 0 ==> ts[k - 1].Key(true) < ts[k].Key(true);
    assert i < k && i >= k - 1;
    assert ShownAgainAfter(data, t, k);
    SearchesAgree(data, t);
    OnlyNextRepeats(data, t, Latest(ts, WallClock(data, t), false));
    TypeAnHourLater(data, t, k);
  }

  /** A sparse zone converts every moment to local time and back exactly when its clocks fall only by
      one hour, from summer time to standard time. */
  lemma ZoneRoundTripsExactly(data: Data)
    requires ValidData(data) && Consistent(data) && Sparse(data) && SortedBy(data.transitions, true)
    requires forall k :: 0 <= k < |data.transitions| ==> WallClock(data, data.transitions[k].gmttime - 1) >= MIN_SECONDS
    ensures FallsByOneHour(data) <==>
            (forall t :: WallClock(data, t) >= MIN_SECONDS ==> SecondsOf(data, LocalTm(data, t)) == t)
  {
    hide SecondsOf, LocalTm;
    SparseZoneIsValid(data);
    if FallsByOneHour(data) {
      forall t | WallClock(data, t) >= MIN_SECONDS ensures SecondsOf(data, LocalTm(data, t)) == t {
        LocalRoundTripExactly(data, t);
        if FirstPass(data, t) {
          GoodZoneRecovers(data, t);
        }
      }
    } else {
      var k :| 0 <= k < |data.transitions| && !GoodFall(data, k);
      var t := data.transitions[k].gmttime - 1;
      LastSecondRepeats(data, k);
      LocalRoundTripExactly(data, t);
    }
  }

  /** Standard time and summer time one hour ahead of it, with transitions more than an hour apart. */
  predicate OneHourZone(data: Data, standard: int) {
    && (forall x :: x in data.localtimes ==> x.gmtOffset == (if x.isDst then standard + 3600 else standard))
    && (forall i :: 0 <= i < |data.transitions| - 1 ==> Gap(data.transitions, i) > 3600)
  }

  /** The zones of the unit test: every moment survives, in both passes through the repeated hour. */
  lemma OneHourZoneRoundTrips(data: Data, standard: int, t: int)
    requires ValidData(data) && Consistent(data) && SortedBy(data.transitions, true) && OneHourZone(data, standard)
    requires WallClock(data, t) >= MIN_SECONDS
    ensures SecondsOf(data, LocalTm(data, t)) == t
  {
    hide SecondsOf, LocalTm;
    SparseZoneIsValid(data);
    LocalRoundTripExactly(data, t);
    if FirstPass(data, t) {
      GoodZoneRecovers(data, t);
    }
  }

  /** A zone whose summer time is half an hour ahead loses the half hour before its clocks are put back. */
  lemma HalfHourZoneFails(changeover: int)
    requires changeover > 0
    ensures var data := Data([Transition(changeover, changeover + 37800, 1)], [Localtime(39600, true), Localtime(37800, false)]);
            ValidZone(data) && SecondsOf(data, LocalTm(data, changeover - 1)) != changeover - 1
  {
    hide SecondsOf, LocalTm;
    var data := Data([Transition(changeover, changeover + 37800, 1)], [Localtime(39600, true), Localtime(37800, false)]);
    assert Latest(data.transitions, changeover - 1, true) == -1;
    assert ShownAgainAfter(data, changeover - 1, 0);
    EpochIsInRange();
    LocalRoundTripExactly(data, changeover - 1);
    assert Latest(data.transitions, WallClock(data, changeover - 1), false) == 0;
  }

  lemma EpochIsInRange()
    ensures MIN_SECONDS < 0
  {
  }
}
