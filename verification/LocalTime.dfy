/**
 What the conversions between local time and UTC mean for the clocks of a zone: what local times show, and which
 moment a local time is read as, be it shown once, several times or never.
 */
module LocalTime {
  import opened Date
  import opened TimeZone

  // ----- From UTC -----

  /** The last transition at or before a moment, without a search: all before it have happened, all after it
      have not. */
  predicate LastTransition(data: Data, t: int, i: int) {
    && -1 <= i < |data.transitions|
    && (forall k :: 0 <= k <= i ==> data.transitions[k].gmttime <= t)
    && (forall k :: i < k < |data.transitions| ==> t < data.transitions[k].gmttime)
  }

  lemma LatestIsLast(data: Data, t: int, i: int)
    requires ValidZone(data) && LastTransition(data, t, i)
    ensures Latest(data.transitions, t, true) == i
  {
    var j := Latest(data.transitions, t, true);
    assert j >= 0 ==> data.transitions[j].Key(true) <= t;
    assert i >= 0 ==> data.transitions[i].Key(true) <= t;
  }

  lemma TypeInForce(data: Data, t: int, i: int)
    requires ValidZone(data) && LastTransition(data, t, i)
    ensures -1 <= i < |data.transitions| && ValidData(data)
    ensures i >= 0 ==> data.transitions[i].localtimeIdx < |data.localtimes|
    ensures TypeAt(data, t, true) == data.localtimes[if i < 0 then 0 else data.transitions[i].localtimeIdx]
  {
    LatestIsLast(data, t, i);
    hide Latest, SortedBy, Consistent;
  }

  lemma LocalTimeIs(data: Data, t: int, i: int)
    requires ValidZone(data) && LastTransition(data, t, i)
    ensures -1 <= i < |data.transitions| && |data.localtimes| > 0
    ensures i >= 0 ==> data.transitions[i].localtimeIdx < |data.localtimes|
    ensures var local := data.localtimes[if i < 0 then 0 else data.transitions[i].localtimeIdx];
            LocalTm(data, t) == ToUtcTime(t + local.gmtOffset, true).(isdst := local.isDst, gmtoff := local.gmtOffset)
  {
    hide ToUtcTime, TypeAt, LastTransition, ValidZone;
    TypeInForce(data, t, i);
  }

  lemma SplitWithFlags(x: int, isdst: bool, gmtoff: int)
    ensures var tm := ToUtcTime(x, true).(isdst := isdst, gmtoff := gmtoff);
            ValidClock(tm) && (x >= MIN_SECONDS ==> FromUtcTime(tm) == x)
  {
    UtcFields(x, true);
    if x >= MIN_SECONDS {
      UtcRoundTrip(x, true);
      FlagsDoNotMatter(ToUtcTime(x, true), ToUtcTime(x, true).(isdst := isdst, gmtoff := gmtoff));
    }
    hide ToUtcTime, FromUtcTime, FromJulianDayNumber, JulianDayNumber;
  }

  /** A local time is the moment shifted by the offset of the type that the last transition has started, or of
      the zone's first type before all transitions; the flag and the offset are that type's. */
  lemma LocalTimeShows(data: Data, t: int, i: int)
    requires ValidZone(data) && LastTransition(data, t, i)
    ensures var tm := LocalTm(data, t);
            var local := data.localtimes[if i < 0 then 0 else data.transitions[i].localtimeIdx];
            && tm.isdst == local.isDst && tm.gmtoff == local.gmtOffset && ValidClock(tm)
            && (t + local.gmtOffset >= MIN_SECONDS ==> FromUtcTime(tm) == t + local.gmtOffset)
            && tm.wday == ToUtcTime(t + local.gmtOffset, true).wday && tm.yday == ToUtcTime(t + local.gmtOffset, true).yday
  {
    hide LocalTm, ToUtcTime, FromUtcTime, ValidClock, LastTransition, ValidZone;
    LocalTimeIs(data, t, i);
    var local := data.localtimes[if i < 0 then 0 else data.transitions[i].localtimeIdx];
    SplitWithFlags(t + local.gmtOffset, local.isDst, local.gmtOffset);
  }

  // ----- Which moments show a wall clock -----

  predicate Shows(data: Data, t: int, wall: int)
    requires ValidData(data)
  {
    WallClock(data, t) == wall
  }

  ghost predicate IsLatestShowing(data: Data, t: int, wall: int)
    requires ValidData(data)
  {
    Shows(data, t, wall) && forall u :: Shows(data, u, wall) ==> u <= t
  }

  /** The clocks are put forward at transition `k`, past this wall clock. */
  predicate SkippedAt(data: Data, wall: int, k: int)
    requires ValidData(data) && 0 <= k < |data.transitions|
  {
    data.transitions[k].gmttime + OffsetAfter(data, k - 1) <= wall < data.transitions[k].localtime
  }

  predicate Skipped(data: Data, wall: int)
    requires ValidData(data)
  {
    exists k :: 0 <= k < |data.transitions| && SkippedAt(data, wall, k)
  }

  /** The moment that a wall clock stands for: the latest one that shows it; for one that is skipped, the
      moment at which the clocks would show it had they not been put forward. */
  ghost predicate IsReading(data: Data, t: int, wall: int)
    requires ValidData(data)
  {
    if Skipped(data, wall)
    then exists k :: 0 <= k < |data.transitions| && SkippedAt(data, wall, k) && t == wall - OffsetAfter(data, k - 1)
    else IsLatestShowing(data, t, wall)
  }

  /** What the search in local order finds. */
  function Found(data: Data, wall: int): int
    requires ValidData(data)
  {
    wall - TypeAt(data, wall, false).gmtOffset
  }

  lemma ShownBeforeFound(data: Data, u: int, wall: int)
    requires ValidZone(data) && Shows(data, u, wall)
    ensures u <= Found(data, wall)
  {
    var ts := data.transitions;
    var i, j := Latest(ts, u, true), Latest(ts, wall, false);
    assert i >= 0 ==> ts[i].gmttime <= u && ts[i].localtime == ts[i].gmttime + OffsetAfter(data, i) <= wall;
    assert j >= 0 ==> ts[j].Key(false) <= wall;
    assert i <= j;
    if i < j {
      assert u < ts[i + 1].Key(true) <= ts[j].Key(true);
    }
  }

  lemma SkippedAtNext(data: Data, wall: int, k: int)
    requires ValidZone(data) && 0 <= k < |data.transitions| && SkippedAt(data, wall, k)
    ensures k == Latest(data.transitions, wall, false) + 1
  {
    var ts := data.transitions;
    var j := Latest(ts, wall, false);
    assert j >= 0 ==> ts[j].Key(false) <= wall;
    assert wall < ts[k].Key(false);
    assert k > 0 ==> ts[k - 1].localtime == ts[k - 1].gmttime + OffsetAfter(data, k - 1) && ts[k - 1].Key(true) < ts[k].Key(true);
    assert k > 0 ==> ts[k - 1].Key(false) <= wall;
  }

  lemma FoundShowsUnlessSkipped(data: Data, wall: int)
    requires ValidZone(data)
    ensures Shows(data, Found(data, wall), wall) <==> !Skipped(data, wall)
  {
    var ts := data.transitions;
    var t, j := Found(data, wall), Latest(ts, wall, false);
    var i := Latest(ts, t, true);
    assert j >= 0 ==> ts[j].localtime == ts[j].gmttime + OffsetAfter(data, j) <= wall;
    assert j >= 0 ==> ts[j].Key(true) <= t;
    assert j <= i;
    if Skipped(data, wall) {
      var k :| 0 <= k < |ts| && SkippedAt(data, wall, k);
      SkippedAtNext(data, wall, k);
      assert ts[k].Key(true) <= t && i >= k;
      assert ts[i].Key(true) <= t && ts[i].localtime == ts[i].gmttime + OffsetAfter(data, i) <= WallClock(data, t);
      assert ts[k].Key(false) <= ts[i].Key(false);
    } else if i > j {
      assert ts[j + 1].Key(true) <= ts[i].Key(true) <= t;
      assert wall < ts[j + 1].Key(false);
      assert SkippedAt(data, wall, j + 1);
    }
  }

  /** Every wall clock stands for exactly one moment, the one found. */
  lemma FoundIsTheReading(data: Data, t: int, wall: int)
    requires ValidZone(data)
    ensures IsReading(data, t, wall) <==> t == Found(data, wall)
  {
    var f := Found(data, wall);
    FoundShowsUnlessSkipped(data, wall);
    if Skipped(data, wall) {
      forall k | 0 <= k < |data.transitions| && SkippedAt(data, wall, k)
        ensures f == wall - OffsetAfter(data, k - 1)
      {
        SkippedAtNext(data, wall, k);
      }
    } else {
      forall u | Shows(data, u, wall) ensures u <= f {
        ShownBeforeFound(data, u, wall);
      }
    }
  }

  // ----- To UTC -----

  /** The hour and the minute of a time of day. */
  predicate SameHourAndMinute(tm: Tm, wall: int) {
    tm.hour == wall % SECONDS_PER_DAY / 3600 && tm.min == wall % 3600 / 60
  }

  lemma HourAndMinute(tm: Tm, wall: int)
    requires ValidClock(tm) && tm.hour * 3600 + tm.min * 60 + tm.sec == wall % SECONDS_PER_DAY
    ensures SameHourAndMinute(tm, wall)
  {
    HourOfDay(wall);
    PartsOfDay(tm.hour, tm.min, tm.sec);
  }

  lemma HourOfDay(wall: int)
    ensures wall % 3600 == wall % SECONDS_PER_DAY % 3600
  {
    assert wall == wall / SECONDS_PER_DAY * 24 * 3600 + wall % SECONDS_PER_DAY;
  }

  lemma PartsOfDay(hour: int, min: int, sec: int)
    requires 0 <= hour < 24 && 0 <= min < 60 && 0 <= sec < 60
    ensures var clock := hour * 3600 + min * 60 + sec; clock / 3600 == hour && clock % 3600 / 60 == min
  {
  }

  lemma TimeOfDay(days: int, clock: int)
    requires 0 <= clock < SECONDS_PER_DAY
    ensures (days * SECONDS_PER_DAY + clock) % SECONDS_PER_DAY == clock
  {
  }

  /** What `fromLocalTime` answers, for any local time in any zone: the moment that the wall clock stands for; or
      an hour earlier, if the flag says summer time, that moment is not in summer time, and its hour and minute
      are those given. */
  lemma FromLocalTimeExactly(data: Data, tm: Tm, t: int)
    requires ValidZone(data) && IsReading(data, t, FromUtcTime(tm))
    ensures SecondsOf(data, tm) ==
            if tm.isdst && !TypeAt(data, t, true).isDst && SameHourAndMinute(tm, WallClock(data, t)) then t - 3600 else t
  {
    hide ToUtcTime, FromUtcTime, Consistent, SortedBy, IsReading, TypeAt;
    FoundIsTheReading(data, t, FromUtcTime(tm));
    UtcFields(WallClock(data, t), true);
    HourAndMinute(ToUtcTime(WallClock(data, t), true), WallClock(data, t));
  }

  /** Without the flag, a wall clock that is shown is read as the latest moment that shows it. With the flag, it is
      read as that moment if it is in summer time, and as an hour earlier if not. */
  lemma ShownClocks(data: Data, tm: Tm, t: int)
    requires ValidZone(data) && ValidClock(tm) && !Skipped(data, FromUtcTime(tm)) && IsLatestShowing(data, t, FromUtcTime(tm))
    ensures SecondsOf(data, tm) == if tm.isdst && !TypeAt(data, t, true).isDst then t - 3600 else t
  {
    FromLocalTimeExactly(data, tm, t);
    ClockOfJoined(tm);
    hide Consistent, SortedBy, TypeAt, SecondsOf;
  }

  /** In any zone, without the flag, the latest moment that shows a wall clock is what it is read as if and only if no
      transition skips the wall clock. */
  lemma LatestIsReadExactly(data: Data, tm: Tm, t: int)
    requires ValidZone(data) && !tm.isdst && IsLatestShowing(data, t, FromUtcTime(tm))
    ensures SecondsOf(data, tm) == t <==> !Skipped(data, FromUtcTime(tm))
  {
    hide FromUtcTime, Consistent, SortedBy, SecondsOf, Skipped, Found, WallClock, SameHourAndMinute, TypeAt;
    var wall := FromUtcTime(tm);
    FoundShowsUnlessSkipped(data, wall);
    FoundIsTheReading(data, Found(data, wall), wall);
    FoundIsTheReading(data, t, wall);
    FromLocalTimeExactly(data, tm, Found(data, wall));
  }

  lemma ClockOfJoined(tm: Tm)
    requires ValidClock(tm)
    ensures SameHourAndMinute(tm, FromUtcTime(tm))
  {
    hide JulianDayNumber, SameHourAndMinute;
    TimeOfDay(JulianDayNumber(DateOf(tm)) - JULIAN_DAY_OF_1970_01_01, tm.hour * 3600 + tm.min * 60 + tm.sec);
    HourAndMinute(tm, FromUtcTime(tm));
  }

  /** A wall clock that is skipped is read as the moment at which clocks that had not been put forward would show
      it; this moment is after the transition, whatever the flag says, unless the transition is not into
      summer time and skips whole days but for seconds. */
  lemma SkippedClocks(data: Data, tm: Tm, k: int)
    requires ValidZone(data) && 0 <= k < |data.transitions| && SkippedAt(data, FromUtcTime(tm), k)
    ensures var t := FromUtcTime(tm) - OffsetAfter(data, k - 1);
            && data.transitions[k].gmttime <= t
            && SecondsOf(data, tm) ==
               if tm.isdst && !TypeAt(data, t, true).isDst && SameHourAndMinute(tm, WallClock(data, t)) then t - 3600 else t
  {
    hide FromUtcTime, SecondsOf, ValidZone, SkippedAt, IsReading, SameHourAndMinute, WallClock, TypeAt, OffsetAfter;
    SkippedIsReading(data, FromUtcTime(tm), k);
    FromLocalTimeExactly(data, tm, FromUtcTime(tm) - OffsetAfter(data, k - 1));
  }

  lemma SkippedIsReading(data: Data, wall: int, k: int)
    requires ValidZone(data) && 0 <= k < |data.transitions| && SkippedAt(data, wall, k)
    ensures ValidData(data) && IsReading(data, wall - OffsetAfter(data, k - 1), wall)
    ensures data.transitions[k].gmttime <= wall - OffsetAfter(data, k - 1)
  {
    hide Consistent, SortedBy;
  }

  // ----- Sparse zones -----

  /** In a sparse zone the skipped wall clocks are exactly those that are never shown. */
  lemma SkippedMeansNeverShown(data: Data, wall: int)
    requires ValidZone(data) && Sparse(data)
    ensures Skipped(data, wall) <==> forall u :: !Shows(data, u, wall)
  {
    FoundShowsUnlessSkipped(data, wall);
    if Skipped(data, wall) {
      forall u ensures !Shows(data, u, wall) {
        if Shows(data, u, wall) {
          ShownIsNotSkipped(data, u, wall);
        }
      }
    }
  }

  lemma ShownIsNotSkipped(data: Data, u: int, wall: int)
    requires ValidZone(data) && Sparse(data) && Shows(data, u, wall)
    ensures !Skipped(data, wall)
  {
    FoundShowsUnlessSkipped(data, wall);
    ShownBeforeFound(data, u, wall);
    if Found(data, wall) != u {
      NotSkippedAtNext(data, u, wall);
      forall k | 0 <= k < |data.transitions| ensures !SkippedAt(data, wall, k) {
        if SkippedAt(data, wall, k) {
          SkippedAtNext(data, wall, k);
        }
      }
    }
  }

  /** A wall clock that was shown in an earlier period is not skipped at the next transition. */
  lemma NotSkippedAtNext(data: Data, u: int, wall: int)
    requires ValidZone(data) && Sparse(data) && Shows(data, u, wall) && Found(data, wall) != u
    ensures var k := Latest(data.transitions, wall, false) + 1; k < |data.transitions| ==> !SkippedAt(data, wall, k)
  {
    var ts := data.transitions;
    var i, j := Latest(ts, u, true), Latest(ts, wall, false);
    assert i >= 0 ==> ts[i].localtime == ts[i].gmttime + OffsetAfter(data, i) <= wall;
    assert i < j;
    assert u < ts[i + 1].Key(true) <= ts[j].Key(true);
    OffsetIsListed(data, i);
    OffsetIsListed(data, j);
    assert j + 1 < |ts| ==> Gap(ts, j) > OffsetAfter(data, i) - OffsetAfter(data, j);
  }

  lemma OffsetIsListed(data: Data, i: int)
    requires ValidData(data) && -1 <= i < |data.transitions|
    ensures TypeAfter(data, i) in data.localtimes
  {
  }

  /** In a sparse zone whose clocks fall only by one hour, from summer to standard time, the flag says which pass
      through a repeated hour is meant: if any moment of summer time shows the wall clock, then with the flag the
      result is one, and it shows it. */
  lemma FlagPicksSummerTime(data: Data, tm: Tm, u: int)
    requires ValidZone(data) && Sparse(data) && FallsByOneHour(data) && ValidClock(tm) && tm.isdst
    requires Shows(data, u, FromUtcTime(tm)) && TypeAt(data, u, true).isDst
    ensures var t := SecondsOf(data, tm); Shows(data, t, FromUtcTime(tm)) && TypeAt(data, t, true).isDst
  {
    hide SecondsOf, FromUtcTime;
    var wall := FromUtcTime(tm);
    ShownIsNotSkipped(data, u, wall);
    FoundIsTheReading(data, Found(data, wall), wall);
    ShownClocks(data, tm, Found(data, wall));
    SummerTimeIsAnHourBefore(data, u, wall);
  }

  lemma SummerTimeIsAnHourBefore(data: Data, u: int, wall: int)
    requires ValidZone(data) && Sparse(data) && FallsByOneHour(data)
    requires Shows(data, u, wall) && TypeAt(data, u, true).isDst
    ensures u == Found(data, wall) || (u == Found(data, wall) - 3600 && !TypeAt(data, Found(data, wall), true).isDst)
  {
    SearchesAgree(data, u);
    if FirstPass(data, u) {
      GoodZoneRecovers(data, u);
    }
    hide ToUtcTime, Consistent, SortedBy, Sparse, FallsByOneHour;
  }

  const TWO_CHANGES := Data([Transition(0, 0, 1), Transition(3600, 10800, 2)],
                            [Localtime(36000, false), Localtime(0, false), Localtime(7200, false)])

  lemma TwoChangesIsValid()
    ensures ValidZone(TWO_CHANGES)
  {
  }

  lemma TwoChangesShow(u: int)
    ensures Shows(TWO_CHANGES, u, 5000) <==> u == -31000
    ensures SkippedAt(TWO_CHANGES, 5000, 1) && OffsetAfter(TWO_CHANGES, 0) == 0
  {
    var ts := TWO_CHANGES.transitions;
    assert ts[0].Key(true) == 0 && ts[1].Key(true) == 3600;
    var i := Latest(ts, u, true);
    assert i == if u < 0 then -1 else if u < 3600 then 0 else 1;
  }

  /** Without sparseness a wall clock may be skipped and yet have been shown before: the clocks fall ten hours at
      time 0 and rise two hours an hour later. Then it is not read as the moment that shows it. */
  lemma SkippedYetShown()
    ensures ValidZone(TWO_CHANGES) && IsLatestShowing(TWO_CHANGES, -31000, 5000)
    ensures SecondsOf(TWO_CHANGES, ToUtcTime(5000, true)) == 5000 && !Shows(TWO_CHANGES, 5000, 5000)
  {
    TwoChangesIsValid();
    ReadsSkipped();
    forall u ensures Shows(TWO_CHANGES, u, 5000) <==> u == -31000 {
      TwoChangesShow(u);
    }
    hide ToUtcTime, SecondsOf, Shows, ValidZone;
  }

  lemma ReadsSkipped()
    ensures SecondsOf(TWO_CHANGES, ToUtcTime(5000, true)) == 5000
  {
    hide ToUtcTime, FromUtcTime, ValidZone, SecondsOf, Shows, SkippedAt, SameHourAndMinute, TypeAt;
    TwoChangesIsValid();
    TwoChangesShow(0);
    PlainClock();
    SkippedClocks(TWO_CHANGES, ToUtcTime(5000, true), 1);
  }

  lemma PlainClock()
    ensures !ToUtcTime(5000, true).isdst && FromUtcTime(ToUtcTime(5000, true)) == 5000
  {
    EpochIsInRange();
    UtcFields(5000, true);
    UtcRoundTrip(5000, true);
    hide ToUtcTime, FromUtcTime, FromJulianDayNumber, JulianDayNumber;
  }
}
