/**
  Conversion between UTC and local time through a table of transitions
  (`findLocaltime`, `toLocalTime`, `fromLocalTime` in `muduo/base/TimeZone.cc`). The table is the
  data block of section 3.2 of RFC 8536, as the file reader leaves it. The C library's `gmtime_r`
  and `timegm` are the calendar of the previous modules on all seconds.
 */
module TimeZones {
  import opened Calendar
  import opened UtcTime

  datatype Transition = Transition(gmttime: int, localtime: int, localtimeIdx: int)
  datatype Localtime = Localtime(gmtOffset: int, isDst: bool, arrbIdx: int)
  datatype Data = Data(transitions: seq<Transition>, localtimes: seq<Localtime>)

  /** What the file reader establishes. */
  ghost predicate WellFormed(data: Data) {
    && |data.localtimes| > 0
    && (forall i | 0 <= i < |data.transitions| ::
          && 0 <= data.transitions[i].localtimeIdx < |data.localtimes|
          && data.transitions[i].localtime ==
             data.transitions[i].gmttime + data.localtimes[data.transitions[i].localtimeIdx].gmtOffset)
  }

  /** The comparison object `Comp`: by UTC instant or by local time. */
  function Key(t: Transition, compareGmt: bool): int {
    if compareGmt then t.gmttime else t.localtime
  }

  ghost predicate Sorted(trans: seq<Transition>, compareGmt: bool) {
    forall i, j | 0 <= i < j < |trans| :: Key(trans[i], compareGmt) < Key(trans[j], compareGmt)
  }

  /** Transitions lie further apart than any two offsets differ. */
  ghost predicate Spaced(data: Data) {
    forall i, p, q | 0 <= i < |data.transitions| - 1 && 0 <= p < |data.localtimes| && 0 <= q < |data.localtimes| ::
      data.transitions[i + 1].gmttime - data.transitions[i].gmttime
      > data.localtimes[p].gmtOffset - data.localtimes[q].gmtOffset
  }

  // ---------------------------------------------------------------- specification

  /** The last transition not after the key, or -1. */
  function LastNotAfter(trans: seq<Transition>, key: int, compareGmt: bool): (k: int)
    ensures -1 <= k < |trans|
    ensures k >= 0 ==> Key(trans[k], compareGmt) <= key
    ensures forall i | k < i < |trans| :: key < Key(trans[i], compareGmt)
  {
    if trans == [] then -1
    else if Key(trans[|trans| - 1], compareGmt) <= key then |trans| - 1
    else LastNotAfter(trans[..|trans| - 1], key, compareGmt)
  }

  /** The local time type in force after transition k; the first type before all transitions. */
  function TypeAt(data: Data, k: int): Localtime
    requires WellFormed(data) && -1 <= k < |data.transitions|
  {
    if k < 0 then data.localtimes[0] else data.localtimes[data.transitions[k].localtimeIdx]
  }

  function LocalAt(data: Data, key: int, compareGmt: bool): Localtime
    requires WellFormed(data)
  {
    TypeAt(data, LastNotAfter(data.transitions, key, compareGmt))
  }

  /** `timegm`: months outside the year are carried, the other fields add up. */
  function Timegm(tm: Tm): int {
    var d := YearMonthDay(tm.year + 1900 + tm.mon / 12, tm.mon % 12 + 1, tm.mday);
    (DayNumber(d) - JULIAN_DAY_OF_1970_01_01) * SECONDS_PER_DAY + tm.hour * 3600 + tm.min * 60 + tm.sec
  }

  function LocalTm(data: Data, seconds: int): Tm
    requires WellFormed(data)
  {
    var local := LocalAt(data, seconds, true);
    BrokenDown(seconds + local.gmtOffset).(isDst := local.isDst, gmtOff := local.gmtOffset)
  }

  function SecondsOfLocalTm(data: Data, tm: Tm): int
    requires WellFormed(data)
  {
    var seconds := Timegm(tm);
    var utc := seconds - LocalAt(data, seconds, false).gmtOffset;
    var again := LocalTm(data, utc);
    if tm.isDst && !again.isDst && again.hour == tm.hour && again.min == tm.min then utc - 3600 else utc
  }

  // ---------------------------------------------------------------- the source's procedures

  /** `std::lower_bound`: the first transition not before the key. */
  method LowerBound(trans: seq<Transition>, key: int, compareGmt: bool) returns (first: nat)
    requires Sorted(trans, compareGmt)
    ensures first <= |trans|
    ensures forall i | 0 <= i < first :: Key(trans[i], compareGmt) < key
    ensures forall i | first <= i < |trans| :: key <= Key(trans[i], compareGmt)
  {
    first := 0;
    var count := |trans|;
    while count > 0
      invariant 0 <= count && first + count <= |trans|
      invariant forall i | 0 <= i < first :: Key(trans[i], compareGmt) < key
      invariant forall i | first + count <= i < |trans| :: key <= Key(trans[i], compareGmt)
    {
      var step := count / 2;
      if Key(trans[first + step], compareGmt) < key {
        first := first + step + 1;
        count := count - (step + 1);
      } else {
        count := step;
      }
    }
  }

  /** The binary search returns the type of the last transition not after the key. */
  method FindLocaltime(data: Data, sentry: Transition, compareGmt: bool) returns (local: Localtime)
    requires WellFormed(data) && Sorted(data.transitions, compareGmt)
    ensures local == LocalAt(data, Key(sentry, compareGmt), compareGmt)
  {
    var trans, key := data.transitions, Key(sentry, compareGmt);
    if |trans| == 0 || key < Key(trans[0], compareGmt) {
      local := data.localtimes[0];
    } else {
      var i := LowerBound(trans, key, compareGmt);
      if i != |trans| {
        if key != Key(trans[i], compareGmt) {
          assert i != 0;
          i := i - 1;
        }
        LastNotAfterUnique(trans, key, compareGmt, i);
        local := data.localtimes[trans[i].localtimeIdx];
      } else {
        LastNotAfterUnique(trans, key, compareGmt, |trans| - 1);
        local := data.localtimes[trans[|trans| - 1].localtimeIdx];
      }
    }
  }

  method ToLocalTime(data: Data, seconds: int) returns (localTime: Tm)
    requires WellFormed(data) && Sorted(data.transitions, true)
    ensures localTime == LocalTm(data, seconds)
  {
    var local := FindLocaltime(data, Transition(seconds, 0, 0), true);
    var localSeconds := seconds + local.gmtOffset;
    localTime := BrokenDown(localSeconds);
    localTime := localTime.(isDst := local.isDst);
    localTime := localTime.(gmtOff := local.gmtOffset);
  }

  method FromLocalTime(data: Data, localTm: Tm) returns (r: int)
    requires WellFormed(data) && Sorted(data.transitions, true) && Sorted(data.transitions, false)
    ensures r == SecondsOfLocalTm(data, localTm)
  {
    var seconds := Timegm(localTm);
    var local := FindLocaltime(data, Transition(0, seconds, 0), false);
    if localTm.isDst {
      var tryTm := ToLocalTime(data, seconds - local.gmtOffset);
      if !tryTm.isDst && tryTm.hour == localTm.hour && tryTm.min == localTm.min {
        seconds := seconds - 3600;
      }
    }
    r := seconds - local.gmtOffset;
  }

  // ---------------------------------------------------------------- search

  lemma LastNotAfterUnique(trans: seq<Transition>, key: int, compareGmt: bool, k: int)
    requires Sorted(trans, compareGmt) && -1 <= k < |trans|
    requires k >= 0 ==> Key(trans[k], compareGmt) <= key
    requires k + 1 < |trans| ==> key < Key(trans[k + 1], compareGmt)
    ensures LastNotAfter(trans, key, compareGmt) == k
  {
    hide LastNotAfter;
    var l := LastNotAfter(trans, key, compareGmt);
    assert l <= k;
  }

  lemma SpacedIsSorted(data: Data, i: int, j: int)
    requires WellFormed(data) && Spaced(data) && 0 <= i < j < |data.transitions|
    ensures data.transitions[i].gmttime < data.transitions[j].gmttime
    ensures data.transitions[i].localtime < data.transitions[j].localtime
  {
    var m := j - 1;
    var p, q := data.transitions[m].localtimeIdx, data.transitions[j].localtimeIdx;
    assert data.transitions[m + 1].gmttime - data.transitions[m].gmttime
           > data.localtimes[p].gmtOffset - data.localtimes[q].gmtOffset;
    assert data.transitions[m + 1].gmttime - data.transitions[m].gmttime
           > data.localtimes[p].gmtOffset - data.localtimes[p].gmtOffset;
    if i < m { SpacedIsSorted(data, i, m); }
  }

  /** Spacing makes the table sorted in both orders, as the two searches need. */
  lemma SpacedBothSorted(data: Data)
    requires WellFormed(data) && Spaced(data)
    ensures Sorted(data.transitions, true) && Sorted(data.transitions, false)
  {
    forall i, j | 0 <= i < j < |data.transitions|
      ensures Key(data.transitions[i], true) < Key(data.transitions[j], true)
      ensures Key(data.transitions[i], false) < Key(data.transitions[j], false)
    {
      SpacedIsSorted(data, i, j);
    }
  }

  // ---------------------------------------------------------------- round trip

  lemma TimegmOfBrokenDown(t: int, isDst: bool, gmtOff: int)
    ensures Timegm(BrokenDown(t).(isDst := isDst, gmtOff := gmtOff)) == t
  {
    hide DateOf, DayNumber, DayOfYear;
    SecondsOfDay(t);
    DayNumberOfDate(DayOf(t));
    FieldsInRange(t);
  }

  /** A local time names its instant once its own offset is taken off, and carries the flag in force. */
  lemma LocalTmMeaning(data: Data, t: int)
    requires WellFormed(data)
    ensures var tm := LocalTm(data, t);
            && Timegm(tm) - tm.gmtOff == t
            && tm.gmtOff == LocalAt(data, t, true).gmtOffset && tm.isDst == LocalAt(data, t, true).isDst
  {
    hide BrokenDown, Timegm, LocalAt, WellFormed;
    var local := LocalAt(data, t, true);
    TimegmOfBrokenDown(t + local.gmtOffset, local.isDst, local.gmtOffset);
  }

  /** Second t is read twice by the clocks, and this is the first time. */
  predicate FirstPassOfOverlap(data: Data, t: int)
    requires WellFormed(data)
  {
    var k := LastNotAfter(data.transitions, t, true);
    k + 1 < |data.transitions| && data.transitions[k + 1].localtime <= t + TypeAt(data, k).gmtOffset
  }

  /** The coming transition goes from daylight saving to standard time, one hour back. */
  predicate OneHourBack(data: Data, t: int)
    requires WellFormed(data)
  {
    var k := LastNotAfter(data.transitions, t, true);
    && k + 1 < |data.transitions|
    && TypeAt(data, k).isDst && !TypeAt(data, k + 1).isDst
    && TypeAt(data, k).gmtOffset - TypeAt(data, k + 1).gmtOffset == 3600
  }

  lemma OffsetsSpaced(data: Data, i: int, a: int, b: int)
    requires WellFormed(data) && Spaced(data) && 0 <= i < |data.transitions| - 1
    requires -1 <= a < |data.transitions| && -1 <= b < |data.transitions|
    ensures data.transitions[i + 1].gmttime - data.transitions[i].gmttime
            > TypeAt(data, a).gmtOffset - TypeAt(data, b).gmtOffset
  {
    var p := if a < 0 then 0 else data.transitions[a].localtimeIdx;
    var q := if b < 0 then 0 else data.transitions[b].localtimeIdx;
    assert data.transitions[i + 1].gmttime - data.transitions[i].gmttime
           > data.localtimes[p].gmtOffset - data.localtimes[q].gmtOffset;
  }

  lemma LocaltimeOf(data: Data, i: int)
    requires WellFormed(data) && 0 <= i < |data.transitions|
    ensures data.transitions[i].localtime == data.transitions[i].gmttime + TypeAt(data, i).gmtOffset
  {
  }

  /** The search by local time finds t's own transition, or the next one on the first pass. */
  lemma LocalSearch(data: Data, t: int)
    requires WellFormed(data) && Spaced(data)
    ensures var k := LastNotAfter(data.transitions, t, true);
            LastNotAfter(data.transitions, t + TypeAt(data, k).gmtOffset, false)
            == if FirstPassOfOverlap(data, t) then k + 1 else k
  {
    hide LastNotAfter, WellFormed, Spaced, Sorted, TypeAt;
    SpacedBothSorted(data);
    var trans := data.transitions;
    var k := LastNotAfter(trans, t, true);
    if k >= 0 { LocaltimeOf(data, k); }
    if k + 1 < |trans| { LocaltimeOf(data, k + 1); }
    if k + 2 < |trans| { LocaltimeOf(data, k + 2); }
    var s := t + TypeAt(data, k).gmtOffset;
    if FirstPassOfOverlap(data, t) {
      if k + 2 < |trans| { OffsetsSpaced(data, k + 1, k, k + 2); }
      LastNotAfterUnique(trans, s, false, k + 1);
    } else {
      LastNotAfterUnique(trans, s, false, k);
    }
  }

  /** On the first pass, the same local time under the next type is an instant after the transition. */
  lemma SecondPass(data: Data, t: int)
    requires WellFormed(data) && Spaced(data) && FirstPassOfOverlap(data, t)
    ensures var k := LastNotAfter(data.transitions, t, true);
            var back := TypeAt(data, k).gmtOffset - TypeAt(data, k + 1).gmtOffset;
            back > 0 && LastNotAfter(data.transitions, t + back, true) == k + 1
  {
    hide LastNotAfter, WellFormed, Spaced, Sorted, TypeAt;
    SpacedBothSorted(data);
    var trans := data.transitions;
    var k := LastNotAfter(trans, t, true);
    LocaltimeOf(data, k + 1);
    var back := TypeAt(data, k).gmtOffset - TypeAt(data, k + 1).gmtOffset;
    assert t < Key(trans[k + 1], true);
    if k + 2 < |trans| { OffsetsSpaced(data, k + 1, k, k + 1); }
    LastNotAfterUnique(trans, t + back, true, k + 1);
  }

  lemma RoundTripOutside(data: Data, t: int)
    requires WellFormed(data) && Spaced(data) && !FirstPassOfOverlap(data, t)
    ensures SecondsOfLocalTm(data, LocalTm(data, t)) == t
  {
    hide BrokenDown, Timegm, LastNotAfter;
    LocalSearch(data, t);
    var local := LocalAt(data, t, true);
    TimegmOfBrokenDown(t + local.gmtOffset, local.isDst, local.gmtOffset);
  }

  lemma RoundTripFirstPass(data: Data, t: int)
    requires WellFormed(data) && Spaced(data) && FirstPassOfOverlap(data, t)
    ensures SecondsOfLocalTm(data, LocalTm(data, t)) == t <==> OneHourBack(data, t)
  {
    hide BrokenDown, Timegm, LastNotAfter, WellFormed, Spaced, TypeAt;
    var k := LastNotAfter(data.transitions, t, true);
    var local, next := TypeAt(data, k), TypeAt(data, k + 1);
    LocalSearch(data, t);
    SecondPass(data, t);
    TimegmOfBrokenDown(t + local.gmtOffset, local.isDst, local.gmtOffset);
    var back := local.gmtOffset - next.gmtOffset;
    assert LocalTm(data, t + back) ==
           BrokenDown(t + local.gmtOffset).(isDst := next.isDst, gmtOff := next.gmtOffset);
  }

  /**
    Local time leads back to the instant it came from, except on the first pass through an
    overlap; there it does so exactly for one-hour changes from daylight saving to standard time.
   */
  lemma LocalTimeRoundTrip(data: Data, t: int)
    requires WellFormed(data) && Spaced(data)
    ensures SecondsOfLocalTm(data, LocalTm(data, t)) == t
            <==> !FirstPassOfOverlap(data, t) || OneHourBack(data, t)
  {
    if FirstPassOfOverlap(data, t) { RoundTripFirstPass(data, t); } else { RoundTripOutside(data, t); }
  }

  /** The clocks show local second x at instant t. */
  predicate Shows(data: Data, t: int, x: int)
    requires WellFormed(data)
  {
    t + LocalAt(data, t, true).gmtOffset == x
  }

  /** The instant that the search by local time alone leads to. */
  function Plain(data: Data, x: int): int
    requires WellFormed(data)
  {
    x - LocalAt(data, x, false).gmtOffset
  }

  /** If the clocks ever show x, the search finds the last instant at which they do. */
  lemma PlainIsLast(data: Data, t: int, x: int)
    requires WellFormed(data) && Spaced(data) && Shows(data, t, x)
    ensures Shows(data, Plain(data, x), x) && t <= Plain(data, x)
  {
    hide LastNotAfter, WellFormed, Spaced, TypeAt;
    LocalSearch(data, t);
    if FirstPassOfOverlap(data, t) { SecondPass(data, t); }
  }

  lemma ClockOf(t: int)
    ensures BrokenDown(t).hour * 60 + BrokenDown(t).min == t % SECONDS_PER_DAY / 60
    ensures 0 <= BrokenDown(t).min < 60
  {
    hide DateOf, DayOfYear;
    SecondsOfDay(t);
  }

  lemma WithinDay(days: int, s: int)
    requires 0 <= s < SECONDS_PER_DAY
    ensures (days * SECONDS_PER_DAY + s) % SECONDS_PER_DAY == s
  {
  }

  lemma MinuteOfDay(hour: int, min: int, sec: int)
    requires 0 <= min < 60 && 0 <= sec < 60
    ensures (hour * 3600 + min * 60 + sec) / 60 == hour * 60 + min
  {
    assert hour * 3600 + min * 60 + sec == (hour * 60 + min) * 60 + sec;
  }

  lemma ClockOfLocalTm(tm: Tm)
    requires 0 <= tm.hour < 24 && 0 <= tm.min < 60 && 0 <= tm.sec < 60
    ensures Timegm(tm) % SECONDS_PER_DAY / 60 == tm.hour * 60 + tm.min
  {
    hide DayNumber;
    var d := YearMonthDay(tm.year + 1900 + tm.mon / 12, tm.mon % 12 + 1, tm.mday);
    WithinDay(DayNumber(d) - JULIAN_DAY_OF_1970_01_01, tm.hour * 3600 + tm.min * 60 + tm.sec);
    MinuteOfDay(tm.hour, tm.min, tm.sec);
  }

  /**
    What every local time means, whether the clocks show it once, twice or never. If they do, the
    result is the last instant at which they do, or an hour earlier if daylight saving is claimed and
    not in force there. If the time is skipped, the result is what the offset before the gap gives,
    and the hour is taken off only if the clocks then show the same hour and minute.
   */
  lemma InstantOfLocalTime(data: Data, tm: Tm)
    requires WellFormed(data) && Spaced(data) && 0 <= tm.hour < 24 && 0 <= tm.min < 60 && 0 <= tm.sec < 60
    ensures var x, r := Timegm(tm), SecondsOfLocalTm(data, tm);
            var plain := Plain(data, x);
            var early := tm.isDst && !LocalAt(data, plain, true).isDst;
            var shown := plain + LocalAt(data, plain, true).gmtOffset;
            && (forall t | Shows(data, t, x) :: shown == x && t <= plain)
            && (shown == x ==> r == if early then plain - 3600 else plain)
            && (shown != x ==>
                  r == if early && shown % SECONDS_PER_DAY / 60 == tm.hour * 60 + tm.min then plain - 3600 else plain)
  {
    hide BrokenDown, Timegm, LocalAt, WellFormed, Spaced;
    var x := Timegm(tm);
    var plain := Plain(data, x);
    forall t | Shows(data, t, x) ensures Shows(data, plain, x) && t <= plain { PlainIsLast(data, t, x); }
    ClockOf(plain + LocalAt(data, plain, true).gmtOffset);
    ClockOfLocalTm(tm);
  }

  /** A change of half an hour back (Lord Howe Island): the first pass is read an hour too early. */
  lemma HalfHourBackFails()
    ensures var data := Data([Transition(0, 37800, 1)], [Localtime(39600, true, 0), Localtime(37800, false, 0)]);
            && WellFormed(data) && Spaced(data)
            && SecondsOfLocalTm(data, LocalTm(data, -1)) == -1801
  {
    var data := Data([Transition(0, 37800, 1)], [Localtime(39600, true, 0), Localtime(37800, false, 0)]);
    hide BrokenDown, Timegm;
    TimegmOfBrokenDown(39599, true, 39600);
    assert LocalAt(data, -1, true) == data.localtimes[0];
    assert LocalAt(data, 39599, false) == data.localtimes[1];
    assert LocalAt(data, 1799, true) == data.localtimes[1];
  }
}
