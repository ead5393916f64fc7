/** AnalyticsCreator: the numbers and texts of a report, computed from the
    readings of one device.

    getMeans, getStandardDeviation, getMin and getMax first sort the
    caller's list by timestamp, in place (the ReadingList class below), and
    then group it by Sao Paulo day of month (and, for the means, by 4-hour
    period of the day). The statistics themselves are those of the
    Statistics module. */
module Analytics {
  import opened Common
  import opened Calendar
  import opened Domain
  import opened Statistics

  /* ---------- the caller's list and its in-place sort ---------- */

  predicate SortedByTime(s: seq<Reading>)
  {
    forall i, j :: 0 <= i < j < |s| ==> s[i].timestamp <= s[j].timestamp
  }

  /** Places r after every reading of sorted that is not later than it, so
      readings with equal timestamps keep their order. */
  function InsertByTime(sorted: seq<Reading>, r: Reading): seq<Reading>
  {
    if sorted == [] || sorted[|sorted| - 1].timestamp <= r.timestamp then sorted + [r]
    else InsertByTime(sorted[..|sorted| - 1], r) + [sorted[|sorted| - 1]]
  }

  /** Inserting adds r and nothing else. */
  lemma {:induction false} InsertByTimeAddsOne(sorted: seq<Reading>, r: Reading)
    ensures multiset(InsertByTime(sorted, r)) == multiset(sorted) + multiset{r}
  {
    if sorted != [] && sorted[|sorted| - 1].timestamp > r.timestamp {
      var init, last := sorted[..|sorted| - 1], sorted[|sorted| - 1];
      assert sorted == init + [last];
      InsertByTimeAddsOne(init, r);
    }
  }

  /** Inserting a reading no later than a bound into readings no later
      than it gives readings no later than it. */
  lemma {:induction false} InsertByTimeBounded(s: seq<Reading>, r: Reading, bound: Instant)
    requires forall k :: 0 <= k < |s| ==> s[k].timestamp <= bound
    requires r.timestamp <= bound
    ensures forall k :: 0 <= k < |InsertByTime(s, r)| ==> InsertByTime(s, r)[k].timestamp <= bound
  {
    if s != [] && s[|s| - 1].timestamp > r.timestamp {
      InsertByTimeBounded(s[..|s| - 1], r, bound);
    }
  }

  /** Inserting into an ordered list keeps it ordered. */
  lemma {:induction false} InsertByTimeSorted(sorted: seq<Reading>, r: Reading)
    requires SortedByTime(sorted)
    ensures SortedByTime(InsertByTime(sorted, r))
  {
    if sorted != [] && sorted[|sorted| - 1].timestamp > r.timestamp {
      var init, last := sorted[..|sorted| - 1], sorted[|sorted| - 1];
      InsertByTimeSorted(init, r);
      var mid := InsertByTime(init, r);
      InsertByTimeBounded(init, r, last.timestamp);
      var res := mid + [last];
      assert InsertByTime(sorted, r) == res;
      forall i, j | 0 <= i < j < |res|
        ensures res[i].timestamp <= res[j].timestamp
      {
        if j < |mid| {
          assert res[i] == mid[i] && res[j] == mid[j];
        }
      }
    }
  }

  /** List.sort(Comparator.comparing(Reading::getTimestamp)), a stable sort
      by timestamp: the result is ordered and holds the same readings. */
  function SortByTime(s: seq<Reading>): (res: seq<Reading>)
    ensures SortedByTime(res)
    ensures multiset(res) == multiset(s)
  {
    if s == [] then []
    else
      var init := SortByTime(s[..|s| - 1]);
      InsertByTimeSorted(init, s[|s| - 1]);
      InsertByTimeAddsOne(init, s[|s| - 1]);
      assert s == s[..|s| - 1] + [s[|s| - 1]];
      InsertByTime(init, s[|s| - 1])
  }

  /** Sorting a list that is already in order leaves it as it is, so the
      repeated sorts of one list by the four statistics change it at most once. */
  lemma {:induction false} SortSortedIsIdentity(s: seq<Reading>)
    requires SortedByTime(s)
    ensures SortByTime(s) == s
  {
    if s != [] {
      var init := s[..|s| - 1];
      SortSortedIsIdentity(init);
      assert s == init + [s[|s| - 1]];
    }
  }

  /** The List<Reading> the caller passes in and that the statistics sort. */
  class ReadingList {
    var items: seq<Reading>

    constructor (items: seq<Reading>)
      ensures this.items == items
    {
      this.items := items;
    }
  }

  /* ---------- day and period of a reading ---------- */

  /** getDay: the day of the month of the instant in Sao Paulo. */
  function DayOf(t: Instant): int
  {
    Civil(LocalDateOf(t, SAO_PAULO_OFFSET)).day
  }

  const PERIOD_LABELS: seq<string> := ["0-4h", "4-8h", "8-12h", "12-16h", "16-20h", "20-0h"]

  /** The label getPeriod gives an hour of the day. */
  function PeriodLabel(hour: int): string
  {
    if hour >= 0 && hour < 4 then "0-4h"
    else if hour >= 4 && hour < 8 then "4-8h"
    else if hour >= 8 && hour < 12 then "8-12h"
    else if hour >= 12 && hour < 16 then "12-16h"
    else if hour >= 16 && hour < 20 then "16-20h"
    else "20-0h"
  }

  /** getPeriod: the 4-hour period of the instant's hour in Sao Paulo. */
  function PeriodOf(t: Instant): string
  {
    PeriodLabel(LocalHourOf(t, SAO_PAULO_OFFSET))
  }

  /** Every hour of the day gets the label of its quarter h / 4, in order. */
  lemma PeriodLabelByQuarter(hour: int)
    requires 0 <= hour < 24
    ensures PeriodLabel(hour) == PERIOD_LABELS[hour / 4]
  {
  }

  /** Every instant falls in one of the six labelled periods, on a day of the
      month from 1 to 31. */
  lemma PeriodAndDayOfInstant(t: Instant)
    ensures PeriodOf(t) in PERIOD_LABELS
    ensures 1 <= DayOf(t) <= 31
  {
    PeriodLabelByQuarter(LocalHourOf(t, SAO_PAULO_OFFSET));
  }

  /* ---------- grouping ---------- */

  /** The values of the readings, in order. */
  function Values(rs: seq<Reading>): (vs: seq<real>)
    ensures |vs| == |rs|
    ensures forall k :: 0 <= k < |rs| ==> vs[k] == rs[k].value
  {
    if rs == [] then [] else Values(rs[..|rs| - 1]) + [rs[|rs| - 1].value]
  }

  /** The days of the month that have readings: the keys of the per-day maps. */
  function Days(rs: seq<Reading>): set<int>
  {
    set r | r in rs :: DayOf(r.timestamp)
  }

  /** The periods of a day that have readings: the keys of that day's means. */
  function PeriodsOn(rs: seq<Reading>, day: int): set<string>
  {
    set r | r in rs && DayOf(r.timestamp) == day :: PeriodOf(r.timestamp)
  }

  /** groupingBy(getDay): the readings of one day, in list order. */
  function OnDay(rs: seq<Reading>, day: int): seq<Reading>
  {
    if rs == [] then []
    else
      var last := rs[|rs| - 1];
      OnDay(rs[..|rs| - 1], day) + (if DayOf(last.timestamp) == day then [last] else [])
  }

  /** groupingBy(getDay, groupingBy(getPeriod)): the readings of one period
      of one day, in list order. */
  function InPeriod(rs: seq<Reading>, day: int, period: string): seq<Reading>
  {
    if rs == [] then []
    else
      var last := rs[|rs| - 1];
      InPeriod(rs[..|rs| - 1], day, period)
      + (if DayOf(last.timestamp) == day && PeriodOf(last.timestamp) == period then [last] else [])
  }

  /** Each reading is in the group of its own day, as often as it is in the
      list, and in no other day's group. */
  lemma {:induction false} OnDayCount(rs: seq<Reading>, day: int, r: Reading)
    ensures multiset(OnDay(rs, day))[r] == if DayOf(r.timestamp) == day then multiset(rs)[r] else 0
  {
    if rs != [] {
      var init := rs[..|rs| - 1];
      assert rs == init + [rs[|rs| - 1]];
      OnDayCount(init, day, r);
    }
  }

  /** Each reading is in the group of its own (day, period), as often as it
      is in the list, and in no other group. */
  lemma {:induction false} InPeriodCount(rs: seq<Reading>, day: int, period: string, r: Reading)
    ensures multiset(InPeriod(rs, day, period))[r] ==
            if DayOf(r.timestamp) == day && PeriodOf(r.timestamp) == period then multiset(rs)[r] else 0
  {
    if rs != [] {
      var init := rs[..|rs| - 1];
      assert rs == init + [rs[|rs| - 1]];
      InPeriodCount(init, day, period, r);
    }
  }

  /** A day that is a key has at least one reading. */
  lemma DayGroupNonEmpty(rs: seq<Reading>, day: int)
    requires day in Days(rs)
    ensures |OnDay(rs, day)| > 0
  {
    var r :| r in rs && DayOf(r.timestamp) == day;
    OnDayCount(rs, day, r);
  }

  /** A period that is a key of a day has at least one reading. */
  lemma PeriodGroupNonEmpty(rs: seq<Reading>, day: int, period: string)
    requires period in PeriodsOn(rs, day)
    ensures |InPeriod(rs, day, period)| > 0
  {
    var r :| r in rs && DayOf(r.timestamp) == day && PeriodOf(r.timestamp) == period;
    InPeriodCount(rs, day, period, r);
  }

  /** Reordering the readings changes neither the days nor the periods. */
  lemma KeysOfPermutation(a: seq<Reading>, b: seq<Reading>)
    requires multiset(a) == multiset(b)
    ensures Days(a) == Days(b)
    ensures forall day :: PeriodsOn(a, day) == PeriodsOn(b, day)
  {
    assert forall r :: r in a <==> r in multiset(a);
    assert forall r :: r in b <==> r in multiset(b);
  }

  /** An empty list has no groups. */
  lemma EmptyListHasNoKeys()
    ensures Days([]) == {}
    ensures forall day :: PeriodsOn([], day) == {}
  {
  }

  /* ---------- the statistics of AnalyticsCreator ---------- */

  /** getMean: 0 for no readings, otherwise the sum of the values over their
      number. */
  method GetMean(readings: seq<Reading>) returns (mean: real)
    ensures readings == [] ==> mean == 0.0
    ensures readings != [] ==> mean == Mean(Values(readings))
  {
    if readings == [] {
      return 0.0;
    }
    var sum := 0.0;
    var i := 0;
    while i < |readings|
      invariant 0 <= i <= |readings|
      invariant sum == Sum(Values(readings[..i]))
    {
      assert readings[..i + 1] == readings[..i] + [readings[i]];
      sum := sum + readings[i].value;
      i := i + 1;
    }
    assert readings[..i] == readings;
    mean := sum / (|readings| as real);
  }

  /** The mean of one period of one day that has readings. */
  function PeriodMean(rs: seq<Reading>, day: int, period: string): real
    requires period in PeriodsOn(rs, day)
  {
    PeriodGroupNonEmpty(rs, day, period);
    Mean(Values(InPeriod(rs, day, period)))
  }

  /** The means of the periods of one day. */
  function DayMeans(rs: seq<Reading>, day: int): map<string, real>
  {
    map period | period in PeriodsOn(rs, day) :: PeriodMean(rs, day, period)
  }

  /** The value getMeans returns for a list: day, then period, to mean. */
  function MeansByDay(rs: seq<Reading>): map<int, map<string, real>>
  {
    map day | day in Days(rs) :: DayMeans(rs, day)
  }

  /** The statistics kept per day. */
  datatype DayStatistic = Deviation(sqrt: real -> real) | Minimum | Maximum

  function StatisticOf(stat: DayStatistic, group: seq<real>): real
    requires |group| > 0
  {
    match stat
    case Deviation(sqrt) => StandardDeviation(group, sqrt)
    case Minimum => MinOf(group)
    case Maximum => MaxOf(group)
  }

  /** The statistic of the values of one day that has readings. */
  function DayValue(rs: seq<Reading>, day: int, stat: DayStatistic): real
    requires day in Days(rs)
  {
    DayGroupNonEmpty(rs, day);
    StatisticOf(stat, Values(OnDay(rs, day)))
  }

  /** The map getStandardDeviation, getMin or getMax returns for a list. */
  function ByDay(rs: seq<Reading>, stat: DayStatistic): map<int, real>
  {
    map day | day in Days(rs) :: DayValue(rs, day, stat)
  }

  /** getMeans: sorts the list, then maps every day with readings to a map
      from each of its periods with readings to the mean of that group. */
  method GetMeans(list: ReadingList) returns (meanByPeriodByDay: map<int, map<string, real>>)
    modifies list
    ensures list.items == SortByTime(old(list.items))
    ensures meanByPeriodByDay == MeansByDay(list.items)
  {
    list.items := SortByTime(list.items);
    var rs := list.items;
    meanByPeriodByDay := map[];
    var days := Days(rs);
    while days != {}
      invariant list.items == rs
      invariant days <= Days(rs)
      invariant meanByPeriodByDay.Keys == Days(rs) - days
      invariant forall day :: day in meanByPeriodByDay ==> meanByPeriodByDay[day] == DayMeans(rs, day)
      decreases days
    {
      var day :| day in days;
      var meanByPeriod := PeriodMeans(rs, day);
      meanByPeriodByDay := meanByPeriodByDay[day := meanByPeriod];
      days := days - {day};
    }
    assert meanByPeriodByDay == MeansByDay(rs);
  }

  /** The inner loop of getMeans: the mean of each period of one day. */
  method PeriodMeans(rs: seq<Reading>, day: int) returns (meanByPeriod: map<string, real>)
    ensures meanByPeriod == DayMeans(rs, day)
  {
    meanByPeriod := map[];
    var periods := PeriodsOn(rs, day);
    while periods != {}
      invariant periods <= PeriodsOn(rs, day)
      invariant meanByPeriod.Keys == PeriodsOn(rs, day) - periods
      invariant forall period :: period in meanByPeriod ==> meanByPeriod[period] == PeriodMean(rs, day, period)
      decreases periods
    {
      var period :| period in periods;
      meanByPeriod := meanByPeriod[period := PeriodMean(rs, day, period)];
      periods := periods - {period};
    }
    assert meanByPeriod == DayMeans(rs, day);
  }

  /** The per-day loop shared by getStandardDeviation, getMin and getMax. */
  method StatisticByDay(rs: seq<Reading>, stat: DayStatistic) returns (byDay: map<int, real>)
    ensures byDay == ByDay(rs, stat)
  {
    byDay := map[];
    var days := Days(rs);
    while days != {}
      invariant days <= Days(rs)
      invariant byDay.Keys == Days(rs) - days
      invariant forall day :: day in byDay ==> byDay[day] == DayValue(rs, day, stat)
      decreases days
    {
      var day :| day in days;
      byDay := byDay[day := DayValue(rs, day, stat)];
      days := days - {day};
    }
    assert byDay == ByDay(rs, stat);
  }

  /** getStandardDeviation: sorts the list, then maps every day with
      readings to the sample standard deviation of that day's values. */
  method GetStandardDeviation(list: ReadingList, sqrt: real -> real) returns (deviationByDay: map<int, real>)
    modifies list
    ensures list.items == SortByTime(old(list.items))
    ensures deviationByDay == ByDay(list.items, Deviation(sqrt))
  {
    list.items := SortByTime(list.items);
    deviationByDay := StatisticByDay(list.items, Deviation(sqrt));
  }

  /** getMin: sorts the list, then maps every day with readings to the least
      value of that day. */
  method GetMin(list: ReadingList) returns (minByDay: map<int, real>)
    modifies list
    ensures list.items == SortByTime(old(list.items))
    ensures minByDay == ByDay(list.items, Minimum)
  {
    list.items := SortByTime(list.items);
    minByDay := StatisticByDay(list.items, Minimum);
  }

  /** getMax: sorts the list, then maps every day with readings to the
      greatest value of that day. */
  method GetMax(list: ReadingList) returns (maxByDay: map<int, real>)
    modifies list
    ensures list.items == SortByTime(old(list.items))
    ensures maxByDay == ByDay(list.items, Maximum)
  {
    list.items := SortByTime(list.items);
    maxByDay := StatisticByDay(list.items, Maximum);
  }

  /** The per-day maps have a key for each day with readings, and the sort
      that precedes them does not change which. */
  lemma ByDayKeys(rs: seq<Reading>, stat: DayStatistic)
    ensures ByDay(rs, stat).Keys == Days(rs) == ByDay(SortByTime(rs), stat).Keys
  {
    KeysOfPermutation(rs, SortByTime(rs));
  }

  /** The means have a key for each day with readings and, under it, for
      each period of that day with readings; the sort that precedes them
      does not change which. */
  lemma MeansKeys(rs: seq<Reading>)
    ensures MeansByDay(rs).Keys == Days(rs) == MeansByDay(SortByTime(rs)).Keys
    ensures forall day :: day in MeansByDay(rs) ==> MeansByDay(rs)[day].Keys == PeriodsOn(rs, day)
  {
    KeysOfPermutation(rs, SortByTime(rs));
  }

  /** A reading's value is the value of some reading of its own group. */
  lemma InOwnDayGroup(rs: seq<Reading>, r: Reading)
    requires r in rs
    ensures r.value in Values(OnDay(rs, DayOf(r.timestamp)))
  {
    OnDayCount(rs, DayOf(r.timestamp), r);
    var g := OnDay(rs, DayOf(r.timestamp));
    assert r in multiset(g);
    var k :| 0 <= k < |g| && g[k] == r;
    assert Values(g)[k] == r.value;
  }

  /** A value of a day's group is the value of a reading of that day. */
  lemma DayGroupValueIsReading(rs: seq<Reading>, day: int, v: real)
    requires v in Values(OnDay(rs, day))
    ensures exists q :: q in rs && DayOf(q.timestamp) == day && q.value == v
  {
    var g := OnDay(rs, day);
    var k :| 0 <= k < |g| && Values(g)[k] == v;
    OnDayCount(rs, day, g[k]);
    assert g[k] in multiset(g);
  }

  /** The minimum of a day is the value of one of its readings and no
      reading of that day is below it; the maximum likewise from above. */
  lemma DayMinMaxBound(rs: seq<Reading>, r: Reading)
    requires r in rs
    ensures var day := DayOf(r.timestamp);
            day in ByDay(rs, Minimum) && day in ByDay(rs, Maximum)
            && ByDay(rs, Minimum)[day] <= r.value <= ByDay(rs, Maximum)[day]
            && (exists q :: q in rs && DayOf(q.timestamp) == day && q.value == ByDay(rs, Minimum)[day])
            && (exists q :: q in rs && DayOf(q.timestamp) == day && q.value == ByDay(rs, Maximum)[day])
  {
    var day := DayOf(r.timestamp);
    InOwnDayGroup(rs, r);
    var g := Values(OnDay(rs, day));
    DayGroupValueIsReading(rs, day, MinOf(g));
    DayGroupValueIsReading(rs, day, MaxOf(g));
  }

  /** A period's mean lies between the least and the greatest value of that
      period. */
  lemma PeriodMeanBetween(rs: seq<Reading>, day: int, period: string)
    requires day in MeansByDay(rs) && period in MeansByDay(rs)[day]
    ensures var g := Values(InPeriod(rs, day, period));
            |g| > 0 && MinOf(g) <= MeansByDay(rs)[day][period] <= MaxOf(g)
  {
    PeriodGroupNonEmpty(rs, day, period);
    MeanBetweenMinAndMax(Values(InPeriod(rs, day, period)));
  }

  /* ---------- time in the working range ---------- */

  /** A value inside the working range, bounds included. */
  predicate InRange(v: real, lo: real, hi: real)
  {
    v >= lo && v <= hi
  }

  /** A value strictly outside the working range. */
  predicate OutOfRange(v: real, lo: real, hi: real)
  {
    v < lo || v > hi
  }

  /** The number of readings inside the working range. */
  function CountInRange(rs: seq<Reading>, lo: real, hi: real): (n: nat)
    ensures n <= |rs|
  {
    if rs == [] then 0
    else CountInRange(rs[..|rs| - 1], lo, hi) + (if InRange(rs[|rs| - 1].value, lo, hi) then 1 else 0)
  }

  /** The number of readings strictly outside the working range. */
  function CountOutOfRange(rs: seq<Reading>, lo: real, hi: real): nat
  {
    if rs == [] then 0
    else CountOutOfRange(rs[..|rs| - 1], lo, hi) + (if OutOfRange(rs[|rs| - 1].value, lo, hi) then 1 else 0)
  }

  /** Inside (bounds included) and strictly outside split the readings: a
      value equal to a bound counts as inside. */
  lemma {:induction false} RangeCountsPartition(rs: seq<Reading>, lo: real, hi: real)
    ensures CountInRange(rs, lo, hi) + CountOutOfRange(rs, lo, hi) == |rs|
  {
    if rs != [] {
      RangeCountsPartition(rs[..|rs| - 1], lo, hi);
    }
  }

  /** getWorkingPeriodInCorrectTemperatureRange: three minutes per reading in
      the temperature range, as text. */
  function WorkingPeriodInTemperatureRange(device: Device, rs: seq<Reading>): string
  {
    FormatTime(3 * CountInRange(rs, device.minWorkingTemp, device.maxWorkingTemp))
  }

  /** getWorkingPeriodInCorrectHumidityRange: three minutes per reading in
      the humidity range, as text. */
  function WorkingPeriodInHumidityRange(device: Device, rs: seq<Reading>): string
  {
    FormatTime(3 * CountInRange(rs, device.minWorkingHumidity, device.maxWorkingHumidity))
  }

  /** The time in range reads back as three minutes per reading in range,
      which is at most three minutes per reading. */
  lemma WorkingPeriodReadsBack(device: Device, rs: seq<Reading>)
    ensures var t := 3 * CountInRange(rs, device.minWorkingTemp, device.maxWorkingTemp);
            ParseDuration(WorkingPeriodInTemperatureRange(device, rs)) == Some(t) && t <= 3 * |rs|
    ensures var h := 3 * CountInRange(rs, device.minWorkingHumidity, device.maxWorkingHumidity);
            ParseDuration(WorkingPeriodInHumidityRange(device, rs)) == Some(h) && h <= 3 * |rs|
  {
    FormatTimeRoundTrip(3 * CountInRange(rs, device.minWorkingTemp, device.maxWorkingTemp));
    FormatTimeRoundTrip(3 * CountInRange(rs, device.minWorkingHumidity, device.maxWorkingHumidity));
  }

  /* ---------- formatTime and its reading back ---------- */

  const MINUTES_PER_DAY: nat := 1440

  datatype TimeUnit = Day | Hour | Minute

  function UnitName(unit: TimeUnit): string
  {
    match unit
    case Day => "dia"
    case Hour => "hora"
    case Minute => "minuto"
  }

  /** The minutes in one unit. */
  function UnitFactor(unit: TimeUnit): nat
  {
    match unit
    case Day => MINUTES_PER_DAY
    case Hour => 60
    case Minute => 1
  }

  /** A unit name with the plural "s" when the amount is above 1. */
  function Plural(unit: string, n: nat): string
  {
    if n > 1 then unit + "s" else unit
  }

  /** The text of one amount: the number, a space and the unit, with the
      plural "s" above 1. */
  function AmountText(n: nat, unit: TimeUnit): string
  {
    NatStr(n) + " " + Plural(UnitName(unit), n)
  }

  /** An amount of one of the three units reads back as its minutes. */
  lemma ParseAmountText(n: nat, unit: TimeUnit)
    ensures ParseAmount(AmountText(n, unit)) == Some(n * UnitFactor(unit))
    ensures ',' !in AmountText(n, unit)
  {
    var digits, word := NatStr(n), Plural(UnitName(unit), n);
    NatStrValue(n);
    UnitWordReadsBack(n, unit);
    NonDigitNotIn(digits, ',');
    DigitsAndWordReadBack(digits, word, n, UnitFactor(unit));
  }

  /** Each unit word, with its number agreement, names its own unit. */
  lemma UnitWordReadsBack(n: nat, unit: TimeUnit)
    ensures UnitMinutes(Plural(UnitName(unit), n), n) == Some(UnitFactor(unit))
    ensures ' ' !in Plural(UnitName(unit), n) && ',' !in Plural(UnitName(unit), n)
  {
  }

  /** A number and a unit word separated by one space read back as the
      number times the unit's minutes. */
  lemma DigitsAndWordReadBack(digits: string, word: string, n: nat, factor: nat)
    requires digits != [] && AllDigits(digits) && DigitsValue(digits) == n
    requires ' ' !in word && UnitMinutes(word, n) == Some(factor)
    ensures ParseAmount(digits + " " + word) == Some(n * factor)
  {
    NonDigitNotIn(digits, ' ');
    assert digits + " " + word == digits + [' '] + word;
    SplitAfterPrefix(digits, ' ', word);
    SplitWithoutSeparator(word, ' ');
  }

  /** formatTime: "<d> dia[s], " when there are whole days, "<h> hora[s], "
      when there are hours left, and always "<m> minuto[s]". */
  function FormatTime(totalMinutes: nat): string
  {
    var days := totalMinutes / MINUTES_PER_DAY;
    var hours := (totalMinutes % MINUTES_PER_DAY) / 60;
    var minutes := totalMinutes % 60;
    DurationText(days, hours, minutes)
  }

  /** The text formatTime builds from the days, hours and minutes. */
  function DurationText(days: nat, hours: nat, minutes: nat): string
  {
    (if days > 0 then AmountText(days, Day) + ", " else "")
    + (if hours > 0 then AmountText(hours, Hour) + ", " else "")
    + AmountText(minutes, Minute)
  }

  /** Days, hours and minutes add back up to the total. */
  lemma MinutesSplit(totalMinutes: nat)
    ensures totalMinutes == (totalMinutes / MINUTES_PER_DAY) * MINUTES_PER_DAY
                            + ((totalMinutes % MINUTES_PER_DAY) / 60) * 60 + totalMinutes % 60
  {
    var q, r := totalMinutes / MINUTES_PER_DAY, totalMinutes % MINUTES_PER_DAY;
    assert totalMinutes == q * MINUTES_PER_DAY + r;
    assert r == (r / 60) * 60 + r % 60;
    assert totalMinutes == (q * 24 + r / 60) * 60 + r % 60;
    assert totalMinutes % 60 == r % 60;
  }

  /** 1440 minutes are one day and no minutes: the hour part is left out and
      the zero minutes keep the singular. */
  lemma FormatTimeOfOneDay()
    ensures FormatTime(1440) == "1 dia, 0 minuto"
  {
  }

  /** The minutes one unit stands for, when the word is that unit with the
      number agreement formatTime uses. */
  function UnitMinutes(word: string, n: nat): Option<nat>
  {
    if word == Plural(UnitName(Day), n) then Some(UnitFactor(Day))
    else if word == Plural(UnitName(Hour), n) then Some(UnitFactor(Hour))
    else if word == Plural(UnitName(Minute), n) then Some(UnitFactor(Minute))
    else None
  }

  /** "<digits> <unit>" read as a number of minutes. */
  function ParseAmount(p: string): Option<nat>
  {
    var words := SplitOnChar(p, ' ');
    if |words| == 2 && words[0] != [] && AllDigits(words[0]) then
      var n := DigitsValue(words[0]);
      match UnitMinutes(words[1], n)
      case None => None
      case Some(factor) => Some(n * factor)
    else None
  }

  /** The first amount, then the others, each after a space. */
  function ParseAmounts(first: string, rest: seq<string>): Option<nat>
    decreases |rest|
  {
    match ParseAmount(first)
    case None => None
    case Some(a) =>
      if rest == [] then Some(a)
      else if rest[0] != [] && rest[0][0] == ' ' then
        match ParseAmounts(rest[0][1..], rest[1..])
        case None => None
        case Some(b) => Some(a + b)
      else None
  }

  /** Reads a duration text back as its total number of minutes: the
      ", "-separated amounts, summed. */
  function ParseDuration(s: string): Option<nat>
  {
    var parts := SplitOnChar(s, ',');
    ParseAmounts(parts[0], parts[1..])
  }

  /** A single amount reads back as itself. */
  lemma ParseOneAmount(m: string, c: nat)
    requires ',' !in m && ParseAmount(m) == Some(c)
    ensures ParseDuration(m) == Some(c)
  {
    SplitWithoutSeparator(m, ',');
  }

  /** Two amounts joined by ", " read back as their sum. */
  lemma ParseTwoAmounts(a: string, m: string, x: nat, c: nat)
    requires ',' !in a && ',' !in m
    requires ParseAmount(a) == Some(x) && ParseAmount(m) == Some(c)
    ensures ParseDuration(a + ", " + m) == Some(x + c)
  {
    var sm := " " + m;
    assert ',' !in sm;
    assert a + ", " + m == a + [','] + sm;
    SplitAfterPrefix(a, ',', sm);
    SplitWithoutSeparator(sm, ',');
    assert sm[1..] == m;
    assert ParseAmounts(m, []) == Some(c);
  }

  /** Three amounts joined by ", " read back as their sum. */
  lemma ParseThreeAmounts(a: string, b: string, m: string, x: nat, y: nat, c: nat)
    requires ',' !in a && ',' !in b && ',' !in m
    requires ParseAmount(a) == Some(x) && ParseAmount(b) == Some(y) && ParseAmount(m) == Some(c)
    ensures ParseDuration(a + ", " + b + ", " + m) == Some(x + y + c)
  {
    var sb, sm := " " + b, " " + m;
    assert ',' !in sb && ',' !in sm;
    assert a + ", " + b + ", " + m == a + [','] + (sb + [','] + sm);
    SplitAfterPrefix(a, ',', sb + [','] + sm);
    SplitAfterPrefix(sb, ',', sm);
    SplitWithoutSeparator(sm, ',');
    assert sb[1..] == b && sm[1..] == m;
    assert ParseAmounts(m, []) == Some(c);
    assert ParseAmounts(b, [sm]) == Some(y + c);
  }

  /** Amounts joined the way formatTime joins them, the first two only when
      their count is above zero, read back as their sum. */
  lemma JoinedAmountsReadBack(d: string, h: string, m: string, days: nat, hours: nat, minutes: nat)
    requires ',' !in d && ',' !in h && ',' !in m
    requires ParseAmount(d) == Some(days * MINUTES_PER_DAY)
    requires ParseAmount(h) == Some(hours * 60)
    requires ParseAmount(m) == Some(minutes)
    ensures ParseDuration((if days > 0 then d + ", " else "") + (if hours > 0 then h + ", " else "") + m)
            == Some(days * MINUTES_PER_DAY + hours * 60 + minutes)
  {
    var s := (if days > 0 then d + ", " else "") + (if hours > 0 then h + ", " else "") + m;
    if days > 0 && hours > 0 {
      assert s == d + ", " + h + ", " + m;
      ParseThreeAmounts(d, h, m, days * MINUTES_PER_DAY, hours * 60, minutes);
    } else if days > 0 {
      assert s == d + ", " + m;
      ParseTwoAmounts(d, m, days * MINUTES_PER_DAY, minutes);
    } else if hours > 0 {
      assert s == h + ", " + m;
      ParseTwoAmounts(h, m, hours * 60, minutes);
    } else {
      assert s == m;
      ParseOneAmount(m, minutes);
    }
  }

  /** The text of days, hours and minutes reads back as their total in
      minutes. */
  lemma DurationTextReadsBack(days: nat, hours: nat, minutes: nat)
    ensures ParseDuration(DurationText(days, hours, minutes)) == Some(days * MINUTES_PER_DAY + hours * 60 + minutes)
  {
    var d, h, m := AmountText(days, Day), AmountText(hours, Hour), AmountText(minutes, Minute);
    ParseAmountText(days, Day);
    ParseAmountText(hours, Hour);
    ParseAmountText(minutes, Minute);
    JoinedAmountsReadBack(d, h, m, days, hours, minutes);
  }

  /** Two comma-free parts joined by ", " split back into them; the second
      keeps the space after the comma. */
  lemma {:induction false} SplitTwoParts(a: string, b: string)
    requires ',' !in a && ',' !in b
    ensures SplitOnChar(a + ", " + b, ',') == [a, " " + b]
  {
    assert a + ", " + b == a + [','] + (" " + b);
    SplitAfterPrefix(a, ',', " " + b);
    SplitWithoutSeparator(" " + b, ',');
  }

  /** The same for three parts. */
  lemma {:induction false} SplitThreeParts(a: string, b: string, c: string)
    requires ',' !in a && ',' !in b && ',' !in c
    ensures SplitOnChar(a + ", " + b + ", " + c, ',') == [a, " " + b, " " + c]
  {
    var rest := (" " + b) + ", " + c;
    assert SplitOnChar(rest, ',') == [" " + b, " " + c] by {
      SplitTwoParts(" " + b, c);
    }
    assert SplitOnChar(a + [','] + rest, ',') == [a] + SplitOnChar(rest, ',') by {
      SplitAfterPrefix(a, ',', rest);
    }
    var head, b' := a + [','], " " + b;
    assert a + ", " + b == head + b' by {
      assert a + ", " == head + " ";
      AppendAssociates(head, " ", b);
    }
    assert head + b' + ", " + c == head + rest by {
      AppendAssociates(head, b', ", ");
      AppendAssociates(head, b' + ", ", c);
    }
  }

  /** Comma-free parts, each but the last followed by ", " when present,
      split back into those parts. */
  lemma {:induction false} JoinedParts(text: string, d: string, h: string, m: string, hasDays: bool, hasHours: bool)
    requires ',' !in d && ',' !in h && ',' !in m
    requires text == (if hasDays then d + ", " else "") + (if hasHours then h + ", " else "") + m
    ensures var parts := SplitOnChar(text, ',');
            |parts| == 1 + (if hasDays then 1 else 0) + (if hasHours then 1 else 0)
            && (hasDays ==> parts[0] == d)
            && (hasHours ==> parts[|parts| - 2] == (if hasDays then " " else "") + h)
            && parts[|parts| - 1] == (if hasDays || hasHours then " " else "") + m
  {
    if hasDays && hasHours {
      assert text == d + ", " + h + ", " + m;
      SplitThreeParts(d, h, m);
    } else if hasDays {
      assert text == d + ", " + m;
      SplitTwoParts(d, m);
    } else if hasHours {
      assert text == h + ", " + m;
      SplitTwoParts(h, m);
    } else {
      assert text == m;
      SplitWithoutSeparator(m, ',');
    }
  }

  /** The comma-separated parts of the text: a day part only when there are
      days, an hour part only when there are hours, and the minutes always,
      last. */
  lemma DurationParts(days: nat, hours: nat, minutes: nat)
    ensures var parts := SplitOnChar(DurationText(days, hours, minutes), ',');
            |parts| == 1 + (if days > 0 then 1 else 0) + (if hours > 0 then 1 else 0)
            && (days > 0 ==> parts[0] == AmountText(days, Day))
            && (hours > 0 ==> parts[|parts| - 2] == (if days > 0 then " " else "") + AmountText(hours, Hour))
            && parts[|parts| - 1] == (if days > 0 || hours > 0 then " " else "") + AmountText(minutes, Minute)
  {
    ParseAmountText(days, Day);
    ParseAmountText(hours, Hour);
    ParseAmountText(minutes, Minute);
    JoinedParts(DurationText(days, hours, minutes), AmountText(days, Day), AmountText(hours, Hour),
                AmountText(minutes, Minute), days > 0, hours > 0);
  }

  /** Reading back the text of a duration gives the duration. */
  lemma FormatTimeRoundTrip(totalMinutes: nat)
    ensures ParseDuration(FormatTime(totalMinutes)) == Some(totalMinutes)
  {
    MinutesSplit(totalMinutes);
    DurationTextReadsBack(totalMinutes / MINUTES_PER_DAY, (totalMinutes % MINUTES_PER_DAY) / 60, totalMinutes % 60);
  }

  /** Different durations give different texts. */
  lemma FormatTimeInjective(a: nat, b: nat)
    requires FormatTime(a) == FormatTime(b)
    ensures a == b
  {
    FormatTimeRoundTrip(a);
    FormatTimeRoundTrip(b);
  }

  /* ---------- the out-of-range notes ---------- */

  const EQUIPMENT_NOTE: string :=
    " (Importante: verificar a vedação, evitar deixar o equipamento aberto por muito tempo)"
  const ENVIRONMENT_NOTE: string :=
    " (Importante: verificar necessidade de manutenção do equipamento)"
  const HUMIDITY_NOTE: string :=
    " (Importante: valores de umidade fora do limite aceitável foram detectados por, pelo menos, 21 minutos consecutivos. Verifique imediatamente para ajustar as condições)"

  /** The number of consecutive readings that raise a note. */
  const STREAK: nat := 7

  /** The temperature note for a device's function. */
  function TemperatureNote(f: DeviceFunction): string
  {
    match f
    case Equipment => EQUIPMENT_NOTE
    case Environment => ENVIRONMENT_NOTE
  }

  /** STREAK readings from position i are all strictly out of range. */
  predicate RunAt(vs: seq<real>, i: int, lo: real, hi: real)
  {
    0 <= i && i + STREAK <= |vs| && forall k :: i <= k < i + STREAK ==> OutOfRange(vs[k], lo, hi)
  }

  /** Some STREAK consecutive values, in list order, are strictly out of range. */
  ghost predicate HasRun(vs: seq<real>, lo: real, hi: real)
  {
    exists i :: RunAt(vs, i, lo, hi)
  }

  /** The streak counter after the values: how many of the last ones are out
      of range, back to the last one in range. */
  function Trailing(vs: seq<real>, lo: real, hi: real): (n: nat)
    ensures n <= |vs|
  {
    if vs == [] || !OutOfRange(vs[|vs| - 1], lo, hi) then 0
    else Trailing(vs[..|vs| - 1], lo, hi) + 1
  }

  /** The last n values are out of range when the counter reached n. */
  lemma {:induction false} TrailingOut(vs: seq<real>, lo: real, hi: real, k: int)
    requires |vs| - Trailing(vs, lo, hi) <= k < |vs|
    ensures OutOfRange(vs[k], lo, hi)
  {
    if k < |vs| - 1 {
      TrailingOut(vs[..|vs| - 1], lo, hi, k);
    }
  }

  /** The counter is at least n when the last n values are out of range. */
  lemma {:induction false} TrailingAtLeast(vs: seq<real>, lo: real, hi: real, n: nat)
    requires n <= |vs|
    requires forall k :: |vs| - n <= k < |vs| ==> OutOfRange(vs[k], lo, hi)
    ensures Trailing(vs, lo, hi) >= n
  {
    if n > 0 {
      TrailingAtLeast(vs[..|vs| - 1], lo, hi, n - 1);
    }
  }

  /** A run in a longer list that is not in its prefix ends at its last value. */
  lemma NewRunEndsLast(vs: seq<real>, lo: real, hi: real)
    requires vs != [] && HasRun(vs, lo, hi) && !HasRun(vs[..|vs| - 1], lo, hi)
    ensures Trailing(vs, lo, hi) >= STREAK
  {
    var i :| RunAt(vs, i, lo, hi);
    var prefix := vs[..|vs| - 1];
    assert !RunAt(prefix, i, lo, hi);
    assert forall k :: i <= k < |prefix| ==> prefix[k] == vs[k];
    assert i + STREAK == |vs|;
    TrailingAtLeast(vs, lo, hi, STREAK);
  }

  /** A run in a prefix is a run in the whole list. */
  lemma RunInPrefix(vs: seq<real>, n: nat, lo: real, hi: real)
    requires n <= |vs| && HasRun(vs[..n], lo, hi)
    ensures HasRun(vs, lo, hi)
  {
    var i :| RunAt(vs[..n], i, lo, hi);
    assert RunAt(vs, i, lo, hi);
  }

  /** The streak loop shared by both notes: true at the first reading that
      completes STREAK consecutive out-of-range values. */
  method FindStreak(readings: seq<Reading>, lo: real, hi: real) returns (found: bool)
    ensures found == HasRun(Values(readings), lo, hi)
  {
    var vs := Values(readings);
    var consecutiveOutOfRangeCount := 0;
    var i := 0;
    while i < |readings|
      invariant 0 <= i <= |readings|
      invariant consecutiveOutOfRangeCount == Trailing(vs[..i], lo, hi) < STREAK
      invariant !HasRun(vs[..i], lo, hi)
    {
      assert vs[..i + 1][..i] == vs[..i];
      if readings[i].value < lo || readings[i].value > hi {
        consecutiveOutOfRangeCount := consecutiveOutOfRangeCount + 1;
      } else {
        consecutiveOutOfRangeCount := 0;
      }
      if consecutiveOutOfRangeCount == STREAK {
        var seen := vs[..i + 1];
        assert RunAt(seen, i + 1 - STREAK, lo, hi) by {
          forall k | i + 1 - STREAK <= k < i + 1
            ensures OutOfRange(seen[k], lo, hi)
          {
            TrailingOut(seen, lo, hi, k);
          }
        }
        RunInPrefix(vs, i + 1, lo, hi);
        return true;
      }
      if HasRun(vs[..i + 1], lo, hi) {
        NewRunEndsLast(vs[..i + 1], lo, hi);
      }
      i := i + 1;
    }
    assert vs[..i] == vs;
    return false;
  }

  /** getNoteIfTemperatureNotWorkedInRange: the note of the device's function
      when some STREAK consecutive readings are strictly outside the
      temperature range, otherwise "". */
  method NoteIfTemperatureNotWorkedInRange(device: Device, readings: seq<Reading>) returns (note: string)
    ensures note == if HasRun(Values(readings), device.minWorkingTemp, device.maxWorkingTemp)
                    then TemperatureNote(device.deviceFunction) else ""
  {
    var found := FindStreak(readings, device.minWorkingTemp, device.maxWorkingTemp);
    if found {
      match device.deviceFunction
      case Equipment => return EQUIPMENT_NOTE;
      case Environment => return ENVIRONMENT_NOTE;
    }
    return "";
  }

  /** getNoteIfHumidityNotWorkedInRange: the fixed humidity note when some
      STREAK consecutive readings are strictly outside the humidity range,
      otherwise "". */
  method NoteIfHumidityNotWorkedInRange(device: Device, readings: seq<Reading>) returns (note: string)
    ensures note == if HasRun(Values(readings), device.minWorkingHumidity, device.maxWorkingHumidity)
                    then HUMIDITY_NOTE else ""
  {
    var found := FindStreak(readings, device.minWorkingHumidity, device.maxWorkingHumidity);
    note := if found then HUMIDITY_NOTE else "";
  }
}
