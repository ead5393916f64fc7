/** Dates, instants and the date helpers of DateRangePicker, plus the date
    texts the report prints ("dd/MM a dd/MM de yyyy" and "dd.MM").

    A date is a day ordinal (days since 1970-01-01) and an instant is a
    whole number of seconds since 1970-01-01T00:00Z. The America/Sao_Paulo
    zone is taken as the fixed offset UTC-03:00; the system default zone
    used by Generate is a parameter. */
module Calendar {
  import opened Common

  type Date = int
  type Instant = int

  const SECONDS_PER_DAY: int := 86400
  const SECONDS_PER_HOUR: int := 3600

  /** America/Sao_Paulo, as a fixed offset from UTC in seconds. */
  const SAO_PAULO_OFFSET: int := -10800

  datatype CivilDate = CivilDate(year: int, month: int, day: int)

  /** The proleptic Gregorian (year, month, day) of a day ordinal. */
  function Civil(d: Date): (c: CivilDate)
    ensures 1 <= c.month <= 12 && 1 <= c.day <= 31
  {
    var z := d + 719468;
    var era := z / 146097;
    var doe := z % 146097;
    var yoe := (doe - doe / 1460 + doe / 36524 - doe / 146096) / 365;
    var doy := doe - (365 * yoe + yoe / 4 - yoe / 100);
    var mp := (5 * doy + 2) / 153;
    var day := doy - (153 * mp + 2) / 5 + 1;
    var month := if mp < 10 then mp + 3 else mp - 9;
    var year := yoe + era * 400;
    CivilDate(if month <= 2 then year + 1 else year, month, day)
  }

  /** LocalDate.ofInstant(t, zone) for a zone at a fixed offset. */
  function LocalDateOf(t: Instant, offset: int): Date
  {
    (t + offset) / SECONDS_PER_DAY
  }

  /** The hour of day of t in a zone at a fixed offset (ZonedDateTime.getHour). */
  function LocalHourOf(t: Instant, offset: int): (h: int)
    ensures 0 <= h < 24
  {
    ((t + offset) % SECONDS_PER_DAY) / SECONDS_PER_HOUR
  }

  /** The local date and hour locate the instant: the rest is under an hour. */
  lemma LocalDateHourLocate(t: Instant, offset: int)
    ensures var r := t + offset - LocalDateOf(t, offset) * SECONDS_PER_DAY - LocalHourOf(t, offset) * SECONDS_PER_HOUR;
            0 <= r < SECONDS_PER_HOUR
  {
  }

  /** Number of dates from start to end inclusive; zero when start is after end. */
  function InclusiveDayCount(start: Date, end: Date): (n: nat)
  {
    if start <= end then end - start + 1 else 0
  }

  /** DateRangePicker.generate: every local date from the start instant's to
      the end instant's, ascending, one day apart. */
  method Generate(start: Instant, end: Instant, systemOffset: int) returns (dates: seq<Date>)
    ensures |dates| == InclusiveDayCount(LocalDateOf(start, systemOffset), LocalDateOf(end, systemOffset))
    ensures dates == [] <==> LocalDateOf(start, systemOffset) > LocalDateOf(end, systemOffset)
    ensures dates != [] ==>
              dates[0] == LocalDateOf(start, systemOffset) && dates[|dates| - 1] == LocalDateOf(end, systemOffset)
    ensures forall k :: 0 <= k < |dates| - 1 ==> dates[k + 1] == dates[k] + 1
  {
    var startDate := LocalDateOf(start, systemOffset);
    var endDate := LocalDateOf(end, systemOffset);
    ghost var first := startDate;
    dates := [];
    while startDate <= endDate
      invariant startDate == first + |dates|
      invariant first <= endDate ==> startDate <= endDate + 1
      invariant first > endDate ==> dates == []
      invariant forall k :: 0 <= k < |dates| ==> dates[k] == first + k
      decreases endDate - startDate
    {
      dates := dates + [startDate];
      startDate := startDate + 1;
    }
  }

  /** DateRangePicker.getNumberOfDays: counts the dates from start to end inclusive. */
  method GetNumberOfDays(start: Date, end: Date) returns (count: int)
    ensures count == InclusiveDayCount(start, end)
    ensures start <= end ==> start + count - 1 == end
  {
    count := 0;
    var current := start;
    while current <= end
      invariant current == start + count
      invariant start <= end ==> current <= end + 1
      invariant start > end ==> count == 0
      decreases end - current
    {
      count := count + 1;
      current := current + 1;
    }
  }

  /** DateRangePicker.getMoment: the instant at which the date begins in
      Sao Paulo. */
  function GetMoment(d: Date): (t: Instant)
    ensures LocalDateOf(t, SAO_PAULO_OFFSET) == d && LocalHourOf(t, SAO_PAULO_OFFSET) == 0
    ensures (t + SAO_PAULO_OFFSET) % SECONDS_PER_DAY == 0
  {
    d * SECONDS_PER_DAY - SAO_PAULO_OFFSET
  }

  /** Later dates begin later. */
  lemma GetMomentIncreasing(d1: Date, d2: Date)
    requires d1 < d2
    ensures GetMoment(d1) + SECONDS_PER_DAY <= GetMoment(d2)
  {
  }

  /** "dd" + sep + "MM" of a date (DateTimeFormatter "dd/MM" or "dd.MM"). */
  function DayMonth(d: Date, sep: char): string
  {
    Pad2(Civil(d).day) + [sep] + Pad2(Civil(d).month)
  }

  /** The day and month text is five characters and reads back as the date's
      day and month. */
  lemma DayMonthFields(d: Date, sep: char)
    ensures var s := DayMonth(d, sep);
            |s| == 5 && s[2] == sep
            && AllDigits(s[..2]) && DigitsValue(s[..2]) == Civil(d).day
            && AllDigits(s[3..]) && DigitsValue(s[3..]) == Civil(d).month
  {
    var c := Civil(d);
    Pad2Value(c.day);
    Pad2Value(c.month);
    var s := DayMonth(d, sep);
    assert s[..2] == Pad2(c.day);
    assert s[3..] == Pad2(c.month);
  }

  /** Equal day and month texts come from the same day and month. */
  lemma DayMonthDetermines(d1: Date, d2: Date, sep: char)
    requires DayMonth(d1, sep) == DayMonth(d2, sep)
    ensures Civil(d1).day == Civil(d2).day && Civil(d1).month == Civil(d2).month
  {
    DayMonthFields(d1, sep);
    DayMonthFields(d2, sep);
  }

  /** formatPeriod of HeaderFiller and InfoParagraphInserter:
      "dd/MM a dd/MM de <year of the end date>". */
  function FormatPeriod(start: Date, end: Date): string
  {
    DayMonth(start, '/') + " a " + DayMonth(end, '/') + " de " + IntStr(Civil(end).year)
  }

  /** The period text has its fields at fixed positions: zero-padded start
      day and month, zero-padded end day and month, then the end date's year. */
  lemma FormatPeriodFields(start: Date, end: Date)
    ensures var s := FormatPeriod(start, end);
            |s| >= 18
            && AllDigits(s[0..2]) && DigitsValue(s[0..2]) == Civil(start).day && s[2] == '/'
            && AllDigits(s[3..5]) && DigitsValue(s[3..5]) == Civil(start).month
            && s[5..8] == " a "
            && AllDigits(s[8..10]) && DigitsValue(s[8..10]) == Civil(end).day && s[10] == '/'
            && AllDigits(s[11..13]) && DigitsValue(s[11..13]) == Civil(end).month
            && s[13..17] == " de " && s[17..] == IntStr(Civil(end).year)
  {
    var a := DayMonth(start, '/');
    var b := DayMonth(end, '/');
    DayMonthFields(start, '/');
    DayMonthFields(end, '/');
    var s := FormatPeriod(start, end);
    assert s == a + " a " + b + " de " + IntStr(Civil(end).year);
    assert s[0..2] == a[..2] && s[3..5] == a[3..];
    assert s[8..10] == b[..2] && s[11..13] == b[3..];
  }
}
