/** Proleptic Gregorian calendar arithmetic in UTC, standing in for the parts of
    JavaScript's `Date` that the dashboard uses: broken-down UTC fields,
    milliseconds since the epoch, and `toISOString`. */
module CivilTime {
  import opened Common

  const MsPerSecond := 1000
  const MsPerMinute := 60000
  const MsPerHour := 3600000
  const MsPerDay := 86400000

  /** The UTC fields of an instant, as `getUTCFullYear()` ... `getUTCMilliseconds()` report them. */
  datatype DateTime = DateTime(year: int, month: int, day: int, hour: int, minute: int, second: int, millis: int)

  /** Fields in their normal ranges, with a four-digit year: the instants whose
      `toISOString()` has the plain `YYYY-MM-DDTHH:mm:ss.sssZ` shape. */
  predicate ValidDateTime(t: DateTime) {
    0 <= t.year <= 9999 && 1 <= t.month <= 12 && 1 <= t.day <= 31 &&
    0 <= t.hour <= 23 && 0 <= t.minute <= 59 && 0 <= t.second <= 59 && 0 <= t.millis <= 999
  }

  /** Days from 1970-01-01 to the given civil date. `d` may lie outside the
      month: like `Date.UTC`, the count simply continues into the next month. */
  function DaysFromCivil(y: int, m: int, d: int): int
    requires 1 <= m <= 12
  {
    var y' := if m <= 2 then y - 1 else y;
    var era := y' / 400;
    var yoe := y' % 400;
    var mp := if m > 2 then m - 3 else m + 9;
    var doy := (153 * mp + 2) / 5 + d - 1;
    var doe := yoe * 365 + yoe / 4 - yoe / 100 + doy;
    era * 146097 + doe - 719468
  }

  /** The UTC instant (ms since the epoch) with the given fields; hour 24 and
      day overflow carry forward as `Date.UTC` does. */
  function EpochMillis(y: int, m: int, d: int, h: int, mi: int, s: int): int
    requires 1 <= m <= 12
  {
    DaysFromCivil(y, m, d) * MsPerDay + h * MsPerHour + mi * MsPerMinute + s * MsPerSecond
  }

  /** The year of a 400-year era (counted from 1 March) that a day of the era falls in. */
  function YearOfEra(doe: int): int {
    (doe - doe / 1460 + doe / 36524 - doe / 146096) / 365
  }

  /** The day of the era on which a year of the era starts. */
  function YearStart(yoe: int): int {
    365 * yoe + yoe / 4 - yoe / 100
  }

  /** The civil date (year, month, day) of a day count from 1970-01-01: a
      month in 1..12, a day in 1..31, and `DaysFromCivil` gives the count back. */
  function CivilFromDays(days: int): (ymd: (int, int, int))
    ensures 1 <= ymd.1 <= 12 && 1 <= ymd.2 <= 31
    ensures DaysFromCivil(ymd.0, ymd.1, ymd.2) == days
  {
    var z := days + 719468;
    var era := z / 146097;
    var doe := z % 146097;
    YearOfEraRange(doe);
    var yoe := YearOfEra(doe);
    var md := MonthDay(doe - YearStart(yoe));
    EraYear(era, yoe);
    (yoe + era * 400 + (if md.0 <= 2 then 1 else 0), md.0, md.1)
  }

  /** A year of an era splits back into the era and the year within it. */
  lemma EraYear(era: int, yoe: int)
    requires 0 <= yoe <= 399
    ensures (yoe + era * 400) / 400 == era && (yoe + era * 400) % 400 == yoe
  {
  }

  /** The month (1..12) and day of a day of a March-based year; `DaysFromCivil`
      counts the same day back from them. */
  function MonthDay(doy: int): (md: (int, int))
    requires 0 <= doy <= 365
    ensures 1 <= md.0 <= 12 && 1 <= md.1 <= 31
    ensures (153 * (if md.0 > 2 then md.0 - 3 else md.0 + 9) + 2) / 5 + md.1 - 1 == doy
  {
    MonthOfYear(doy);
    var mp := (5 * doy + 2) / 153;
    (if mp < 10 then mp + 3 else mp - 9, doy - (153 * mp + 2) / 5 + 1)
  }

  /** A day of a March-based year falls in month 0..11 counted from March, on day 0..30 of it. */
  lemma MonthOfYear(doy: int)
    requires 0 <= doy <= 365
    ensures var mp := (5 * doy + 2) / 153;
      0 <= mp <= 11 && 0 <= doy - (153 * mp + 2) / 5 <= 30
  {
  }

  /** Every day of an era lies in one of its 400 years, at most 365 days after that year's start. */
  lemma YearOfEraRange(doe: int)
    requires 0 <= doe < 146097
    ensures 0 <= YearOfEra(doe) <= 399
    ensures 0 <= doe - YearStart(YearOfEra(doe)) <= 365
  {
    if doe < 146096 {
      YearInCentury(doe / 36524, doe % 36524);
    } else {
      assert YearOfEra(doe) == 399;
      assert YearStart(399) == 145731;
    }
  }

  /** Day `r` of century `c` lies in a year of the era, at most 365 days after its start. */
  lemma YearInCentury(c: int, r: int)
    requires 0 <= c <= 3 && 0 <= r < 36524
    ensures 0 <= YearOfEra(36524 * c + r) <= 399
    ensures 0 <= 36524 * c + r - YearStart(YearOfEra(36524 * c + r)) <= 365
  {
    var q := r / 1461;
    var s := r % 1461;
    YearOfCentury(c, q, s);
    YearStartOf(c, q, if s < 1460 then s / 365 else 3);
  }

  /** Year `t` of four-year cycle `q` of century `c` starts on the day counted by whole
      centuries of 36524 days, cycles of 1461 and years of 365. */
  lemma YearStartOf(c: int, q: int, t: int)
    requires 0 <= c <= 3 && 0 <= q <= 24 && 0 <= t <= 3
    ensures YearStart(100 * c + 4 * q + t) == 36524 * c + 1461 * q + 365 * t
  {
    var yoe := 100 * c + 4 * q + t;
    assert yoe / 4 == 25 * c + q;
    assert yoe / 100 == c;
  }

  /** The year of the era of day `s` of cycle `q` of century `c` (the 1461st day of a
      cycle is the leap day, still in the cycle's fourth year). */
  lemma YearOfCentury(c: int, q: int, s: int)
    requires 0 <= c <= 3 && 0 <= q <= 24 && 0 <= s <= 1460
    requires 1461 * q + s < 36524
    ensures YearOfEra(36524 * c + 1461 * q + s) == 100 * c + 4 * q + (if s < 1460 then s / 365 else 3)
  {
    var doe := 36524 * c + 1461 * q + s;
    assert doe / 36524 == c;
    assert doe / 146096 == 0;
    var k := (24 * c + q + s) / 1460;
    assert doe / 1460 == 25 * c + q + k;
  }

  /** The UTC fields of an instant: every field but the year in its normal
      range, and the fields give the instant back. */
  function UtcFields(ms: int): (t: DateTime)
    ensures 1 <= t.month <= 12 && 1 <= t.day <= 31
    ensures 0 <= t.hour <= 23 && 0 <= t.minute <= 59 && 0 <= t.second <= 59 && 0 <= t.millis <= 999
    ensures EpochMillis(t.year, t.month, t.day, t.hour, t.minute, t.second) + t.millis == ms
    ensures t.millis == ms % MsPerSecond
  {
    DaySplit(ms);
    var ymd := CivilFromDays(ms / MsPerDay);
    var hms := ClockOf(ms % MsPerDay);
    DateTime(ymd.0, ymd.1, ymd.2, hms.0, hms.1, hms.2, hms.3)
  }

  /** An instant is its day and its time of day, and its milliseconds are those of that time. */
  lemma DaySplit(ms: int)
    ensures ms == ms / MsPerDay * MsPerDay + ms % MsPerDay && 0 <= ms % MsPerDay < MsPerDay
    ensures ms % MsPerDay % MsPerSecond == ms % MsPerSecond
  {
    var days := ms / MsPerDay;
    var tod := ms % MsPerDay;
    assert ms == (days * 86400 + tod / MsPerSecond) * MsPerSecond + tod % MsPerSecond;
  }

  /** The hour, minute, second and millisecond of a time of day, in their ranges. */
  function ClockOf(tod: int): (hms: (int, int, int, int))
    requires 0 <= tod < MsPerDay
    ensures 0 <= hms.0 <= 23 && 0 <= hms.1 <= 59 && 0 <= hms.2 <= 59 && 0 <= hms.3 <= 999
    ensures hms.0 * MsPerHour + hms.1 * MsPerMinute + hms.2 * MsPerSecond + hms.3 == tod
    ensures hms.3 == tod % MsPerSecond
  {
    TimeOfDay(tod);
    (tod / MsPerHour, tod % MsPerHour / MsPerMinute, tod % MsPerMinute / MsPerSecond, tod % MsPerSecond)
  }

  /** The hour, minute, second and millisecond of a time of day add up to it. */
  lemma TimeOfDay(tod: int)
    requires 0 <= tod < MsPerDay
    ensures 0 <= tod / MsPerHour <= 23
    ensures tod == tod / MsPerHour * MsPerHour + tod % MsPerHour / MsPerMinute * MsPerMinute +
                   tod % MsPerMinute / MsPerSecond * MsPerSecond + tod % MsPerSecond
  {
    var r1 := tod % MsPerHour;
    assert tod == tod / MsPerHour * MsPerHour + r1;
    var r2 := r1 % MsPerMinute;
    assert r1 == r1 / MsPerMinute * MsPerMinute + r2;
    assert r2 == tod % MsPerMinute by {
      assert tod == (tod / MsPerHour * 60 + r1 / MsPerMinute) * MsPerMinute + r2;
    }
    assert r2 == r2 / MsPerSecond * MsPerSecond + r2 % MsPerSecond;
    assert r2 % MsPerSecond == tod % MsPerSecond by {
      assert tod == ((tod / MsPerHour * 60 + r1 / MsPerMinute) * 60 + r2 / MsPerSecond) * MsPerSecond + r2 % MsPerSecond;
    }
  }

  /** The UTC day number `ms / 86400000` that the ISO date `YYYY-MM-DD` of an
      instant stands for; two instants have the same ISO date iff they have the
      same day number, and ISO dates order like day numbers. */
  function UtcDay(ms: int): int {
    ms / MsPerDay
  }

  /** `toISOString()` of a date with fields in their normal ranges. */
  function IsoString(t: DateTime): (s: string)
    requires ValidDateTime(t)
    ensures |s| == 24
  {
    PadDigits(t.year, 4) + "-" + PadDigits(t.month, 2) + "-" + PadDigits(t.day, 2) + "T" +
    PadDigits(t.hour, 2) + ":" + PadDigits(t.minute, 2) + ":" + PadDigits(t.second, 2) + "." +
    PadDigits(t.millis, 3) + "Z"
  }

  /** The host-local (`offset` = local minus UTC, in ms) day number of an instant. */
  function LocalDay(ms: int, offset: int): int {
    (ms + offset) / MsPerDay
  }

  /** The instant of 00:00:00.000 local time on a local day. */
  function LocalMidnight(day: int, offset: int): int {
    day * MsPerDay - offset
  }
}
