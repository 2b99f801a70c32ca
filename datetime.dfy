/**
 * The arithmetic behind the `updated` timestamp: seconds since the Unix
 * epoch split into a date and a time of day. Rust's signed `/` and `%`
 * round toward zero and `as u32` keeps the low 32 bits; both are written
 * out. The date part counts the day of the year from 1 March but reads it
 * off a January-based table without leap days, so it is not the calendar
 * date; only the ranges of the fields are claimed.
 */
module DateTime {
  import opened Text

  const I64_MIN: int := -0x8000_0000_0000_0000
  const I64_LIMIT: int := 0x8000_0000_0000_0000

  /** Rust's `/` on signed integers: the quotient rounded toward zero. */
  function Quot(a: int, b: int): int
    requires b > 0
  {
    if a >= 0 then a / b else -((-a) / b)
  }

  /** Rust's `%` on signed integers: the remainder has the sign of `a`. */
  function Rem(a: int, b: int): (r: int)
    requires b > 0
    ensures a >= 0 ==> 0 <= r < b
    ensures a < 0 ==> -b < r <= 0
    ensures a == b * Quot(a, b) + r
  {
    a - b * Quot(a, b)
  }

  /** `x as u32`: the low 32 bits of a two's-complement integer. */
  function AsU32(x: int): (r: nat)
    ensures r < U32_LIMIT
    ensures 0 <= x < U32_LIMIT ==> r == x
  {
    x % U32_LIMIT
  }

  const DAYS_IN_MONTH: seq<nat> := [31, 28, 31, 30, 31, 30, 31, 31, 30, 31, 30, 31]

  /** Month and day for the remaining day number `d`, looking from month index `i` on; `(12, 31)` past December. */
  function MonthDayFrom(d: nat, i: nat): (nat, nat)
    requires i <= 12
    decreases 12 - i
  {
    if i == 12 then (12, 31)
    else if d <= DAYS_IN_MONTH[i] then (i + 1, d)
    else MonthDayFrom(d - DAYS_IN_MONTH[i], i + 1)
  }

  /** The result `doy_to_md` computes for the 0-based day number `doy`. */
  function MonthDay(doy: nat): (nat, nat) {
    MonthDayFrom(doy + 1, 0)
  }

  /** Days in the months before month index `m`. */
  function DaysBefore(m: nat): nat
    requires m <= 12
  {
    if m == 0 then 0 else DaysBefore(m - 1) + DAYS_IN_MONTH[m - 1]
  }

  lemma {:induction false} MonthDayFromBounds(d: nat, i: nat)
    requires i <= 12 && d >= 1
    ensures var (m, day) := MonthDayFrom(d, i); 1 <= m <= 12 && 1 <= day <= DAYS_IN_MONTH[m - 1]
  {
    if i < 12 && d > DAYS_IN_MONTH[i] {
      MonthDayFromBounds(d - DAYS_IN_MONTH[i], i + 1);
    }
  }

  /** The month is in 1..12 and the day in 1..that month's length; the fallback `(12, 31)` satisfies this too. */
  lemma MonthDayBounds(doy: nat)
    ensures var (m, day) := MonthDay(doy); 1 <= m <= 12 && 1 <= day <= DAYS_IN_MONTH[m - 1]
  {
    MonthDayFromBounds(doy + 1, 0);
  }

  lemma {:induction false} MonthDayFromExact(d: nat, i: nat)
    requires i <= 12 && d >= 1 && DaysBefore(i) + d <= 365
    ensures var (m, day) := MonthDayFrom(d, i); i < m <= 12 && DaysBefore(m - 1) + day == DaysBefore(i) + d
  {
    if i == 12 {
      DaysBeforeYear();
    } else if d > DAYS_IN_MONTH[i] {
      MonthDayFromExact(d - DAYS_IN_MONTH[i], i + 1);
    }
  }

  /** Below 365 the table is read exactly: the day number is the days of the earlier months plus the day, less one. */
  lemma MonthDayExact(doy: nat)
    requires doy < 365
    ensures var (m, day) := MonthDay(doy); DaysBefore(m - 1) + day - 1 == doy
  {
    MonthDayFromExact(doy + 1, 0);
  }

  lemma {:induction false} MonthDayFromPast(d: nat, i: nat)
    requires i <= 12 && DaysBefore(i) + d > 365
    ensures MonthDayFrom(d, i) == (12, 31)
  {
    if i == 12 {
    } else {
      assert d > DAYS_IN_MONTH[i] by {
        assert DaysBefore(i + 1) <= 365 by { DaysBeforeAtMostYear(i + 1); }
      }
      MonthDayFromPast(d - DAYS_IN_MONTH[i], i + 1);
    }
  }

  lemma {:induction false} DaysBeforeAtMostYear(m: nat)
    requires m <= 12
    ensures DaysBefore(m) <= 365
    ensures m < 12 ==> DaysBefore(m) + DAYS_IN_MONTH[m] <= 365
    decreases 12 - m
  {
    if m < 12 {
      DaysBeforeAtMostYear(m + 1);
    } else {
      DaysBeforeYear();
    }
  }

  /** The twelve months of the table add up to 365 days. */
  lemma DaysBeforeYear()
    ensures DaysBefore(12) == 365
  {
    assert DaysBefore(3) == 90;
    assert DaysBefore(6) == 181;
    assert DaysBefore(9) == 273;
  }

  /** From day number 365 on, the table runs out and the answer is `(12, 31)`. */
  lemma MonthDayFallback(doy: nat)
    requires doy >= 365
    ensures MonthDay(doy) == (12, 31)
  {
    MonthDayFromPast(doy + 1, 0);
  }

  /** `doy_to_md`: walk the month table, subtracting each month's length until the day fits. */
  method DoyToMd(doy: nat) returns (month: nat, day: nat)
    requires doy + 1 < U32_LIMIT
    ensures (month, day) == MonthDay(doy)
  {
    var d := doy + 1;
    for i := 0 to |DAYS_IN_MONTH|
      invariant d >= 1
      invariant MonthDayFrom(d, i) == MonthDay(doy)
    {
      var dim := DAYS_IN_MONTH[i];
      if d <= dim {
        return i + 1, d;
      }
      d := d - dim;
    }
    return 12, 31;
  }

  /** The day of the era that `days_to_ymd` computes (negative before the year 0, since the division truncates). */
  function DayOfEra(days: int): int {
    var shifted := days + 719468;
    shifted - Quot(shifted, 146097) * 146097
  }

  function YearOfEra(doe: int): int {
    Quot(doe - Quot(doe, 1460) + Quot(doe, 36524) - Quot(doe, 146096), 365)
  }

  /** The 0-based day of the year, counted from 1 March. */
  function DayOfYear(days: int): int {
    var doe := DayOfEra(days);
    var yoe := YearOfEra(doe);
    doe - (365 * yoe + Quot(yoe, 4) - Quot(yoe, 100))
  }

  /** `doy_to_md` adds one to its `u32` argument, which must not overflow. */
  predicate DaysToYmdDefined(days: int) {
    AsU32(DayOfYear(days)) + 1 < U32_LIMIT
  }

  datatype Date = Date(year: int, month: nat, day: nat)

  /** `days_to_ymd`: days since the epoch to the (year, month, day) triple the program prints. */
  function DaysToYmd(days: int): (r: Date)
    requires DaysToYmdDefined(days)
    ensures 1 <= r.month <= 12 && 1 <= r.day <= DAYS_IN_MONTH[r.month - 1]
  {
    var shifted := days + 719468;
    var era := Quot(shifted, 146097);
    var yoe := YearOfEra(DayOfEra(days));
    var md := MonthDay(AsU32(DayOfYear(days)));
    MonthDayBounds(AsU32(DayOfYear(days)));
    Date(yoe + era * 400, md.0, md.1)
  }

  /** For days on or after the epoch the day of the era is in 0..146096 and the day of the year in 0..365. */
  lemma DayOfYearRange(days: int)
    requires days >= 0
    ensures 0 <= DayOfEra(days) <= 146096
    ensures 0 <= DayOfYear(days) <= 365
    ensures DaysToYmdDefined(days)
  {
    var shifted := days + 719468;
    var doe := DayOfEra(days);
    assert doe == shifted % 146097;
    var x := doe - doe / 1460 + doe / 36524 - doe / 146096;
    assert 0 <= x;
    var yoe := x / 365;
    assert YearOfEra(doe) == yoe;
    EraDayRange(doe);
    assert DayOfYear(days) == doe - (365 * yoe + yoe / 4 - yoe / 100);
  }

  /** The civil-from-days step on one 400-year era keeps the day of the year in 0..365. */
  lemma EraDayRange(doe: int)
    requires 0 <= doe <= 146096
    ensures var yoe := (doe - doe / 1460 + doe / 36524 - doe / 146096) / 365;
      0 <= yoe && 0 <= doe - (365 * yoe + yoe / 4 - yoe / 100) <= 365
  {
    var yoe := (doe - doe / 1460 + doe / 36524 - doe / 146096) / 365;
    EraDayRangeLinear(doe, doe / 1460, doe / 36524, doe / 146096, yoe, yoe / 4, yoe / 100);
  }

  /** `EraDayRange` with every quotient named, century by century. */
  lemma EraDayRangeLinear(doe: int, q1: int, q2: int, q3: int, yoe: int, a: int, b: int)
    requires 0 <= doe <= 146096
    requires 1460 * q1 <= doe < 1460 * q1 + 1460
    requires 36524 * q2 <= doe < 36524 * q2 + 36524
    requires 146096 * q3 <= doe < 146096 * q3 + 146096
    requires 365 * yoe <= doe - q1 + q2 - q3 < 365 * yoe + 365
    requires 4 * a <= yoe < 4 * a + 4
    requires 100 * b <= yoe < 100 * b + 100
    ensures 0 <= yoe && 0 <= doe - (365 * yoe + a - b) <= 365
  {
    assert 0 <= q2 <= 4 && 0 <= q3 <= 1;
    if q3 == 1 {
      assert doe == 146096;
    } else if q2 == 0 {
      assert b == 0;
    } else if q2 == 1 {
      assert b == 0 || b == 1;
    } else if q2 == 2 {
      assert b == 1 || b == 2;
    } else {
      assert b == 2 || b == 3;
    }
  }

  datatype Stamp = Stamp(date: Date, hour: nat, minute: nat, second: nat)

  /** `epoch_to_datetime` on an `i64` count of seconds. */
  function EpochToDateTime(secs: int): (r: Stamp)
    requires I64_MIN <= secs < I64_LIMIT
    requires DaysToYmdDefined(Quot(secs, 86400))
    ensures r.hour < 24 && r.minute < 60 && r.second < 60
    ensures 1 <= r.date.month <= 12 && 1 <= r.date.day <= DAYS_IN_MONTH[r.date.month - 1]
  {
    var days := Quot(secs, 86400);
    var time := Rem(Rem(secs, 86400) + 86400, 86400);
    Stamp(DaysToYmd(days), AsU32(Quot(time, 3600)), AsU32(Quot(Rem(time, 3600), 60)), AsU32(Rem(time, 60)))
  }

  /** Any time on or after the epoch can be converted: nothing overflows and every field is in range. */
  lemma EpochFieldBounds(secs: int)
    requires 0 <= secs < I64_LIMIT
    ensures DaysToYmdDefined(Quot(secs, 86400))
    ensures var r := EpochToDateTime(secs);
      && r.hour < 24 && r.minute < 60 && r.second < 60
      && 1 <= r.date.month <= 12 && 1 <= r.date.day <= DAYS_IN_MONTH[r.date.month - 1]
      && r.date.year >= 0
  {
    DayOfYearRange(Quot(secs, 86400));
  }
}
