/** Dates of the proleptic Gregorian calendar, numbered as Python's
    `date.toordinal()` numbers them (0001-01-01 is day 1), and the text form
    `%Y-%m-%d` that `strftime` writes and `strptime` reads. */
module Calendar {
  import opened Wrappers
  import opened Strings

  datatype Date = Date(year: int, month: int, day: int)

  predicate IsLeapYear(y: int)
  {
    y % 4 == 0 && (y % 100 != 0 || y % 400 == 0)
  }

  function DaysInYear(y: int): int
  {
    if IsLeapYear(y) then 366 else 365
  }

  function DaysInMonth(y: int, m: int): int
    requires 1 <= m <= 12
  {
    if m == 2 then (if IsLeapYear(y) then 29 else 28)
    else if m == 4 || m == 6 || m == 9 || m == 11 then 30
    else 31
  }

  /** The dates Python's `datetime` accepts. */
  predicate ValidDate(d: Date)
  {
    1 <= d.year <= 9999 && 1 <= d.month <= 12 && 1 <= d.day <= DaysInMonth(d.year, d.month)
  }

  /** Days in all years before year `y`. */
  function DaysBeforeYear(y: int): int
    requires y >= 1
  {
    var k := y - 1;
    365 * k + k / 4 - k / 100 + k / 400
  }

  /** Days in the months of year `y` before month `m`. */
  function DaysBeforeMonth(y: int, m: int): int
    requires 1 <= m <= 12
  {
    [0, 31, 59, 90, 120, 151, 181, 212, 243, 273, 304, 334][m - 1]
      + (if m > 2 && IsLeapYear(y) then 1 else 0)
  }

  /** `date.toordinal()`. */
  function ToOrdinal(d: Date): int
    requires ValidDate(d)
  {
    DaysBeforeYear(d.year) + DaysBeforeMonth(d.year, d.month) + d.day
  }

  /** The ordinal of 9999-12-31, the last date Python represents. */
  const MaxOrdinal: int := 3652059

  /** The ordinal of 1000-01-01, the first date whose year `strftime`
      writes with four digits. */
  const FirstFourDigitOrdinal: int := 364878

  lemma YearStep(y: int)
    requires y >= 1
    ensures DaysBeforeYear(y + 1) == DaysBeforeYear(y) + DaysInYear(y)
  {
    var k := y - 1;
    assert (k + 1) / 4 == k / 4 + (if y % 4 == 0 then 1 else 0);
    assert (k + 1) / 100 == k / 100 + (if y % 100 == 0 then 1 else 0);
    assert (k + 1) / 400 == k / 400 + (if y % 400 == 0 then 1 else 0);
  }

  lemma {:induction false} YearsMonotone(a: int, b: int)
    requires 1 <= a <= b
    ensures DaysBeforeYear(a) <= DaysBeforeYear(b)
    decreases b - a
  {
    if a < b {
      YearStep(a);
      YearsMonotone(a + 1, b);
    }
  }

  lemma MonthStep(y: int, m: int)
    requires 1 <= m < 12
    ensures DaysBeforeMonth(y, m + 1) == DaysBeforeMonth(y, m) + DaysInMonth(y, m)
  {
  }

  lemma LastMonth(y: int)
    ensures DaysBeforeMonth(y, 12) + DaysInMonth(y, 12) == DaysInYear(y)
  {
  }

  /** The year holding day `n`, searched upwards from year `y`. */
  function YearOf(n: int, y: int): (r: int)
    requires y >= 1 && DaysBeforeYear(y) < n
    ensures r >= y && DaysBeforeYear(r) < n <= DaysBeforeYear(r + 1)
    decreases n - DaysBeforeYear(y)
  {
    YearStep(y);
    if n <= DaysBeforeYear(y + 1) then y else YearOf(n, y + 1)
  }

  /** The month of year `y` holding day `doy` of that year, searched upwards
      from month `m`. */
  function MonthOf(y: int, doy: int, m: int): (r: int)
    requires 1 <= m <= 12 && DaysBeforeMonth(y, m) < doy <= DaysInYear(y)
    ensures m <= r <= 12
    ensures DaysBeforeMonth(y, r) < doy <= DaysBeforeMonth(y, r) + DaysInMonth(y, r)
    decreases 12 - m
  {
    LastMonth(y);
    if doy <= DaysBeforeMonth(y, m) + DaysInMonth(y, m) then m
    else MonthStep(y, m); MonthOf(y, doy, m + 1)
  }

  /** `date.fromordinal(n)`: the date numbered `n`. */
  function FromOrdinal(n: int): (d: Date)
    requires 1 <= n <= MaxOrdinal
    ensures ValidDate(d) && ToOrdinal(d) == n
    ensures DaysBeforeYear(d.year) < n <= DaysBeforeYear(d.year + 1)
  {
    var y := YearOf(n, 1);
    if y >= 10000 then YearsMonotone(10000, y); assert false; Date(1, 1, 1)
    else
      YearStep(y);
      var doy := n - DaysBeforeYear(y);
      var m := MonthOf(y, doy, 1);
      Date(y, m, doy - DaysBeforeMonth(y, m))
  }

  /** Between 1000-01-01 and 9999-12-31 every date has a four-digit year. */
  lemma FromOrdinalFourDigitYear(n: int)
    requires FirstFourDigitOrdinal <= n <= MaxOrdinal
    ensures 1000 <= FromOrdinal(n).year <= 9999
  {
    var y := FromOrdinal(n).year;
    if y < 1000 {
      YearsMonotone(y + 1, 1000);
    }
  }

  function Digits2(n: int): (r: string)
    requires 0 <= n < 100
    ensures |r| == 2 && IsDigit(r[0]) && IsDigit(r[1])
  {
    [DigitChar(n / 10), DigitChar(n % 10)]
  }

  function Digits4(n: int): (r: string)
    requires 0 <= n < 10000
    ensures |r| == 4 && forall i :: 0 <= i < 4 ==> IsDigit(r[i])
  {
    [DigitChar(n / 10 / 10 / 10), DigitChar(n / 10 / 10 % 10), DigitChar(n / 10 % 10), DigitChar(n % 10)]
  }

  /** `strftime('%Y-%m-%d')` for a date whose year has four digits. */
  function FormatIsoDate(d: Date): (r: string)
    requires ValidDate(d) && d.year >= 1000
    ensures |r| == 10 && r[4] == '-' && r[7] == '-'
    ensures forall i :: 0 <= i < |r| ==> IsDigit(r[i]) || r[i] == '-'
  {
    Digits4(d.year) + "-" + Digits2(d.month) + "-" + Digits2(d.day)
  }

  /** The `%m` directive of `strptime`, the regular expression
      `1[0-2]|0[1-9]|[1-9]`: its first alternative that matches at the start
      of `s`, as (value, characters consumed). */
  function MonthField(s: string): (r: Option<(int, int)>)
    ensures r.Some? ==> 1 <= r.value.0 <= 12 && 1 <= r.value.1 <= 2 && r.value.1 <= |s|
  {
    if |s| >= 2 && s[0] == '1' && '0' <= s[1] <= '2' then Some((10 + DigitValue(s[1]), 2))
    else if |s| >= 2 && s[0] == '0' && '1' <= s[1] <= '9' then Some((DigitValue(s[1]), 2))
    else if |s| >= 1 && '1' <= s[0] <= '9' then Some((DigitValue(s[0]), 1))
    else None
  }

  /** The `%d` directive of `strptime`, the regular expression
      `3[01]|[12]\d|0[1-9]|[1-9]| [1-9]`, read the same way. */
  function DayField(s: string): (r: Option<(int, int)>)
    ensures r.Some? ==> 1 <= r.value.0 <= 31 && 1 <= r.value.1 <= 2 && r.value.1 <= |s|
  {
    if |s| >= 2 && s[0] == '3' && '0' <= s[1] <= '1' then Some((30 + DigitValue(s[1]), 2))
    else if |s| >= 2 && '1' <= s[0] <= '2' && IsDigit(s[1]) then Some((10 * DigitValue(s[0]) + DigitValue(s[1]), 2))
    else if |s| >= 2 && s[0] == '0' && '1' <= s[1] <= '9' then Some((DigitValue(s[1]), 2))
    else if |s| >= 1 && '1' <= s[0] <= '9' then Some((DigitValue(s[0]), 1))
    else if |s| >= 2 && s[0] == ' ' && '1' <= s[1] <= '9' then Some((DigitValue(s[1]), 2))
    else None
  }

  /** `datetime.strptime(s, '%Y-%m-%d')`, `None` where it raises: four
      digits, '-', a month, '-', a day, nothing left over, and a date that
      exists. */
  function ParseIsoDate(s: string): (r: Option<Date>)
    ensures r.Some? ==> ValidDate(r.value)
  {
    if |s| < 8 || !(IsDigit(s[0]) && IsDigit(s[1]) && IsDigit(s[2]) && IsDigit(s[3])) || s[4] != '-' then None
    else
      var y := DigitValue(s[0]) * 1000 + DigitValue(s[1]) * 100 + DigitValue(s[2]) * 10 + DigitValue(s[3]);
      match MonthField(s[5..])
      case None => None
      case Some(month) =>
        var afterMonth := 5 + month.1;
        if afterMonth >= |s| || s[afterMonth] != '-' then None
        else
          match DayField(s[afterMonth + 1..])
          case None => None
          case Some(day) =>
            var date := Date(y, month.0, day.0);
            if afterMonth + 1 + day.1 != |s| || !ValidDate(date) then None else Some(date)
  }

  lemma Digits4Value(n: int)
    requires 0 <= n < 10000
    ensures var r := Digits4(n);
      DigitValue(r[0]) * 1000 + DigitValue(r[1]) * 100 + DigitValue(r[2]) * 10 + DigitValue(r[3]) == n
  {
    var r := Digits4(n);
    var q1 := n / 10;
    var q2 := q1 / 10;
    var q3 := q2 / 10;
    assert n == q1 * 10 + n % 10;
    assert q1 == q2 * 10 + q1 % 10;
    assert q2 == q3 * 10 + q2 % 10;
    assert DigitValue(r[0]) == q3 && DigitValue(r[1]) == q2 % 10;
    assert DigitValue(r[2]) == q1 % 10 && DigitValue(r[3]) == n % 10;
  }

  lemma MonthFieldOfDigits2(m: int, rest: string)
    requires 1 <= m <= 12
    ensures MonthField(Digits2(m) + rest) == Some((m, 2))
  {
    var s := Digits2(m) + rest;
    assert s[0] == DigitChar(m / 10) && s[1] == DigitChar(m % 10);
  }

  lemma DayFieldOfDigits2(d: int)
    requires 1 <= d <= 31
    ensures DayField(Digits2(d)) == Some((d, 2))
  {
  }

  /** Reading back what `FormatIsoDate` wrote gives the same date. */
  lemma ParseFormatIsoDate(d: Date)
    requires ValidDate(d) && d.year >= 1000
    ensures ParseIsoDate(FormatIsoDate(d)) == Some(d)
  {
    var s := FormatIsoDate(d);
    var ys, ms, ds := Digits4(d.year), Digits2(d.month), Digits2(d.day);
    assert s == ys + "-" + ms + "-" + ds;
    assert s[..4] == ys;
    Digits4Value(d.year);
    assert s[5..] == ms + "-" + ds;
    MonthFieldOfDigits2(d.month, "-" + ds);
    assert s[7] == '-';
    assert s[8..] == ds;
    DayFieldOfDigits2(d.day);
  }
}
