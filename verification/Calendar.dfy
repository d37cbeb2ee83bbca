/** Proleptic Gregorian calendar arithmetic behind subscription periods.

    An instant counts microseconds from 0001-01-01T00:00:00 UTC.  Dates are recovered from
    instants by counting years and months, and `GoDay` reproduces the normalisation of Go's
    `time.Date`, which accepts month 13 and day 0. */
module Calendar {
  type Instant = nat

  /** The length of `n` days. */
  function Days(n: nat): nat {
    n * 86_400_000_000
  }

  function DayOf(t: Instant): nat {
    t / 86_400_000_000
  }

  function TimeOfDay(t: Instant): nat {
    t % 86_400_000_000
  }

  datatype Period = Month | Year

  datatype Date = Date(year: nat, month: nat, day: nat) {
    predicate Valid() {
      1 <= year && 1 <= month <= 12 && 1 <= day <= DaysInMonth(year, month)
    }

    predicate Before(other: Date) {
      || year < other.year
      || (year == other.year && month < other.month)
      || (year == other.year && month == other.month && day < other.day)
    }
  }

  predicate Leap(y: nat) {
    y % 4 == 0 && (y % 100 != 0 || y % 400 == 0)
  }

  function DaysInMonth(y: nat, m: nat): (n: nat)
    requires 1 <= m <= 12
    ensures 28 <= n <= 31 && (m != 2 ==> 30 <= n) && (m == 2 ==> n <= 29)
  {
    if m == 2 then (if Leap(y) then 29 else 28)
    else if m == 4 || m == 6 || m == 9 || m == 11 then 30
    else 31
  }

  /** Days of year `y` that precede month `m`; `m == 13` gives the length of the year. */
  function DaysBeforeMonth(y: nat, m: nat): nat
    requires 1 <= m <= 13
  {
    if m == 1 then 0 else DaysBeforeMonth(y, m - 1) + DaysInMonth(y, m - 1)
  }

  function DaysInYear(y: nat): nat {
    DaysBeforeMonth(y, 13)
  }

  function DaysBeforeYear(y: nat): nat
    requires 1 <= y
  {
    if y == 1 then 0 else DaysBeforeYear(y - 1) + DaysInYear(y - 1)
  }

  function DayNumber(d: Date): nat
    requires d.Valid()
  {
    DaysBeforeYear(d.year) + DaysBeforeMonth(d.year, d.month) + d.day - 1
  }

  lemma YearLength(y: nat)
    ensures DaysInYear(y) == if Leap(y) then 366 else 365
  {
    var f := if Leap(y) then 29 else 28;
    assert DaysBeforeMonth(y, 2) == 31;
    assert DaysBeforeMonth(y, 4) == 62 + f;
    assert DaysBeforeMonth(y, 6) == 123 + f;
    assert DaysBeforeMonth(y, 8) == 184 + f;
    assert DaysBeforeMonth(y, 10) == 245 + f;
    assert DaysBeforeMonth(y, 12) == 306 + f;
  }

  /** Days before the first of a month, for the common year and with the leap day. */
  lemma MonthTable(y: nat, m: nat)
    requires 1 <= m <= 13
    ensures DaysBeforeMonth(y, m) ==
            [0, 31, 59, 90, 120, 151, 181, 212, 243, 273, 304, 334, 365][m - 1]
            + if m > 2 && y % 4 == 0 && (y % 100 != 0 || y % 400 == 0) then 1 else 0
  {
    var f := if Leap(y) then 29 else 28;
    assert DaysBeforeMonth(y, 2) == 31 && DaysBeforeMonth(y, 3) == 31 + f;
    assert DaysBeforeMonth(y, 4) == 62 + f && DaysBeforeMonth(y, 5) == 92 + f;
    assert DaysBeforeMonth(y, 6) == 123 + f && DaysBeforeMonth(y, 7) == 153 + f;
    assert DaysBeforeMonth(y, 8) == 184 + f && DaysBeforeMonth(y, 9) == 215 + f;
    assert DaysBeforeMonth(y, 10) == 245 + f && DaysBeforeMonth(y, 11) == 276 + f;
    assert DaysBeforeMonth(y, 12) == 306 + f;
  }

  /** Days before the first of January, counting one leap day in four years, except in centuries not
      divisible by 400. */
  lemma {:induction false} YearFormula(y: nat)
    requires 1 <= y
    ensures DaysBeforeYear(y) == 365 * (y - 1) + (y - 1) / 4 - (y - 1) / 100 + (y - 1) / 400
  {
    hide DaysInYear, Leap;
    if y > 1 {
      YearFormula(y - 1);
      YearLength(y - 1);
      LeapYearsCounted(y - 1);
    }
  }

  lemma LeapYearsCounted(n: nat)
    requires 1 <= n
    ensures n / 4 - n / 100 + n / 400 == (n - 1) / 4 - (n - 1) / 100 + (n - 1) / 400 + if Leap(n) then 1 else 0
  {
    NextMultiple(n, 4);
    NextMultiple(n, 100);
    NextMultiple(n, 400);
    Divides(n);
  }

  lemma NextMultiple(n: nat, k: nat)
    requires 1 <= n && (k == 4 || k == 100 || k == 400)
    ensures n / k == (n - 1) / k + if n % k == 0 then 1 else 0
  {
    if k == 4 {
    } else if k == 100 {
    }
  }

  lemma Divides(n: nat)
    ensures n % 400 == 0 ==> n % 100 == 0
    ensures n % 100 == 0 ==> n % 4 == 0
  {
    var q, p := n / 400, n / 100;
    assert n % 400 == 0 ==> n == 100 * (4 * q);
    assert n % 100 == 0 ==> n == 4 * (25 * p);
  }

  /** The date of the day that lies `rest` days after the first of month `m` in year `y`. */
  function DateFrom(y: nat, m: nat, rest: nat): (d: Date)
    requires 1 <= y && 1 <= m <= 12
    ensures d.Valid()
    decreases rest
  {
    if rest < DaysInMonth(y, m) then Date(y, m, rest + 1)
    else if m < 12 then DateFrom(y, m + 1, rest - DaysInMonth(y, m))
    else DateFrom(y + 1, 1, rest - DaysInMonth(y, m))
  }

  /** The calendar date of a day number. */
  function DateOf(n: nat): (d: Date)
    ensures d.Valid()
  {
    DateFrom(1, 1, n)
  }

  lemma {:induction false} DateFromCounts(y: nat, m: nat, rest: nat)
    requires 1 <= y && 1 <= m <= 12
    ensures DayNumber(DateFrom(y, m, rest)) == DaysBeforeYear(y) + DaysBeforeMonth(y, m) + rest
    decreases rest
  {
    hide Leap;
    if rest >= DaysInMonth(y, m) {
      if m < 12 {
        DateFromCounts(y, m + 1, rest - DaysInMonth(y, m));
      } else {
        DateFromCounts(y + 1, 1, rest - DaysInMonth(y, m));
      }
    }
  }

  lemma DayNumberOfDate(n: nat)
    ensures DayNumber(DateOf(n)) == n
  {
    DateFromCounts(1, 1, n);
  }

  lemma {:induction false} MonthsGrow(y: nat, m: nat, k: nat)
    requires 1 <= m < k <= 13
    ensures DaysBeforeMonth(y, m) + DaysInMonth(y, m) <= DaysBeforeMonth(y, k)
    decreases k
  {
    if m + 1 < k { MonthsGrow(y, m, k - 1); }
  }

  lemma {:induction false} YearsGrow(y: nat, z: nat)
    requires 1 <= y < z
    ensures DaysBeforeYear(y) + DaysInYear(y) <= DaysBeforeYear(z)
    decreases z
  {
    if y + 1 < z { YearsGrow(y, z - 1); }
  }

  /** Calendar order and day-number order agree, so a day number names one date only. */
  lemma DayNumberOrder(a: Date, b: Date)
    requires a.Valid() && b.Valid()
    ensures a.Before(b) <==> DayNumber(a) < DayNumber(b)
    ensures a == b <==> DayNumber(a) == DayNumber(b)
  {
    if a.Before(b) {
      BeforeIsSmaller(a, b);
    } else if b.Before(a) {
      BeforeIsSmaller(b, a);
    }
  }

  lemma BeforeIsSmaller(a: Date, b: Date)
    requires a.Valid() && b.Valid() && a.Before(b)
    ensures DayNumber(a) < DayNumber(b)
  {
    if a.year < b.year {
      MonthsGrow(a.year, a.month, 13);
      YearsGrow(a.year, b.year);
    } else if a.month < b.month {
      MonthsGrow(a.year, a.month, b.month);
    }
  }

  lemma DateOfDayNumber(d: Date)
    requires d.Valid()
    ensures DateOf(DayNumber(d)) == d
  {
    DayNumberOfDate(DayNumber(d));
    DayNumberOrder(DateOf(DayNumber(d)), d);
  }

  /** Day number of Go's `time.Date(y, m, d, ...)`: month 13 is January of the next year and
      day 0 is the day before the first. */
  function GoDay(y: nat, m: nat, d: nat): nat
    requires 1 <= y && 1 <= m <= 13 && (1 <= d || 1 < y || 1 < m)
  {
    var first := if m == 13 then DayNumber(Date(y + 1, 1, 1)) else DayNumber(Date(y, m, 1));
    assert m == 13 ==> first >= 1 by {
      BeforeIsSmaller(Date(1, 1, 1), Date(y + 1, 1, 1));
    }
    assert m < 13 && d == 0 ==> first >= 1 by {
      if m < 13 && (1 < y || 1 < m) { BeforeIsSmaller(Date(1, 1, 1), Date(y, m, 1)); }
    }
    first + d - 1
  }

  /** The last day of month `m`, computed as the source does: day 0 of the following month. */
  function LastDay(y: nat, m: nat): nat
    requires 1 <= y && 1 <= m <= 12
  {
    DateOf(GoDay(y, m + 1, 0)).day
  }

  lemma LastDayIsDaysInMonth(y: nat, m: nat)
    requires 1 <= y && 1 <= m <= 12
    ensures LastDay(y, m) == DaysInMonth(y, m)
  {
    var last := Date(y, m, DaysInMonth(y, m));
    assert GoDay(y, m + 1, 0) == DayNumber(last);
    DateOfDayNumber(last);
  }

  function Clamp(day: nat, last: nat): nat {
    if day > last then last else day
  }

  /** The month a period leads to, before the day is clamped. */
  function TargetMonth(d: Date, period: Period): (ym: (nat, nat))
    requires d.Valid()
    ensures ym.0 >= d.year && 1 <= ym.1 <= 12
  {
    if period == Year then (d.year + 1, d.month)
    else if d.month + 1 > 12 then (d.year + 1, 1)
    else (d.year, d.month + 1)
  }

  /** The day number of the target date, through `LastDay` and Go's normalisation. */
  function TargetDay(d: Date, period: Period): nat
    requires d.Valid()
  {
    var (y, m) := TargetMonth(d, period);
    LastDayIsDaysInMonth(y, m);
    GoDay(y, m, Clamp(d.day, LastDay(y, m)))
  }

  /** `addSubscriptionPeriod`: the same day and time of day one month or one year later,
      clamped to the length of the target month. */
  function AddPeriod(start: Instant, period: Period): Instant {
    At(TargetDay(DateOf(DayOf(start)), period), TimeOfDay(start))
  }

  function At(day: nat, timeOfDay: nat): Instant {
    Days(day) + timeOfDay
  }

  // ----- what a period means -----

  /** The date a period leads to, stated on dates alone. */
  function NextDate(d: Date, period: Period): (r: Date)
    requires d.Valid()
    ensures r.Valid()
  {
    var y := if period == Year || d.month == 12 then d.year + 1 else d.year;
    var m := if period == Year then d.month else if d.month == 12 then 1 else d.month + 1;
    Date(y, m, Clamp(d.day, DaysInMonth(y, m)))
  }

  function DateAt(t: Instant): (d: Date)
    ensures d.Valid()
  {
    DateOf(DayOf(t))
  }

  /** Adding a period moves the date by `NextDate` and keeps the time of day. */
  lemma AddPeriodMovesDate(t: Instant, period: Period)
    ensures DateAt(AddPeriod(t, period)) == NextDate(DateAt(t), period)
    ensures TimeOfDay(AddPeriod(t, period)) == TimeOfDay(t)
    ensures DayOf(AddPeriod(t, period)) == DayNumber(NextDate(DateAt(t), period))
  {
    TargetDayIsNextDate(DateAt(t), period);
    SplitInstant(DayNumber(NextDate(DateAt(t), period)), TimeOfDay(t));
    DateOfDayNumber(NextDate(DateAt(t), period));
  }

  lemma TargetDayIsNextDate(d: Date, period: Period)
    requires d.Valid()
    ensures TargetDay(d, period) == DayNumber(NextDate(d, period))
  {
    var (y, m) := TargetMonth(d, period);
    var next := NextDate(d, period);
    assert (y, m) == (next.year, next.month);
    LastDayIsDaysInMonth(y, m);
    assert LastDay(y, m) == DaysInMonth(y, m);
    assert Clamp(d.day, LastDay(y, m)) == next.day;
    assert GoDay(y, m, next.day) == DayNumber(next);
  }

  lemma SplitInstant(day: nat, timeOfDay: nat)
    requires timeOfDay < Days(1)
    ensures DayOf(At(day, timeOfDay)) == day
    ensures TimeOfDay(At(day, timeOfDay)) == timeOfDay
  {
  }

  lemma MonthLength(d: Date)
    requires d.Valid()
    ensures 28 <= DayNumber(NextDate(d, Month)) - DayNumber(d) <= 31
  {
    hide Leap;
    if d.month == 12 { assert DaysBeforeMonth(d.year, 13) == DaysBeforeMonth(d.year, 12) + 31; }
  }

  lemma WholeYear(d: Date)
    requires d.Valid()
    ensures 365 <= DayNumber(NextDate(d, Year)) - DayNumber(d) <= 366
  {
    YearLength(d.year);
    YearLength(d.year + 1);
    YearDrift(d.year, d.month);
  }

  /** A month lasts 28 to 31 days and a year 365 or 366. */
  lemma PeriodLength(d: Date, period: Period)
    requires d.Valid()
    ensures var days := DayNumber(NextDate(d, period)) - DayNumber(d);
            if period == Year then 365 <= days <= 366 else 28 <= days <= 31
  {
    if period == Year { WholeYear(d); } else { MonthLength(d); }
  }

  /** How far the start of month `m` shifts within the year from one year to the next. */
  lemma {:induction false} YearDrift(y: nat, m: nat)
    requires 1 <= m <= 13
    ensures DaysBeforeMonth(y + 1, m) - DaysBeforeMonth(y, m) ==
            if m <= 2 then 0 else (if Leap(y + 1) then 1 else 0) - (if Leap(y) then 1 else 0)
  {
    if m > 1 { YearDrift(y, m - 1); }
  }

  /** A period always ends strictly after it starts, by a whole number of days. */
  lemma AddPeriodAdvances(t: Instant, period: Period)
    ensures t + Days(28) <= AddPeriod(t, period) <= t + Days(366)
  {
    AddPeriodMovesDate(t, period);
    DayNumberOfDate(DayOf(t));
    PeriodLength(DateAt(t), period);
  }
}
