/** Laws of repeated subscription periods. */
module PeriodLaws {
  import opened Calendar

  predicate NotAfter(a: Date, b: Date) {
    a == b || a.Before(b)
  }

  /** Adding a period never reorders dates. */
  lemma NextDateMonotone(a: Date, b: Date, period: Period)
    requires a.Valid() && b.Valid() && NotAfter(a, b)
    ensures NotAfter(NextDate(a, period), NextDate(b, period))
  {
  }

  /** Two different start dates run into the same end of a shorter month. */
  predicate ClampedTogether(a: Date, b: Date, period: Period)
    requires a.Valid() && b.Valid()
  {
    && a.day != b.day
    && (a.year, a.month) == (b.year, b.month)
    && var (y, m) := TargetMonth(a, period); a.day >= DaysInMonth(y, m) && b.day >= DaysInMonth(y, m)
  }

  /** On instants, adding a period reverses the order of two starts exactly when their dates
      are clamped to the same day and the earlier start has the later time of day. */
  lemma AddPeriodOrder(s: Instant, t: Instant, period: Period)
    requires s <= t
    ensures AddPeriod(s, period) <= AddPeriod(t, period)
       <==> !(ClampedTogether(DateAt(s), DateAt(t), period) && TimeOfDay(s) > TimeOfDay(t))
  {
    var a, b := DateAt(s), DateAt(t);
    AddPeriodMovesDate(s, period);
    AddPeriodMovesDate(t, period);
    DayNumberOfDate(DayOf(s));
    DayNumberOfDate(DayOf(t));
    DayNumberOrder(a, b);
    var c, d := NextDate(a, period), NextDate(b, period);
    NextDateMonotone(a, b, period);
    DayNumberOrder(c, d);
    OrderByDay(s, t);
    OrderByDay(AddPeriod(s, period), AddPeriod(t, period));
    SameTarget(a, b, period);
  }

  lemma OrderByDay(s: Instant, t: Instant)
    ensures s <= t <==> DayOf(s) < DayOf(t) || (DayOf(s) == DayOf(t) && TimeOfDay(s) <= TimeOfDay(t))
  {
  }

  lemma SameTarget(a: Date, b: Date, period: Period)
    requires a.Valid() && b.Valid()
    ensures NextDate(a, period) == NextDate(b, period) <==> (a == b || ClampedTogether(a, b, period))
  {
  }

  /** The date after `k` monthly periods. */
  function MonthsLater(d: Date, k: nat): (r: Date)
    requires d.Valid()
    ensures r.Valid()
  {
    if k == 0 then d else NextDate(MonthsLater(d, k - 1), Month)
  }

  /** Repeated monthly periods never move the day of the month up. */
  lemma {:induction false} DayNeverRises(d: Date, j: nat, k: nat)
    requires d.Valid() && j <= k
    ensures MonthsLater(d, k).day <= MonthsLater(d, j).day
  {
    if j < k { DayNeverRises(d, j, k - 1); }
  }

  /** The number of monthly periods after which a date first reaches February. */
  function StepsToFebruary(d: Date): nat
    requires d.Valid()
  {
    if d.month == 1 then 1 else 14 - d.month
  }

  function FebruaryYear(d: Date): nat
    requires d.Valid()
  {
    if d.month == 1 then d.year else d.year + 1
  }

  /** Before February the day can only drop from 31 to 30; February fixes it for the rest of
      the twelve months. */
  lemma {:induction false} MonthsLaterWithinYear(d: Date, k: nat)
    requires d.Valid() && k <= 12
    ensures var r := MonthsLater(d, k);
            && (r.year, r.month) ==
               (if d.month + k <= 12 then (d.year, d.month + k) else (d.year + 1, d.month + k - 12))
            && (k < StepsToFebruary(d) ==> Clamp(d.day, 30) <= r.day <= d.day)
            && (k >= StepsToFebruary(d) ==> r.day == Clamp(d.day, DaysInMonth(FebruaryYear(d), 2)))
  {
    hide Leap;
    if k > 0 { MonthsLaterWithinYear(d, k - 1); }
  }

  /** Twelve monthly periods equal one yearly period exactly for days up to 28, for the 29th
      when the February in between has one, and for 29 February itself. */
  lemma {:induction false} TwelveMonthsVersusYear(d: Date)
    requires d.Valid()
    ensures MonthsLater(d, 12) == NextDate(d, Year)
       <==> (d.day <= 28 || (d.day == 29 && (d.month == 2 || Leap(FebruaryYear(d)))))
  {
    MonthsLaterWithinYear(d, 12);
  }

  function Hours(n: nat): nat {
    n * 3_600_000_000
  }

  lemma JanuaryEnd(year: nat)
    requires year >= 1
    ensures DayNumber(Date(year, 1, 31)) == DayNumber(Date(year, 1, 30)) + 1
    ensures ClampedTogether(Date(year, 1, 30), Date(year, 1, 31), Month)
  {
  }

  /** 30 January 23:00 is before 31 January 01:00, but a month later it is after it. */
  lemma JanuaryEndSwaps(year: nat)
    requires year >= 1
    ensures var s, t := At(DayNumber(Date(year, 1, 30)), Hours(23)), At(DayNumber(Date(year, 1, 31)), Hours(1));
            s < t && AddPeriod(s, Month) > AddPeriod(t, Month)
  {
    var a, b := Date(year, 1, 30), Date(year, 1, 31);
    JanuaryEnd(year);
    hide AddPeriod, DateOf, DayNumber, ClampedTogether;
    SplitInstant(DayNumber(a), Hours(23));
    SplitInstant(DayNumber(b), Hours(1));
    DateOfDayNumber(a);
    DateOfDayNumber(b);
    AddPeriodOrder(At(DayNumber(a), Hours(23)), At(DayNumber(b), Hours(1)), Month);
  }

  /** From 31 January, twelve monthly periods end in the last days of a January on the 28th or 29th,
      a yearly one on the 31st. */
  lemma JanuaryEndDrifts(year: nat)
    requires year >= 1
    ensures NextDate(Date(year, 1, 31), Year) == Date(year + 1, 1, 31)
    ensures MonthsLater(Date(year, 1, 31), 12) == Date(year + 1, 1, if Leap(year) then 29 else 28)
  {
    MonthsLaterWithinYear(Date(year, 1, 31), 12);
  }
}
