/** Month arithmetic on calendar dates and the locator of AI-credit months (apps/billing/services.py). */
module Calendar {
  import opened Common

  datatype Date = Date(year: int, month: int, day: int)

  const MIN_YEAR := 1
  const MAX_YEAR := 9999

  predicate IsLeap(year: int) {
    year % 4 == 0 && (year % 100 != 0 || year % 400 == 0)
  }

  function LastDay(year: int, month: int): (r: int)
    ensures 28 <= r <= 31
  {
    if month == 2 then (if IsLeap(year) then 29 else 28)
    else if month == 4 || month == 6 || month == 9 || month == 11 then 30
    else 31
  }

  predicate IsDate(d: Date) {
    && MIN_YEAR <= d.year <= MAX_YEAR && 1 <= d.month <= 12
    && 1 <= d.day <= LastDay(d.year, d.month)
  }

  predicate Before(a: Date, b: Date) {
    a.year < b.year || (a.year == b.year && (a.month < b.month || (a.month == b.month && a.day < b.day)))
  }

  predicate NotAfter(a: Date, b: Date) { a == b || Before(a, b) }

  function Earlier(a: Date, b: Date): Date { if Before(b, a) then b else a }

  function MonthNumber(d: Date): int { d.year * 12 + d.month - 1 }

  /** Days before the first of March of this year, by the rule of 97 leap years in 400. */
  function DaysBeforeMarch(year: int): int {
    365 * year + FourYearSpans(year) - Centuries(year) + FourCenturySpans(year)
  }

  function FourYearSpans(year: int): int { year / 4 }

  function Centuries(year: int): int { year / 100 }

  function FourCenturySpans(year: int): int { year / 400 }

  /** The number of a day, by the closed formula for years that begin in March. */
  function DayNumber(d: Date): int {
    if d.month <= 2 then DaysBeforeMarch(d.year - 1) + (153 * (d.month + 9) + 2) / 5 + d.day
    else DaysBeforeMarch(d.year) + (153 * (d.month - 3) + 2) / 5 + d.day
  }

  /** The last second of a day. */
  function EndOfDay(d: Date): int { DayNumber(d) * 86_400 + 86_399 }

  /** The anchor moved by whole months, its day clamped; the year is not checked. */
  function Shifted(anchor: Date, months: int): Date {
    var absolute := MonthNumber(anchor) + months;
    var year, month := absolute / 12, absolute % 12 + 1;
    Date(year, month, Min(anchor.day, LastDay(year, month)))
  }

  const LAST_MONTH := MAX_YEAR * 12 + 11

  /** `add_billing_months` on a calendar that ends with the month `last`: None where it refuses the date. */
  function AddMonthsUpTo(last: int, anchor: Date, months: int): Option<Date> {
    var d := Shifted(anchor, months);
    if MIN_YEAR <= d.year && MonthNumber(d) <= last then Some(d) else None
  }

  function AddMonths(anchor: Date, months: int): Option<Date> { AddMonthsUpTo(LAST_MONTH, anchor, months) }

  /** `add_billing_year`: 29 February moves to 28 February. */
  function AddYear(d: Date): Option<Date> {
    if d.year + 1 > MAX_YEAR then None
    else if d.day <= LastDay(d.year + 1, d.month) then Some(d.(year := d.year + 1))
    else Some(Date(d.year + 1, 2, 28))
  }

  /** `ai_credit_period_for_date` on such a calendar: Err stands for the date error a construction would raise. */
  function CreditPeriodUpTo(last: int, start: Date, end: Date, target: Date): Result<Option<(Date, Date)>, ()> {
    if Before(target, start) || !Before(target, end) then Ok(None)
    else
      var guess := MonthNumber(target) - MonthNumber(start);
      match AddMonthsUpTo(last, start, guess)
      case None => Err(())
      case Some(first) =>
        var index := if Before(target, first) then guess - 1 else guess;
        match AddMonthsUpTo(last, start, index)
        case None => Err(())
        case Some(from) =>
          if index + 1 > MonthNumber(end) - MonthNumber(start) then Ok(Some((from, end)))
          else
            match AddMonthsUpTo(last, start, index + 1)
            case None => Err(())
            case Some(next) => Ok(Some((from, Earlier(next, end))))
  }

  function CreditPeriod(start: Date, end: Date, target: Date): Result<Option<(Date, Date)>, ()> {
    CreditPeriodUpTo(LAST_MONTH, start, end, target)
  }

  // ----- order and month numbers -----

  lemma OrderByMonthNumber(a: Date, b: Date)
    requires 1 <= a.month <= 12 && 1 <= b.month <= 12
    ensures Before(a, b) <==>
      MonthNumber(a) < MonthNumber(b) || (MonthNumber(a) == MonthNumber(b) && a.day < b.day)
    ensures MonthNumber(a) == MonthNumber(b) <==> a.year == b.year && a.month == b.month
  {}

  lemma ShiftedMonth(anchor: Date, months: int)
    ensures MonthNumber(Shifted(anchor, months)) == MonthNumber(anchor) + months
    ensures 1 <= Shifted(anchor, months).month <= 12
    ensures Shifted(anchor, months).day <= anchor.day
    ensures anchor.day <= 28 ==> Shifted(anchor, months).day == anchor.day
  {}

  // ----- the days of the calendar -----

  function NextDay(d: Date): Date {
    if d.day < LastDay(d.year, d.month) then d.(day := d.day + 1)
    else if d.month < 12 then Date(d.year, d.month + 1, 1)
    else Date(d.year + 1, 1, 1)
  }

  lemma YearLength(year: int)
    ensures DaysBeforeMarch(year) - DaysBeforeMarch(year - 1) == if IsLeap(year) then 366 else 365
  {
    hide FourYearSpans, Centuries, FourCenturySpans;
    SpansGrow(year);
    MultiplesAreMultiples(year);
  }

  lemma SpansGrow(year: int)
    ensures FourYearSpans(year) - FourYearSpans(year - 1) == if year % 4 == 0 then 1 else 0
    ensures Centuries(year) - Centuries(year - 1) == if year % 100 == 0 then 1 else 0
    ensures FourCenturySpans(year) - FourCenturySpans(year - 1) == if year % 400 == 0 then 1 else 0
  {}

  lemma MultiplesAreMultiples(year: int)
    ensures year % 400 == 0 ==> year % 100 == 0
    ensures year % 100 == 0 ==> year % 4 == 0
  {
    if year % 400 == 0 { WholeHundreds(year, year / 400); }
    if year % 100 == 0 { WholeFours(year, year / 100); }
  }

  lemma WholeHundreds(year: int, k: int)
    requires year == 400 * k
    ensures year % 100 == 0
  {
    assert year == 100 * (4 * k);
  }

  lemma WholeFours(year: int, k: int)
    requires year == 100 * k
    ensures year % 4 == 0
  {
    assert year == 4 * (25 * k);
  }

  /** Month ends and leap years are those of the civil calendar: each next day has the next number. */
  lemma DaysFollowEachOther(d: Date)
    requires IsDate(d)
    ensures DayNumber(NextDay(d)) == DayNumber(d) + 1
  {
    hide DaysBeforeMarch;
    YearLength(d.year);
  }

  lemma {:induction false} YearsFollowEachOther(a: int, b: int)
    requires a < b
    ensures DaysBeforeMarch(b) >= DaysBeforeMarch(a + 1)
    decreases b - a
  {
    hide DaysBeforeMarch;
    if a + 1 < b {
      YearsFollowEachOther(a, b - 1);
      YearLength(b);
    }
  }

  /** Later dates have higher numbers and end later. */
  lemma DaysEndInOrder(a: Date, b: Date)
    requires IsDate(a) && IsDate(b)
    ensures Before(a, b) <==> EndOfDay(a) < EndOfDay(b)
  {
    if Before(a, b) { LaterDaysEndLater(a, b); }
    if Before(b, a) { LaterDaysEndLater(b, a); }
  }

  /** The year that begins in March. */
  function MarchYear(d: Date): int { if d.month <= 2 then d.year - 1 else d.year }

  lemma LaterDaysEndLater(a: Date, b: Date)
    requires IsDate(a) && IsDate(b) && Before(a, b)
    ensures DayNumber(a) < DayNumber(b)
  {
    hide DaysBeforeMarch;
    YearLength(MarchYear(a) + 1);
    if MarchYear(a) < MarchYear(b) { YearsFollowEachOther(MarchYear(a), MarchYear(b)); }
  }

  lemma ShiftByNothing(d: Date)
    requires IsDate(d)
    ensures Shifted(d, 0) == d
  {}

  /** Month starts strictly increase, whatever days are clamped. */
  lemma MonthStartsIncrease(start: Date, j: int, k: int)
    requires j < k
    ensures Before(Shifted(start, j), Shifted(start, k))
  {
    ShiftedMonth(start, j);
    ShiftedMonth(start, k);
    OrderByMonthNumber(Shifted(start, j), Shifted(start, k));
  }

  /** A month later means the same day, or the last one of a shorter month. */
  lemma ShiftKeepsTheDay(anchor: Date, months: int)
    requires IsDate(anchor)
    ensures var d := Shifted(anchor, months);
      && 1 <= d.day <= LastDay(d.year, d.month) && d.day <= anchor.day
      && (d.day < anchor.day ==> d.day == LastDay(d.year, d.month))
  {
    ShiftedMonth(anchor, months);
  }

  /** A year is twelve months, also from 29 February and at the end of the calendar. */
  lemma YearIsTwelveMonths(d: Date)
    requires IsDate(d)
    ensures AddYear(d) == AddMonths(d, 12)
  {
    assert Shifted(d, 12).year == d.year + 1 && Shifted(d, 12).month == d.month;
  }

  // ----- the obvious search -----

  /** Steps month by month until the next month start lies after the target. */
  function SearchFrom(start: Date, target: Date, k: nat): (r: nat)
    requires 1 <= target.month <= 12 && NotAfter(Shifted(start, k), target)
    ensures k <= r && NotAfter(Shifted(start, r), target) && Before(target, Shifted(start, r + 1))
    decreases MonthNumber(target) - MonthNumber(start) - k
  {
    ShiftedMonth(start, k);
    ShiftedMonth(start, k + 1);
    OrderByMonthNumber(Shifted(start, k), target);
    OrderByMonthNumber(target, Shifted(start, k + 1));
    if Before(target, Shifted(start, k + 1)) then k else
      OrderByMonthNumber(Shifted(start, k + 1), target);
      assert NotAfter(Shifted(start, k + 1), target);
      SearchFrom(start, target, k + 1)
  }

  predicate InTerm(start: Date, end: Date, target: Date) {
    && IsDate(start) && IsDate(end) && IsDate(target)
    && NotAfter(start, target) && Before(target, end)
  }

  /** The anchored month the target falls in, found by the search. */
  function MonthOf(start: Date, end: Date, target: Date): (k: nat)
    requires InTerm(start, end, target)
    ensures NotAfter(Shifted(start, k), target) && Before(target, Shifted(start, k + 1))
  {
    ShiftByNothing(start);
    SearchFrom(start, target, 0)
  }

  /** The month found by the search, clipped to the end of the term. */
  function SearchedPeriod(start: Date, end: Date, target: Date): (Date, Date)
    requires InTerm(start, end, target)
  {
    var k := MonthOf(start, end, target);
    (Shifted(start, k), Earlier(Shifted(start, k + 1), end))
  }

  /** Only one month can contain the target. */
  lemma MonthIsUnique(start: Date, target: Date, j: int, k: int)
    requires 1 <= target.month <= 12
    requires NotAfter(Shifted(start, j), target) && Before(target, Shifted(start, j + 1))
    requires NotAfter(Shifted(start, k), target) && Before(target, Shifted(start, k + 1))
    ensures j == k
  {
    ShiftedMonth(start, j);
    ShiftedMonth(start, j + 1);
    ShiftedMonth(start, k);
    ShiftedMonth(start, k + 1);
    if j < k {
      if j + 1 < k { MonthStartsIncrease(start, j + 1, k); }
    } else if k < j {
      if k + 1 < j { MonthStartsIncrease(start, k + 1, j); }
    }
  }

  /** The month distance is the right index or one step ahead of it. */
  lemma GuessIsClose(start: Date, end: Date, target: Date)
    requires InTerm(start, end, target)
    ensures var guess := MonthNumber(target) - MonthNumber(start);
            MonthOf(start, end, target) == if Before(target, Shifted(start, guess)) then guess - 1 else guess
  {
    hide Shifted;
    var guess := MonthNumber(target) - MonthNumber(start);
    OrderByMonthNumber(start, target);
    ShiftByNothing(start);
    ShiftedMonth(start, guess - 1);
    ShiftedMonth(start, guess);
    ShiftedMonth(start, guess + 1);
    OrderByMonthNumber(Shifted(start, guess - 1), target);
    OrderByMonthNumber(Shifted(start, guess), target);
    OrderByMonthNumber(target, Shifted(start, guess));
    OrderByMonthNumber(target, Shifted(start, guess + 1));
    var index := if Before(target, Shifted(start, guess)) then guess - 1 else guess;
    MonthIsUnique(start, target, index, MonthOf(start, end, target));
  }

  /** Month starts up to the end's month are dates of a calendar that ends with that month. */
  lemma ReachableMonthsExist(start: Date, end: Date, k: nat, last: int)
    requires IsDate(start) && IsDate(end) && MonthNumber(start) + k <= MonthNumber(end) <= last
    ensures AddMonthsUpTo(last, start, k) == Some(Shifted(start, k)) && IsDate(Shifted(start, k))
  {
    ShiftedMonth(start, k);
  }

  lemma MonthsAgainstEnd(start: Date, end: Date, target: Date)
    requires InTerm(start, end, target)
    ensures var k := MonthOf(start, end, target);
            && MonthNumber(start) + k <= MonthNumber(end)
            && (MonthNumber(start) + k + 1 > MonthNumber(end) ==> Earlier(Shifted(start, k + 1), end) == end)
    ensures MonthNumber(start) <= MonthNumber(target) <= MonthNumber(end)
  {
    var k := MonthOf(start, end, target);
    ShiftedMonth(start, k);
    ShiftedMonth(start, k + 1);
    OrderByMonthNumber(start, target);
    OrderByMonthNumber(Shifted(start, k), target);
    OrderByMonthNumber(target, end);
    OrderByMonthNumber(end, Shifted(start, k + 1));
  }

  /** The locator finds the searched period on every calendar that reaches the end's month: it builds no date
      beyond that month. */
  lemma LocatorStaysWithinTheTerm(start: Date, end: Date, target: Date, last: int)
    requires InTerm(start, end, target) && MonthNumber(end) <= last
    ensures CreditPeriodUpTo(last, start, end, target) == Ok(Some(SearchedPeriod(start, end, target)))
  {
    hide Shifted;
    GuessIsClose(start, end, target);
    MonthsAgainstEnd(start, end, target);
    var guess := MonthNumber(target) - MonthNumber(start);
    var k := MonthOf(start, end, target);
    assert k == guess || k == guess - 1;
    ReachableMonthsExist(start, end, guess, last);
    ReachableMonthsExist(start, end, k, last);
    if k + 1 <= MonthNumber(end) - MonthNumber(start) { ReachableMonthsExist(start, end, k + 1, last); }
  }

  /** The constant-time locator equals the search, clipped to the end, and never raises a date error. */
  lemma LocatorEqualsSearch(start: Date, end: Date, target: Date)
    requires InTerm(start, end, target)
    ensures CreditPeriod(start, end, target) == Ok(Some(SearchedPeriod(start, end, target)))
  {
    LocatorStaysWithinTheTerm(start, end, target, LAST_MONTH);
  }

  /** There is no period exactly when the target lies outside the term. */
  lemma NoPeriodOutsideTerm(start: Date, end: Date, target: Date)
    requires IsDate(start) && IsDate(end) && IsDate(target)
    ensures CreditPeriod(start, end, target) == Ok(None) <==> !InTerm(start, end, target)
  {
    if InTerm(start, end, target) { LocatorEqualsSearch(start, end, target); }
    if !Before(target, start) { TotalOrder(start, target); }
  }

  lemma TotalOrder(a: Date, b: Date)
    ensures Before(a, b) || a == b || Before(b, a)
    ensures !(Before(a, b) && NotAfter(b, a))
  {}

  /** A date lies inside the period found for it. */
  lemma PeriodContainsTarget(start: Date, end: Date, target: Date)
    requires InTerm(start, end, target)
    ensures var p := SearchedPeriod(start, end, target);
            NotAfter(start, p.0) && NotAfter(p.0, target) && Before(target, p.1) && NotAfter(p.1, end)
  {
    var k := MonthOf(start, end, target);
    ShiftByNothing(start);
    if k > 0 { MonthStartsIncrease(start, 0, k); }
    TotalOrder(Shifted(start, k + 1), end);
  }

  /** No overlap: a date inside another date's period has that same period. */
  lemma PeriodsDoNotOverlap(start: Date, end: Date, a: Date, b: Date)
    requires InTerm(start, end, a) && InTerm(start, end, b)
    requires NotAfter(SearchedPeriod(start, end, a).0, b) && Before(b, SearchedPeriod(start, end, a).1)
    ensures MonthOf(start, end, b) == MonthOf(start, end, a)
  {
    hide Shifted;
    var j := MonthOf(start, end, a);
    InsideClip(b, Shifted(start, j + 1), end);
    MonthIsUnique(start, b, j, MonthOf(start, end, b));
  }

  lemma InsideClip(b: Date, next: Date, end: Date)
    requires Before(b, Earlier(next, end))
    ensures Before(b, next)
  {}

  /** No gap: the first period begins with the term, and each next one where the last one ended. */
  lemma PeriodsFollowEachOther(start: Date, end: Date, a: Date)
    requires InTerm(start, end, a)
    ensures InTerm(start, end, start) && MonthOf(start, end, start) == 0
    ensures SearchedPeriod(start, end, start).0 == start
    ensures var next := SearchedPeriod(start, end, a).1;
            next != end ==>
              && InTerm(start, end, next)
              && MonthOf(start, end, next) == MonthOf(start, end, a) + 1
              && SearchedPeriod(start, end, next).0 == next
  {
    hide Shifted;
    OrderIsTransitive(start, a, end);
    ShiftByNothing(start);
    MonthStartsIncrease(start, 0, 1);
    MonthIsUnique(start, start, 0, MonthOf(start, end, start));
    var j := MonthOf(start, end, a);
    var next := SearchedPeriod(start, end, a).1;
    if next != end {
      TotalOrder(next, end);
      MonthsAgainstEnd(start, end, a);
      ReachableMonthsExist(start, end, j + 1, LAST_MONTH);
      OrderIsTransitive(start, a, next);
      MonthStartsIncrease(start, j + 1, j + 2);
      MonthIsUnique(start, next, j + 1, MonthOf(start, end, next));
    }
  }

  lemma OrderIsTransitive(a: Date, b: Date, c: Date)
    ensures Before(a, b) && NotAfter(b, c) ==> Before(a, c)
    ensures NotAfter(a, b) && Before(b, c) ==> Before(a, c)
  {}

  /** At the end of the calendar the next month start does not exist, and the locator does not build it. */
  lemma LastMonthOfTheCalendar()
    ensures var start, end, target := Date(9999, 11, 15), Date(9999, 12, 20), Date(9999, 12, 16);
            && AddMonths(start, 2) == None
            && CreditPeriod(start, end, target) == Ok(Some((Date(9999, 12, 15), end)))
  {}
}
