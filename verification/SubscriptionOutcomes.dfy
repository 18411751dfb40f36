/** What each operation makes of the subscription row, told in calendar terms (apps/billing/services.py). */
module SubscriptionOutcomes {
  import opened Common
  import opened Calendar
  import opened Subscriptions

  /** The same day some months later, or the last day of a month that is too short. */
  predicate IsMonthsAfter(d: Date, from: Date, months: int) {
    && d.year * 12 + d.month == from.year * 12 + from.month + months && 1 <= d.month <= 12
    && (d.day == from.day || (d.day < from.day && d.day == LastDay(d.year, d.month)))
  }

  lemma TermLasts(base: Date, billing: Billing)
    requires IsDate(base)
    ensures var months := if billing == Yearly then 12 else 1;
      && (TermEnd(base, billing).Some? <==> MonthNumber(base) + months <= LAST_MONTH)
      && (TermEnd(base, billing).Some? ==>
            IsMonthsAfter(TermEnd(base, billing).value, base, months) && IsDate(TermEnd(base, billing).value)
            && TermEnd(base, billing).value == Shifted(base, months))
  {
    YearIsTwelveMonths(base);
    ShiftedMonth(base, 1);
    ShiftedMonth(base, 12);
    ShiftKeepsTheDay(base, 1);
    ShiftKeepsTheDay(base, 12);
  }

  /** A paid term lasts a year or a month from the end of the time already paid, or from today after a trial;
      only the end of the calendar stops it. Its first AI month is a month from today, or shorter. */
  lemma PaidTermOutcome(s: Subscription, plan: int, billing: Billing, today: Date)
    requires IsSubscription(s) && IsDate(today)
    ensures var from := if s.status != Trial && Before(today, s.end) then s.end else today;
      var months := if billing == Yearly then 12 else 1;
      var next := ActivatePaid(s, plan, billing, today);
      && (next.Some? <==> MonthNumber(from) + months <= LAST_MONTH)
      && (next.Some? ==>
            var n := next.value;
            && n.status == Active && n.plan == plan && n.billing == billing && n.version == s.version + 1
            && n.start == today && IsMonthsAfter(n.end, from, months)
            && n.aiStart == Some(today) && n.aiEnd.Some? && NotAfter(n.aiEnd.value, n.end)
            && (IsMonthsAfter(n.aiEnd.value, today, 1)
                || (n.aiEnd.value == n.end && Before(n.end, Shifted(today, 1)))))
  {
    hide Shifted, IsMonthsAfter;
    var from := if s.status != Trial && Before(today, s.end) then s.end else today;
    TermLasts(from, billing);
    TermLasts(today, Monthly);
    OrderByMonthNumber(today, from);
  }

  /** A changed plan lasts a year or a month from today, whatever was paid before. */
  lemma UpgradeOutcome(s: Subscription, plan: int, billing: Billing, today: Date)
    requires IsDate(today)
    ensures var months := if billing == Yearly then 12 else 1;
      var next := UpgradePlan(s, plan, billing, today);
      && (next.Some? <==> MonthNumber(today) + months <= LAST_MONTH)
      && (next.Some? ==>
            var n := next.value;
            && n.status == Active && n.plan == plan && n.billing == billing && n.version == s.version + 1
            && n.start == today && IsMonthsAfter(n.end, today, months)
            && n.aiStart == Some(today) && n.aiEnd.Some? && IsMonthsAfter(n.aiEnd.value, today, 1))
  {
    hide Shifted, IsMonthsAfter;
    TermLasts(today, billing);
    TermLasts(today, Monthly);
    ShiftedMonth(today, 1);
    ShiftedMonth(today, 12);
    MonthStartsIncrease(today, 1, 12);
    TotalOrder(Shifted(today, 1), Shifted(today, 12));
  }

  /** An active subscription is not made a trial; any other becomes one that lasts, with its package, from
      today to the new end. */
  lemma TrialOutcome(s: Subscription, today: Date, newEnd: Date)
    ensures var next := ExtendTrial(s, today, newEnd);
      && (next.None? <==> s.status == Active)
      && (next.Some? ==>
            next.value ==
              Subscription(Trial, s.plan, s.billing, today, newEnd, Some(today), Some(newEnd), s.version + 1))
  {}

  /** Exactly a trial or paid term that ended before today becomes past due, and exactly a past-due one that
      ended before the deadline is cancelled; nothing else changes but the version. */
  lemma EndOfTermOutcome(s: Subscription, day: Date)
    ensures Expire(s, day) ==
      (if Before(s.end, day) && s.status != PastDue && s.status != Cancelled
       then s.(status := PastDue, version := s.version + 1) else s)
    ensures CancelAfterGrace(s, day) ==
      (if Before(s.end, day) && s.status == PastDue then s.(status := Cancelled, version := s.version + 1) else s)
  {}

  /** A refresh touches only an active subscription on a date of its term, and of it only the AI month, which
      is then the one of the date. */
  lemma RefreshOutcome(s: Subscription, target: Date)
    requires IsSubscription(s) && IsDate(target)
    ensures var r := Refresh(s, target);
      && r.Ok?
      && var (t, asked) := r.value;
        if s.status == Active && InTerm(s.start, s.end, target) then
          var p := SearchedPeriod(s.start, s.end, target);
          && t.aiStart == Some(p.0) && t.aiEnd == Some(p.1)
          && (asked <==> s.aiStart != Some(p.0) || s.aiEnd != Some(p.1))
          && t == s.(aiStart := t.aiStart, aiEnd := t.aiEnd, version := if asked then s.version + 1 else s.version)
        else t == s && !asked
  {
    hide CreditPeriod, SearchedPeriod;
    NoPeriodOutsideTerm(s.start, s.end, target);
    if InTerm(s.start, s.end, target) {
      LocatorEqualsSearch(s.start, s.end, target);
    } else if s.status == Active {
      assert CreditPeriod(s.start, s.end, target) == Ok(None);
    }
  }
}
