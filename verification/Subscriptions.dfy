/** The subscription row: paid terms, AI-credit months and the billing version (apps/billing/services.py). */
module Subscriptions {
  import opened Common
  import opened Calendar
  import opened Wallet

  datatype Status = Trial | Active | PastDue | Cancelled

  datatype Billing = Monthly | Yearly

  datatype Subscription = Subscription(
    status: Status, plan: int, billing: Billing,
    start: Date, end: Date, aiStart: Option<Date>, aiEnd: Option<Date>, version: nat)

  predicate IsSubscription(s: Subscription) {
    IsDate(s.start) && IsDate(s.end)
  }

  function Later(a: Date, b: Date): Date { if Before(a, b) then b else a }

  function TermEnd(base: Date, billing: Billing): Option<Date> {
    if billing == Yearly then AddYear(base) else AddMonths(base, 1)
  }

  // ----- the mutations; None stands for the date error a construction would raise -----

  /** The subscription part of `handle_payment_success_webhook`. */
  function ActivatePaid(s: Subscription, plan: int, billing: Billing, today: Date): Option<Subscription> {
    var base := if s.status == Trial then today else Later(today, s.end);
    match (TermEnd(base, billing), AddMonths(today, 1))
    case (Some(end), Some(month)) =>
      Some(Subscription(Active, plan, billing, today, end, Some(today), Some(Earlier(end, month)), s.version + 1))
    case _ => None
  }

  /** `upgrade_plan`. */
  function UpgradePlan(s: Subscription, plan: int, billing: Billing, today: Date): Option<Subscription> {
    match (TermEnd(today, billing), AddMonths(today, 1))
    case (Some(end), Some(month)) =>
      var aiEnd := if billing == Yearly then Earlier(end, month) else end;
      Some(Subscription(Active, plan, billing, today, end, Some(today), Some(aiEnd), s.version + 1))
    case _ => None
  }

  /** `extend_trial`, with the new end date as a parameter; an active subscription is refused. */
  function ExtendTrial(s: Subscription, today: Date, newEnd: Date): Option<Subscription> {
    if s.status == Active then None
    else Some(s.(status := Trial, start := today, end := newEnd,
                 aiStart := Some(today), aiEnd := Some(newEnd), version := s.version + 1))
  }

  /** `refresh_ai_credit_period`: the row afterwards and whether a month was granted. */
  function Refresh(s: Subscription, target: Date): Result<(Subscription, bool), ()> {
    if s.status != Active then Ok((s, false))
    else match CreditPeriod(s.start, s.end, target)
      case Err(_) => Err(())
      case Ok(None) => Ok((s, false))
      case Ok(Some(p)) =>
        if s.aiStart == Some(p.0) && s.aiEnd == Some(p.1) then Ok((s, false))
        else Ok((s.(aiStart := Some(p.0), aiEnd := Some(p.1), version := s.version + 1), true))
  }

  /** The refresh with the wallet: the month's package, which expires with the month, is granted under a key
      made of its dates, so that the wallet books it once. Err stands for a date or ledger error, which undoes
      everything. */
  function RefreshAccount(s: Subscription, w: Wallet, target: Date, limit: Option<int>)
    : Result<(Subscription, Wallet, bool), ()>
  {
    match Refresh(s, target)
    case Err(_) => Err(())
    case Ok((t, false)) => Ok((t, w, false))
    case Ok((t, true)) =>
      match Grant(w, limit, Some(EndOfDay(t.aiEnd.value)), MonthPackage(t.aiStart.value, t.aiEnd.value))
      case None => Err(())
      case Some(v) => Ok((t, v, true))
  }

  /** One row of `check_expired_trials`. */
  function Expire(s: Subscription, today: Date): Subscription {
    if (s.status == Trial || s.status == Active) && Before(s.end, today)
    then s.(status := PastDue, version := s.version + 1) else s
  }

  /** One row of `check_grace_period_expired`. */
  function CancelAfterGrace(s: Subscription, deadline: Date): Subscription {
    if s.status == PastDue && Before(s.end, deadline)
    then s.(status := Cancelled, version := s.version + 1) else s
  }

  datatype Mutation =
    | TermPaid(plan: int, billing: Billing, today: Date)
    | Upgraded(plan: int, billing: Billing, today: Date)
    | TrialExtended(today: Date, newEnd: Date)
    | Refreshed(target: Date)
    | ExpiryChecked(today: Date)
    | GraceChecked(deadline: Date)

  /** The row after a mutation; a failed one rolls back. */
  function Mutate(s: Subscription, m: Mutation): Subscription {
    match m
    case TermPaid(plan, billing, today) => ActivatePaid(s, plan, billing, today).OrElse(s)
    case Upgraded(plan, billing, today) => UpgradePlan(s, plan, billing, today).OrElse(s)
    case TrialExtended(today, newEnd) => ExtendTrial(s, today, newEnd).OrElse(s)
    case Refreshed(target) => (match Refresh(s, target) case Ok(r) => r.0 case Err(_) => s)
    case ExpiryChecked(today) => Expire(s, today)
    case GraceChecked(deadline) => CancelAfterGrace(s, deadline)
  }

  /** The version moves by exactly one with every change of the row, and only then. */
  lemma VersionCountsChanges(s: Subscription, m: Mutation)
    ensures Mutate(s, m) == s <==> Mutate(s, m).version == s.version
    ensures Mutate(s, m) != s <==> Mutate(s, m).version == s.version + 1
  {
    hide CreditPeriod, AddMonths, AddYear;
  }

  // ----- the first AI month of a paid term -----

  lemma MonthAheadIsLater(d: Date, billing: Billing)
    requires IsDate(d)
    ensures TermEnd(d, billing).Some? ==>
      var end := TermEnd(d, billing).value;
      IsDate(end) && Before(d, end) && NotAfter(Shifted(d, 1), end) && MonthNumber(d) < MonthNumber(end)
  {
    YearIsTwelveMonths(d);
    ShiftedMonth(d, 1);
    ShiftedMonth(d, 12);
    OrderByMonthNumber(d, Shifted(d, 1));
    OrderByMonthNumber(d, Shifted(d, 12));
    OrderByMonthNumber(Shifted(d, 1), Shifted(d, 12));
  }

  lemma FirstMonthOf(start: Date, end: Date)
    requires IsDate(start) && IsDate(end) && Before(start, end) && MonthNumber(start) < MonthNumber(end)
    ensures CreditPeriod(start, end, start) == Ok(Some((start, Earlier(Shifted(start, 1), end))))
  {
    hide Shifted;
    PeriodsFollowEachOther(start, end, start);
    LocatorEqualsSearch(start, end, start);
  }

  /** Both writers of a paid term store the locator's first period, so no refresh grants it again. */
  lemma FirstPeriodIsStored(s: Subscription, plan: int, billing: Billing, today: Date, upgrade: bool)
    requires IsSubscription(s) && IsDate(today)
    ensures var next := if upgrade then UpgradePlan(s, plan, billing, today) else ActivatePaid(s, plan, billing, today);
            next.Some? ==>
              var n := next.value;
              && IsSubscription(n) && n.status == Active && n.start == today && Before(today, n.end)
              && CreditPeriod(n.start, n.end, today) == Ok(Some((n.aiStart.value, n.aiEnd.value)))
              && n.aiStart.Some? && n.aiEnd.Some?
  {
    var base := if upgrade || s.status == Trial then today else Later(today, s.end);
    MonthAheadIsLater(base, billing);
    MonthAheadIsLater(today, Monthly);
    if TermEnd(base, billing).Some? {
      var end := TermEnd(base, billing).value;
      TotalOrder(today, s.end);
      OrderIsTransitive(today, base, end);
      OrderByMonthNumber(today, base);
      TotalOrder(end, Shifted(today, 1));
      FirstMonthOf(today, end);
    }
  }

  // ----- a month is granted once -----

  /** Refreshes for a sequence of dates; flags say which of them moved the row and asked for a package. */
  function RefreshAll(s: Subscription, targets: seq<Date>): (r: (Subscription, seq<bool>))
    ensures |r.1| == |targets|
  {
    if targets == [] then (s, [])
    else
      var n := |targets| - 1;
      var (before, flags) := RefreshAll(s, targets[..n]);
      match Refresh(before, targets[n])
      case Ok((after, flag)) => (after, flags + [flag])
      case Err(_) => (before, flags + [false])
  }

  /** Dates inside the paid term, in any order. */
  ghost predicate Visits(s: Subscription, targets: seq<Date>) {
    && IsSubscription(s) && s.status == Active && InTerm(s.start, s.end, s.start)
    && (forall i :: 0 <= i < |targets| ==> InTerm(s.start, s.end, targets[i]))
  }

  predicate InOrder(targets: seq<Date>) {
    forall i, j :: 0 <= i < j < |targets| ==> NotAfter(targets[i], targets[j])
  }

  function Month(s: Subscription, target: Date): nat
    requires InTerm(s.start, s.end, target)
  {
    MonthOf(s.start, s.end, target)
  }

  ghost predicate Stores(s: Subscription, target: Date)
    requires InTerm(s.start, s.end, target)
  {
    var p := SearchedPeriod(s.start, s.end, target);
    s.aiStart == Some(p.0) && s.aiEnd == Some(p.1)
  }

  lemma MonthsFollowDates(s: Subscription, a: Date, b: Date)
    requires IsSubscription(s) && InTerm(s.start, s.end, a) && InTerm(s.start, s.end, b) && NotAfter(a, b)
    ensures Month(s, a) <= Month(s, b)
  {
    hide Shifted;
    var j, k := Month(s, a), Month(s, b);
    if k < j {
      if k + 1 < j { MonthStartsIncrease(s.start, k + 1, j); }
      OrderIsTransitive(b, Shifted(s.start, k + 1), Shifted(s.start, j));
      OrderIsTransitive(b, Shifted(s.start, j), a);
      TotalOrder(b, a);
      OrderIsTransitive(b, Shifted(s.start, j), b);
    }
  }

  /** Two dates have the same period exactly when they fall into the same month. */
  lemma PeriodsMatchMonths(s: Subscription, a: Date, b: Date)
    requires IsSubscription(s) && InTerm(s.start, s.end, a) && InTerm(s.start, s.end, b)
    ensures SearchedPeriod(s.start, s.end, a) == SearchedPeriod(s.start, s.end, b) <==> Month(s, a) == Month(s, b)
  {
    hide Shifted;
    var j, k := Month(s, a), Month(s, b);
    if j < k {
      MonthStartsIncrease(s.start, j, k);
      TotalOrder(Shifted(s.start, j), Shifted(s.start, k));
    } else if k < j {
      MonthStartsIncrease(s.start, k, j);
      TotalOrder(Shifted(s.start, k), Shifted(s.start, j));
    }
  }

  /** After the refreshes the last visited month is stored, and nothing of the term has changed. */
  lemma {:induction false} LastMonthIsStored(s: Subscription, targets: seq<Date>)
    requires Visits(s, targets) && Stores(s, s.start)
    ensures var r := RefreshAll(s, targets).0;
            && r.start == s.start && r.end == s.end && r.status == Active
            && Stores(r, if targets == [] then s.start else targets[|targets| - 1])
  {
    hide CreditPeriod, SearchedPeriod, InTerm;
    if targets != [] {
      var n := |targets| - 1;
      LastMonthIsStored(s, targets[..n]);
      LocatorEqualsSearch(s.start, s.end, targets[n]);
    }
  }

  /** For dates in any order, the last refresh grants exactly when it enters another month than the one before it. */
  lemma LastRefreshGrants(s: Subscription, targets: seq<Date>, n: nat)
    requires Visits(s, targets) && Stores(s, s.start)
    requires |targets| == n + 1
    ensures var last := if n == 0 then s.start else targets[n - 1];
            RefreshAll(s, targets).1[n] <==> Month(s, targets[n]) != Month(s, last)
  {
    hide CreditPeriod, SearchedPeriod, InTerm, MonthOf;
    var before := RefreshAll(s, targets[..n]).0;
    LastMonthIsStored(s, targets[..n]);
    LocatorEqualsSearch(s.start, s.end, targets[n]);
    var last := if n == 0 then s.start else targets[n - 1];
    PeriodsMatchMonths(before, last, targets[n]);
  }

  /** The months of the term's start and of the dates, all of which lie in the term. */
  function MonthsVisited(s: Subscription, targets: seq<Date>): (m: seq<nat>)
    ensures |m| == |targets| + 1 && m[0] == MonthInTerm(s, s.start)
    ensures forall i :: 0 <= i < |targets| ==> m[i + 1] == MonthInTerm(s, targets[i])
  {
    if targets == [] then [MonthInTerm(s, s.start)]
    else MonthsVisited(s, targets[..|targets| - 1]) + [MonthInTerm(s, targets[|targets| - 1])]
  }

  function MonthInTerm(s: Subscription, target: Date): nat {
    if InTerm(s.start, s.end, target) then Month(s, target) else 0
  }

  /** For dates in any order, a refresh grants exactly when it enters another month. */
  lemma {:induction false} RefreshesGrantOnChange(s: Subscription, targets: seq<Date>, i: nat)
    requires Visits(s, targets) && Stores(s, s.start) && i < |targets|
    ensures var m := MonthsVisited(s, targets); RefreshAll(s, targets).1[i] <==> m[i + 1] != m[i]
    decreases |targets|
  {
    hide Refresh, InTerm, MonthOf, Month, Stores;
    var n := |targets| - 1;
    if i < n {
      RefreshesGrantOnChange(s, targets[..n], i);
      assert MonthsVisited(s, targets[..n])[i + 1] == MonthsVisited(s, targets)[i + 1];
      assert MonthsVisited(s, targets[..n])[i] == MonthsVisited(s, targets)[i];
    } else {
      LastRefreshGrants(s, targets, n);
    }
  }

  // ----- when no month is granted twice -----

  predicate NeverReturns(m: seq<nat>) {
    forall i, j, k :: 0 <= i < j < k < |m| && m[i] == m[k] ==> m[j] == m[i]
  }

  /** Position i is the first of a stay in its month. */
  predicate Enters(m: seq<nat>, i: nat)
    requires i < |m|
  {
    i > 0 && m[i] != m[i - 1]
  }

  predicate EntersOnce(m: seq<nat>) {
    && (forall i :: 0 <= i < |m| && Enters(m, i) ==> m[i] != m[0])
    && (forall i, j :: 0 <= i < j < |m| && Enters(m, i) && Enters(m, j) ==> m[i] != m[j])
  }

  lemma {:induction false} FindEntry(m: seq<nat>, i: nat, k: nat) returns (t: nat)
    requires i < k < |m| && m[i] != m[k]
    ensures i < t <= k && Enters(m, t) && m[t] == m[k]
    decreases k
  {
    if m[k] != m[k - 1] {
      t := k;
    } else {
      t := FindEntry(m, i, k - 1);
    }
  }

  lemma EntersOnceIffNeverReturning(m: seq<nat>)
    ensures EntersOnce(m) <==> NeverReturns(m)
  {
    if NeverReturns(m) {
      forall i: nat | i < |m| && Enters(m, i) ensures m[i] != m[0] {
        assert m[i - 1] != m[i];
      }
      forall i: nat, j: nat | i < j < |m| && Enters(m, i) && Enters(m, j) ensures m[i] != m[j] {
        assert m[j - 1] != m[j];
      }
    }
    if EntersOnce(m) {
      forall i: nat, j: nat, k: nat | i < j < k < |m| && m[i] == m[k] ensures m[j] == m[i] {
        if m[j] != m[i] {
          var t := FindEntry(m, j, k);
          if m[0] != m[i] {
            var u := FindEntry(m, 0, i);
          }
        }
      }
    }
  }

  /** Refreshes grant no month twice, and the first one never. */
  ghost predicate GrantsOnce(s: Subscription, targets: seq<Date>)
    requires Visits(s, targets)
  {
    var flags := RefreshAll(s, targets).1;
    && (forall i :: 0 <= i < |targets| && flags[i] ==> Month(s, targets[i]) != Month(s, s.start))
    && (forall i, j :: 0 <= i < j < |targets| && flags[i] && flags[j] ==> Month(s, targets[i]) != Month(s, targets[j]))
  }

  /** They do so exactly when no date returns to a month that was already left. */
  lemma GrantsOnceIffNeverReturning(s: Subscription, targets: seq<Date>)
    requires Visits(s, targets) && Stores(s, s.start)
    ensures GrantsOnce(s, targets) <==> NeverReturns(MonthsVisited(s, targets))
  {
    hide InTerm, Month, Stores, RefreshAll, MonthsVisited, NeverReturns;
    var m := MonthsVisited(s, targets);
    forall i: nat | i < |targets| ensures RefreshAll(s, targets).1[i] <==> Enters(m, i + 1) {
      RefreshesGrantOnChange(s, targets, i);
    }
    EntersOnceIffNeverReturning(m);
    if EntersOnce(m) {
      assert forall i :: 0 <= i < |targets| && RefreshAll(s, targets).1[i] ==> Enters(m, i + 1);
    }
    if GrantsOnce(s, targets) {
      forall i: nat | i < |m| && Enters(m, i) ensures m[i] != m[0] {
        assert RefreshAll(s, targets).1[i - 1];
      }
      forall i: nat, j: nat | i < j < |m| && Enters(m, i) && Enters(m, j) ensures m[i] != m[j] {
        assert RefreshAll(s, targets).1[i - 1] && RefreshAll(s, targets).1[j - 1];
      }
    }
  }

  /** Months of dates in order never go down. */
  lemma MonthsNeverGoDown(s: Subscription, targets: seq<Date>, i: nat, j: nat)
    requires Visits(s, targets) && InOrder(targets) && i <= j <= |targets|
    ensures MonthsVisited(s, targets)[i] <= MonthsVisited(s, targets)[j]
  {
    hide InTerm, Month, MonthOf, MonthsVisited;
    if 0 < j { FromTheStart(s, targets[j - 1]); }
    if 0 < i { MonthsFollowDates(s, targets[i - 1], targets[j - 1]); }
  }

  /** For dates in order a refresh grants exactly when its month is not the first one and no earlier date fell
      into it; in particular no month is granted twice. */
  lemma EachMonthGrantedOnce(s: Subscription, targets: seq<Date>, i: nat)
    requires Visits(s, targets) && InOrder(targets) && Stores(s, s.start)
    requires i < |targets|
    ensures RefreshAll(s, targets).1[i] <==>
      Month(s, targets[i]) != Month(s, s.start)
      && forall j :: 0 <= j < i ==> Month(s, targets[j]) != Month(s, targets[i])
    ensures GrantsOnce(s, targets)
  {
    hide InTerm, Month, Stores, RefreshAll, MonthsVisited, GrantsOnce, InOrder;
    var m := MonthsVisited(s, targets);
    RefreshesGrantOnChange(s, targets, i);
    forall j: nat, k: nat | j <= k <= |targets| ensures m[j] <= m[k] { MonthsNeverGoDown(s, targets, j, k); }
    assert forall j :: 0 <= j < i ==> m[j + 1] == Month(s, targets[j]);
    if m[i] == m[i + 1] && i > 0 { assert m[(i - 1) + 1] == Month(s, targets[i - 1]); }
    assert NeverReturns(m) by { assert forall j: nat, k: nat :: j <= k < |m| ==> m[j] <= m[k]; OrderedNeverReturns(m); }
    GrantsOnceIffNeverReturning(s, targets);
  }

  lemma OrderedNeverReturns(m: seq<nat>)
    requires forall j, k :: 0 <= j <= k < |m| ==> m[j] <= m[k]
    ensures NeverReturns(m)
  {
    forall i: nat, j: nat, k: nat | i < j < k < |m| && m[i] == m[k] ensures m[j] == m[i] {
      assert m[i] <= m[j] && m[j] <= m[k];
    }
  }

  lemma FromTheStart(s: Subscription, target: Date)
    requires IsSubscription(s) && InTerm(s.start, s.end, target) && InTerm(s.start, s.end, s.start)
    ensures Month(s, s.start) == 0 <= Month(s, target) && NotAfter(s.start, target)
  {
    PeriodsFollowEachOther(s.start, s.end, target);
  }

  lemma ExampleMonths(start: Date)
    requires start == Date(2024, 1, 31)
    ensures Shifted(start, 0) == start
    ensures Shifted(start, 1) == Date(2024, 2, 29)
    ensures Shifted(start, 2) == Date(2024, 3, 31)
  {}

  lemma ExamplePeriods(start: Date, end: Date)
    requires start == Date(2024, 1, 31) && end == Date(2025, 1, 31)
    ensures CreditPeriod(start, end, Date(2024, 2, 29)) == Ok(Some((Date(2024, 2, 29), Date(2024, 3, 31))))
    ensures CreditPeriod(start, end, Date(2024, 2, 1)) == Ok(Some((start, Date(2024, 2, 29))))
  {
    hide Shifted;
    ExampleMonths(start);
  }

  /** Going backwards does grant the first month, after all. */
  lemma GoingBackGrantsAgain(s: Subscription)
    requires s.status == Active && s.start == Date(2024, 1, 31) && s.end == Date(2025, 1, 31)
    requires s.aiStart == Some(s.start) && s.aiEnd == Some(Date(2024, 2, 29))
    ensures Refresh(s, Date(2024, 2, 1)) == Ok((s, false))
    ensures var later := Refresh(s, Date(2024, 2, 29));
            && later.Ok? && later.value.1
            && Refresh(later.value.0, Date(2024, 2, 1)).Ok?
            && Refresh(later.value.0, Date(2024, 2, 1)).value.1
  {
    hide CreditPeriod;
    ExamplePeriods(s.start, s.end);
  }

  // ----- the row in place -----

  class SubscriptionRow {
    var status: Status
    var plan: int
    var billing: Billing
    var currentStart: Date
    var currentEnd: Date
    var aiStart: Option<Date>
    var aiEnd: Option<Date>
    var version: nat

    function Value(): Subscription
      reads this
    {
      Subscription(status, plan, billing, currentStart, currentEnd, aiStart, aiEnd, version)
    }

    constructor (s: Subscription)
      ensures Value() == s
    {
      status, plan, billing, currentStart, currentEnd := s.status, s.plan, s.billing, s.start, s.end;
      aiStart, aiEnd, version := s.aiStart, s.aiEnd, s.version;
    }

    /** Undoes a transaction. */
    method Restore(s: Subscription)
      modifies this
      ensures Value() == s
    {
      status, plan, billing, currentStart, currentEnd := s.status, s.plan, s.billing, s.start, s.end;
      aiStart, aiEnd, version := s.aiStart, s.aiEnd, s.version;
    }

    /** Writes a paid term; a date that cannot be built leaves the row alone. */
    method ActivatePaidTerm(newPlan: int, period: Billing, today: Date) returns (ok: bool)
      modifies this
      ensures ok == ActivatePaid(old(Value()), newPlan, period, today).Some?
      ensures Value() == Mutate(old(Value()), TermPaid(newPlan, period, today))
    {
      var base := today;
      if status != Trial && Before(today, currentEnd) {
        base := currentEnd;
      }
      var end := if period == Yearly then AddYear(base) else AddMonths(base, 1);
      var month := AddMonths(today, 1);
      if end.None? || month.None? {
        return false;
      }
      plan := newPlan;
      billing := period;
      status := Active;
      currentStart := today;
      currentEnd := end.value;
      aiStart := Some(today);
      aiEnd := Some(Earlier(end.value, month.value));
      version := version + 1;
      return true;
    }

    /** Moves the row to the AI month of the target date and grants its package, unless it is there already. */
    method RefreshAICreditPeriod(wallet: AIWallet, target: Date, limit: Option<int>)
      returns (r: Result<bool, ()>)
      modifies this, wallet
      ensures var after := RefreshAccount(old(Value()), old(wallet.Value()), target, limit);
        && r.Ok? == after.Ok? && (r.Ok? ==> r.value == after.value.2)
        && (Value(), wallet.Value()) ==
             (if r.Ok? then (after.value.0, after.value.1) else (old(Value()), old(wallet.Value())))
    {
      hide Grant, CreditPeriod;
      if status != Active {
        return Ok(false);
      }
      var period := CreditPeriod(currentStart, currentEnd, target);
      if period.Err? {
        return Err(());
      }
      if period.value.None? {
        return Ok(false);
      }
      var (from, to) := period.value.value;
      if aiStart == Some(from) && aiEnd == Some(to) {
        return Ok(false);
      }
      var before := Value();
      aiStart := Some(from);
      aiEnd := Some(to);
      version := version + 1;
      var granted := wallet.GrantIncluded(limit, Some(EndOfDay(to)), MonthPackage(from, to));
      if !granted {
        Restore(before);
        return Err(());
      }
      return Ok(true);
    }
  }
}
