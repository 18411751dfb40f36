/** AI months of a paid term and the wallet's ledger together: which packages are booked
    (apps/billing/services.py, apps/billing/ai_wallet.py). */
module MonthlyPackages {
  import opened Common
  import opened Calendar
  import opened Subscriptions
  import opened Wallet

  /** One refresh; `others` is what all other traffic made of the wallet since the refresh before. */
  datatype Turn = Turn(target: Date, limit: Option<int>, others: Wallet -> Wallet)

  predicate HasPackage(w: Wallet, from: Date, to: Date) { HasKey(w.ledger, GrantKey(MonthPackage(from, to))) }

  /** Months are granted by refreshes alone. */
  ghost predicate LeavesMonths(f: Wallet -> Wallet) {
    forall w: Wallet, from: Date, to: Date ::
      && (HasKey(f(w).ledger, GrantKey(MonthPackage(from, to))) <==> HasKey(w.ledger, GrantKey(MonthPackage(from, to))))
      && (HasKey(f(w).ledger, GrantExpireKey(MonthPackage(from, to))) <==>
          HasKey(w.ledger, GrantExpireKey(MonthPackage(from, to))))
  }

  /** The old package's expiry is booked only together with the new package. */
  ghost predicate KeysArePaired(w: Wallet) {
    forall from: Date, to: Date ::
      HasKey(w.ledger, GrantExpireKey(MonthPackage(from, to))) ==> HasKey(w.ledger, GrantKey(MonthPackage(from, to)))
  }

  datatype Account = Account(subscription: Subscription, wallet: Wallet)

  /** The account after all turns, which of them asked for a package and which booked one. */
  function RefreshAccounts(a: Account, turns: seq<Turn>): (r: (Account, seq<bool>, seq<bool>))
    ensures |r.1| == |r.2| == |turns|
  {
    if turns == [] then (a, [], [])
    else
      var n := |turns| - 1;
      var t := turns[n];
      var (before, flags, booked) := RefreshAccounts(a, turns[..n]);
      var w := t.others(before.wallet);
      match RefreshAccount(before.subscription, w, t.target, t.limit)
      case Err(_) => (before.(wallet := w), flags + [false], booked + [false])
      case Ok((s, v, flag)) =>
        (Account(s, v), flags + [flag],
         booked + [flag && !HasPackage(w, s.aiStart.OrElse(s.start), s.aiEnd.OrElse(s.end))])
  }

  function Targets(turns: seq<Turn>): (targets: seq<Date>)
    ensures |targets| == |turns| && forall i :: 0 <= i < |turns| ==> targets[i] == turns[i].target
  {
    if turns == [] then [] else Targets(turns[..|turns| - 1]) + [turns[|turns| - 1].target]
  }

  ghost predicate Turns(a: Account, turns: seq<Turn>) {
    && Visits(a.subscription, Targets(turns)) && Stores(a.subscription, a.subscription.start)
    && KeysArePaired(a.wallet)
    && forall i :: 0 <= i < |turns| ==> LeavesMonths(turns[i].others)
  }

  /** The key of the month of this date is taken. */
  predicate IsBooked(w: Wallet, s: Subscription, target: Date)
    requires InTerm(s.start, s.end, target)
  {
    var p := SearchedPeriod(s.start, s.end, target);
    HasPackage(w, p.0, p.1)
  }

  /** A package whose key is free can be granted, and its key is then taken and no other month's. */
  lemma GrantTakesKey(w: Wallet, limit: Option<int>, from: Date, to: Date)
    requires KeysArePaired(w)
    ensures var g := Grant(w, limit, Some(EndOfDay(to)), MonthPackage(from, to));
      && g.Some? && KeysArePaired(g.value)
      && (if HasPackage(w, from, to) then g.value == w
          else g.value.included == GrantAmount(limit) && g.value.expiresAt == Some(EndOfDay(to)))
      && (forall x: Date, y: Date :: HasPackage(g.value, x, y) <==> HasPackage(w, x, y) || (x, y) == (from, to))
  {
    hide HasKey, Booked, Total;
  }

  /** The ledger never stops a refresh: rows move as without the wallet, and a turn books the package of its
      month exactly when it asks for it and the key is free. */
  lemma {:induction false} TurnsFollowDates(a: Account, turns: seq<Turn>)
    requires Turns(a, turns)
    ensures var r := RefreshAccounts(a, turns);
      && (r.0.subscription, r.1) == RefreshAll(a.subscription, Targets(turns))
      && KeysArePaired(r.0.wallet)
  {
    hide CreditPeriod, Stores, InTerm, HasKey, Grant, Visits;
    if turns != [] {
      var n := |turns| - 1;
      assert Targets(turns)[..n] == Targets(turns[..n]);
      assert Turns(a, turns[..n]) by { PrefixVisits(a.subscription, Targets(turns), n); }
      TurnsFollowDates(a, turns[..n]);
      var before := RefreshAccounts(a, turns[..n]).0;
      var w := turns[n].others(before.wallet);
      match Refresh(before.subscription, turns[n].target)
      case Ok((t, true)) => GrantTakesKey(w, turns[n].limit, t.aiStart.value, t.aiEnd.value);
      case _ =>
    }
  }

  lemma PrefixVisits(s: Subscription, targets: seq<Date>, n: nat)
    requires Visits(s, targets) && n <= |targets|
    ensures Visits(s, targets[..n])
  {}

  /** A refresh that asks for a package stores the period of its date. */
  lemma AskedIsStored(s: Subscription, target: Date)
    requires IsSubscription(s) && InTerm(s.start, s.end, target)
    requires Refresh(s, target).Ok? && Refresh(s, target).value.1
    ensures Stores(Refresh(s, target).value.0, target)
  {
    hide SearchedPeriod, CreditPeriod, InTerm;
    LocatorEqualsSearch(s.start, s.end, target);
  }

  /** The state in which turn i refreshes, and the wallet it finds. */
  function BeforeTurn(a: Account, turns: seq<Turn>, i: nat): Account
    requires i < |turns|
  {
    var before := RefreshAccounts(a, turns[..i]).0;
    Account(before.subscription, turns[i].others(before.wallet))
  }

  lemma {:induction false} FlagsOfPrefix(a: Account, turns: seq<Turn>, i: nat)
    requires i < |turns|
    ensures RefreshAccounts(a, turns).1[i] == RefreshAccounts(a, turns[..i + 1]).1[i]
    ensures RefreshAccounts(a, turns).2[i] == RefreshAccounts(a, turns[..i + 1]).2[i]
    decreases |turns|
  {
    hide RefreshAccount;
    var n := |turns| - 1;
    if i < n {
      FlagsOfPrefix(a, turns[..n], i);
      assert turns[..n][..i + 1] == turns[..i + 1];
    } else {
      assert turns[..i + 1] == turns;
    }
  }

  lemma PrefixTurns(a: Account, turns: seq<Turn>, n: nat)
    requires Turns(a, turns) && n <= |turns|
    ensures Turns(a, turns[..n]) && Targets(turns[..n]) == Targets(turns)[..n]
  {
    hide Stores, InTerm, Visits;
    assert Targets(turns[..n]) == Targets(turns)[..n];
    PrefixVisits(a.subscription, Targets(turns), n);
  }

  /** What a turn does: it books exactly when it asks under a free key, the package it books lasts to the end
      of its month, and otherwise it leaves the wallet alone. */
  lemma LastTurn(a: Account, turns: seq<Turn>, n: nat)
    requires Turns(a, turns) && |turns| == n + 1
    ensures var before := BeforeTurn(a, turns, n); var s := a.subscription; var d := turns[n].target;
      var (after, flags, booked) := RefreshAccounts(a, turns);
      && InTerm(s.start, s.end, d)
      && (booked[n] <==> flags[n] && !IsBooked(before.wallet, s, d))
      && (if booked[n] then
            after.wallet.included == GrantAmount(turns[n].limit)
            && after.wallet.expiresAt == Some(EndOfDay(SearchedPeriod(s.start, s.end, d).1))
          else after.wallet == before.wallet)
      && (forall x: Date, y: Date :: HasPackage(after.wallet, x, y) <==>
            HasPackage(before.wallet, x, y) || (flags[n] && (x, y) == SearchedPeriod(s.start, s.end, d)))
  {
    hide CreditPeriod, SearchedPeriod, Stores, InTerm, HasKey, Grant, Visits, RefreshAll, LeavesMonths;
    PrefixTurns(a, turns, n);
    TurnsFollowDates(a, turns[..n]);
    TermIsKept(a.subscription, Targets(turns), n);
    var before := BeforeTurn(a, turns, n);
    var t := turns[n];
    PairsSurvive(t.others, RefreshAccounts(a, turns[..n]).0.wallet);
    match Refresh(before.subscription, t.target)
    case Ok((s, true)) =>
      AskedIsStored(before.subscription, t.target);
      GrantTakesKey(before.wallet, t.limit, s.aiStart.value, s.aiEnd.value);
      StoredPeriod(s, t.target);
    case _ =>
  }

  lemma StoredPeriod(s: Subscription, target: Date)
    requires InTerm(s.start, s.end, target) && Stores(s, target)
    ensures s.aiStart.Some? && s.aiEnd.Some?
    ensures (s.aiStart.value, s.aiEnd.value) == SearchedPeriod(s.start, s.end, target)
  {
    hide SearchedPeriod, InTerm;
  }

  lemma PairsSurvive(f: Wallet -> Wallet, w: Wallet)
    requires LeavesMonths(f) && KeysArePaired(w)
    ensures KeysArePaired(f(w))
    ensures forall x: Date, y: Date :: HasPackage(f(w), x, y) <==> HasPackage(w, x, y)
  {
    hide HasKey;
  }

  lemma TermIsKept(s: Subscription, targets: seq<Date>, n: nat)
    requires Visits(s, targets) && Stores(s, s.start) && n < |targets|
    ensures var r := RefreshAll(s, targets[..n]).0;
      r.start == s.start && r.end == s.end && IsSubscription(r) && InTerm(s.start, s.end, targets[n])
  {
    hide RefreshAll, InTerm, Stores;
    PrefixVisits(s, targets, n);
    LastMonthIsStored(s, targets[..n]);
  }

  /** The months of the turns that asked for a package; only their keys are new. */
  lemma {:induction false} KeysFollowFlags(a: Account, turns: seq<Turn>, d: Date)
    requires Turns(a, turns) && InTerm(a.subscription.start, a.subscription.end, d)
    ensures var s := a.subscription; var (after, flags, booked) := RefreshAccounts(a, turns);
      IsBooked(after.wallet, s, d) <==>
        IsBooked(a.wallet, s, d)
        || exists i :: 0 <= i < |turns| && flags[i] && MonthInTerm(s, turns[i].target) == Month(s, d)
  {
    hide CreditPeriod, SearchedPeriod, Stores, InTerm, HasKey, Grant, Visits, LeavesMonths, RefreshAccount, Month,
         Targets;
    if turns != [] {
      var n := |turns| - 1;
      var s := a.subscription;
      PrefixTurns(a, turns, n);
      KeysFollowFlags(a, turns[..n], d);
      LastTurn(a, turns, n);
      SubscriptionDates(a, turns);
      PairsSurvive(turns[n].others, RefreshAccounts(a, turns[..n]).0.wallet) by { TurnsFollowDates(a, turns[..n]); }
      PeriodsMatchMonths(s, turns[n].target, d);
      var (before, earlier, _) := RefreshAccounts(a, turns[..n]);
      var (after, flags, booked) := RefreshAccounts(a, turns);
      assert flags[..n] == earlier;
      assert forall i :: 0 <= i < n ==> flags[i] == earlier[i] && turns[i] == turns[..n][i];
    }
  }

  lemma SubscriptionDates(a: Account, turns: seq<Turn>)
    requires Turns(a, turns)
    ensures IsSubscription(a.subscription)
  {}

  /** Whatever order the dates come in, a turn books its month's package exactly when it moves the row to
      that month for the first time and the month's key was free. */
  lemma PackageBookedAtFirstEntry(a: Account, turns: seq<Turn>, i: nat)
    requires Turns(a, turns) && i < |turns|
    ensures var s := a.subscription; var (after, flags, booked) := RefreshAccounts(a, turns);
      && InTerm(s.start, s.end, turns[i].target)
      && (booked[i] <==>
            flags[i] && !IsBooked(a.wallet, s, turns[i].target)
            && forall j :: 0 <= j < i && flags[j] ==>
                 MonthInTerm(s, turns[j].target) != MonthInTerm(s, turns[i].target))
  {
    hide CreditPeriod, SearchedPeriod, Stores, InTerm, HasKey, Grant, Visits, LeavesMonths, RefreshAccount, Month,
         Targets, RefreshAccounts;
    PrefixTurns(a, turns, i + 1);
    assert turns[..i + 1][..i] == turns[..i];
    LastTurn(a, turns[..i + 1], i);
    FlagsOfPrefix(a, turns, i);
    PrefixTurns(a, turns, i);
    KeysFollowFlags(a, turns[..i], turns[i].target);
    PairsSurvive(turns[i].others, RefreshAccounts(a, turns[..i]).0.wallet) by { TurnsFollowDates(a, turns[..i]); }
    forall j: nat | j < i ensures RefreshAccounts(a, turns).1[j] == RefreshAccounts(a, turns[..i]).1[j] {
      FlagsOfPrefix(a, turns, j);
      FlagsOfPrefix(a, turns[..i], j);
      assert turns[..i][..j + 1] == turns[..j + 1];
    }
    assert forall j :: 0 <= j < i ==> turns[..i][j] == turns[j];
  }

  /** A date comes back to the term's first month after another one has left it. */
  predicate ComesBack(m: seq<nat>)
    requires |m| > 0
  {
    exists j, k :: 0 <= j < k < |m| && m[j] != m[0] && m[k] == m[0]
  }

  /** The package of the first month was granted with the payment; refreshes book no package twice and that
      one not again. */
  ghost predicate BooksOnce(a: Account, turns: seq<Turn>) {
    var booked := RefreshAccounts(a, turns).2;
    var m := MonthsVisited(a.subscription, Targets(turns));
    && (forall i :: 0 <= i < |turns| && booked[i] ==> m[i + 1] != m[0])
    && (forall i, j :: 0 <= i < j < |turns| && booked[i] && booked[j] ==> m[i + 1] != m[j + 1])
  }

  lemma FlagsAreEntries(a: Account, turns: seq<Turn>, i: nat)
    requires Turns(a, turns) && i < |turns|
    ensures RefreshAccounts(a, turns).1[i] <==> Enters(MonthsVisited(a.subscription, Targets(turns)), i + 1)
  {
    hide Stores, InTerm, Visits, RefreshAll, RefreshAccounts, Month;
    TurnsFollowDates(a, turns);
    RefreshesGrantOnChange(a.subscription, Targets(turns), i);
  }

  /** Packages are booked once exactly when the dates never come back to the first month after leaving it, or
      the date key of that month is taken: the payment booked its package under another key. */
  lemma BooksOnceIff(a: Account, turns: seq<Turn>)
    requires Turns(a, turns)
    ensures InTerm(a.subscription.start, a.subscription.end, a.subscription.start)
    ensures BooksOnce(a, turns) <==>
      IsBooked(a.wallet, a.subscription, a.subscription.start)
      || !ComesBack(MonthsVisited(a.subscription, Targets(turns)))
  {
    hide CreditPeriod, SearchedPeriod, Stores, InTerm, HasKey, Grant, LeavesMonths, RefreshAccounts, Month,
         Targets, MonthsVisited, IsBooked;
    var s := a.subscription;
    var m := MonthsVisited(s, Targets(turns));
    var (after, flags, booked) := RefreshAccounts(a, turns);
    forall i: nat | i < |turns|
      ensures flags[i] <==> Enters(m, i + 1)
      ensures InTerm(s.start, s.end, turns[i].target)
      ensures booked[i] <==>
        (flags[i] && !IsBooked(a.wallet, s, turns[i].target)
         && forall j :: 0 <= j < i && flags[j] ==> m[j + 1] != m[i + 1])
      ensures m[i + 1] == m[0] ==>
        (IsBooked(a.wallet, s, turns[i].target) <==> IsBooked(a.wallet, s, s.start))
    {
      FlagsAreEntries(a, turns, i);
      PackageBookedAtFirstEntry(a, turns, i);
      SamePackage(a.wallet, s, turns[i].target, s.start);
    }
    if ComesBack(m) && !IsBooked(a.wallet, s, s.start) {
      var i := FirstReturn(m);
      assert flags[i - 1] && booked[i - 1] && m[(i - 1) + 1] == m[0];
    }
    if !ComesBack(m) {
      forall i: nat | i < |turns| && booked[i] ensures m[i + 1] != m[0] {
        assert m[i] != m[i + 1];
      }
    }
  }

  lemma SamePackage(w: Wallet, s: Subscription, a: Date, b: Date)
    requires IsSubscription(s) && InTerm(s.start, s.end, a) && InTerm(s.start, s.end, b)
    ensures MonthInTerm(s, a) == MonthInTerm(s, b) ==> (IsBooked(w, s, a) <==> IsBooked(w, s, b))
  {
    hide SearchedPeriod, InTerm, HasKey;
    PeriodsMatchMonths(s, a, b);
  }

  /** The first entry into the month of the start. */
  lemma FirstReturn(m: seq<nat>) returns (t: nat)
    requires |m| > 0 && ComesBack(m)
    ensures t < |m| && Enters(m, t) && m[t] == m[0]
    ensures forall j :: 0 < j < t && Enters(m, j) ==> m[j] != m[0]
  {
    var j, k :| 0 <= j < k < |m| && m[j] != m[0] && m[k] == m[0];
    t := FindEntry(m, j, k);
    t := Earliest(m, t);
  }

  lemma {:induction false} Earliest(m: seq<nat>, i: nat) returns (t: nat)
    requires i < |m| && Enters(m, i) && m[i] == m[0]
    ensures t <= i && Enters(m, t) && m[t] == m[0]
    ensures forall j :: 0 < j < t && Enters(m, j) ==> m[j] != m[0]
    decreases i
  {
    if j :| 0 < j < i && Enters(m, j) && m[j] == m[0] {
      t := Earliest(m, j);
    } else {
      t := i;
    }
  }
}
