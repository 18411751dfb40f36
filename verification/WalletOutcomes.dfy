/** What each wallet operation makes of the balances, told by what the credits are for (apps/billing/ai_wallet.py). */
module WalletOutcomes {
  import opened Common
  import opened Wallet

  /** A tenant's first package is the least one that covers, with what was used before, the limit; x stands for
      any other. */
  lemma FirstPackage(limit: int, used: int, at: Option<int>, x: int)
    ensures var w := NewWallet(limit, used, at);
      && 0 <= w.included && limit <= w.included + used
      && (0 <= x && limit <= x + used ==> w.included <= x)
      && w.limit == limit && w.purchased == 0 && w.reserved == 0 && w.expiresAt == at
      && Total(w.ledger, IncludedColumn) == w.included
  {}

  /** A package counts only until it expires; a reservation is granted exactly when it asks for nothing or the
      balance left covers it beside the other reservations. */
  lemma ReserveOutcome(w: Wallet, requested: int, k: nat, now: int)
    requires !HasKey(w.ledger, ReserveKey(k))
    requires w.expiresAt.Some? ==> !HasKey(w.ledger, ExpireKey(w.expiresAt.value))
    ensures var r := Reserve(w, requested, k, now);
      var isOver := w.expiresAt.Some? && w.expiresAt.value < now && w.included > 0;
      var package := if isOver then 0 else w.included;
      && (r.Granted? <==> requested <= 0 || w.reserved + requested <= package + w.purchased)
      && (!r.Granted? ==> r == Insufficient)
      && (r.Granted? ==>
            && r.wallet.reserved - w.reserved == (if requested <= 0 then 0 else requested)
            && r.wallet.included == package && r.wallet.purchased == w.purchased
            && r.wallet.limit == w.limit && r.wallet.expiresAt == w.expiresAt
            && Booked(r.wallet.ledger, ReserveKey(k)) == r.wallet.reserved - w.reserved
            && (isOver ==> Booked(r.wallet.ledger, ExpireKey(w.expiresAt.value)) == -w.included))
  {
    hide HasKey, Booked, Total;
  }

  /** A release gives up to the reserved amount free and leaves every credit where it is. */
  lemma ReleaseOutcome(w: Wallet, k: nat, amount: int)
    requires 0 <= amount <= w.reserved
    ensures var v := Release(w, k, amount);
      && v.reserved == w.reserved - amount
      && v.included == w.included && v.purchased == w.purchased && v.limit == w.limit && v.expiresAt == w.expiresAt
  {}

  /** The charge is the most of the price, every x up to it, that leaves the other reservations covered. Included
      credits pay it before purchased ones, and the reservation is given up. */
  lemma SettleOutcome(w: Wallet, k: nat, amount: int, actual: int, x: int)
    requires 0 <= w.included && 0 <= w.purchased && 0 <= amount <= w.reserved
    requires !HasKey(w.ledger, SettledKey(k)) && Settle(w, k, amount, actual).Some?
    ensures var (v, charge) := Settle(w, k, amount, actual).value;
      && 0 <= charge && v.included + v.purchased == w.included + w.purchased - charge
      && (0 < x ==> (x <= charge <==> x <= actual && w.reserved - amount <= w.included + w.purchased - x))
      && 0 <= v.included <= w.included && 0 <= v.purchased <= w.purchased
      && (v.purchased < w.purchased ==> v.included == 0)
      && v.reserved == w.reserved - amount && v.limit == w.limit && v.expiresAt == w.expiresAt
      && HasKey(v.ledger, SettledKey(k))
  {
    hide HasKey, Booked, Total;
  }

  /** A settlement that is repeated charges nothing more. */
  lemma SettledOnce(w: Wallet, k: nat, amount: int, actual: int)
    requires HasKey(w.ledger, SettledKey(k))
    ensures Settle(w, k, amount, actual).Some? && Settle(w, k, amount, actual).value.0 == w
  {}

  /** A new package replaces the old one, which is booked out; a package granted before changes nothing. */
  lemma GrantOutcome(w: Wallet, amount: Option<int>, expiresAt: Option<int>, g: Package)
    requires !HasKey(w.ledger, GrantKey(g)) ==> !HasKey(w.ledger, GrantExpireKey(g))
    ensures var r := Grant(w, amount, expiresAt, g);
      && r.Some?
      && (if HasKey(w.ledger, GrantKey(g)) then r.value == w
          else
            var v := r.value;
            && v.included == v.limit == (if amount.Some? && amount.value > 0 then amount.value else 0)
            && v.expiresAt == expiresAt && v.purchased == w.purchased && v.reserved == w.reserved
            && Booked(v.ledger, GrantKey(g)) == v.included
            && (w.included != 0 ==> Booked(v.ledger, GrantExpireKey(g)) == -w.included))
  {
    hide HasKey, Booked, Total;
  }

  /** A limit change keeps what was spent of the package, as long as the new limit covers it and the
      reservations need no more; otherwise the package is the least of all x that back the reservations. */
  lemma LimitChangeKeepsSpending(w: Wallet, newLimit: int, n: nat, x: int)
    ensures var v := SyncLimit(w, newLimit, n);
      var spent := if w.included < w.limit then w.limit - w.included else 0;
      && v.limit == newLimit && v.purchased == w.purchased && v.reserved == w.reserved && v.expiresAt == w.expiresAt
      && (if spent <= newLimit && w.reserved <= newLimit - spent + w.purchased
          then newLimit - v.included == spent
          else
            && 0 <= v.included && w.reserved <= v.included + w.purchased
            && (0 <= x && w.reserved <= x + w.purchased ==> v.included <= x))
  {}

  /** Of two limit changes only the last one counts, unless the first met a reservation or zero. */
  lemma LastLimitChangeCounts(w: Wallet, first: int, last: int, n: nat, m: nat)
    requires w.included <= w.limit && w.limit - w.included <= first
    requires w.reserved <= first - (w.limit - w.included) + w.purchased
    ensures var twice, once := SyncLimit(SyncLimit(w, first, n), last, m), SyncLimit(w, last, m);
      && twice.included == once.included && twice.limit == once.limit
      && twice.purchased == once.purchased && twice.reserved == once.reserved && twice.expiresAt == once.expiresAt
  {
    hide HasKey, Booked, Total;
  }

  /** A purchase adds its credits once. */
  lemma TopupOutcome(w: Wallet, amount: int, t: nat)
    ensures var v := Topup(w, amount, t);
      && v.purchased - w.purchased == (if HasKey(w.ledger, TopupKey(t)) || amount <= 0 then 0 else amount)
      && v.included == w.included && v.reserved == w.reserved && v.limit == w.limit && v.expiresAt == w.expiresAt
      && HasKey(v.ledger, TopupKey(t))
  {
    hide HasKey, Booked, Total;
  }

  /** A reversal takes back the most of what is asked for, every x up to it, that is purchased and that no
      reservation needs. */
  lemma ReversalOutcome(w: Wallet, amount: int, key: Key, x: int)
    requires !HasKey(w.ledger, key) && 0 <= amount
    ensures var (v, reversed, shortfall) := ReversePurchased(w, amount, key);
      && 0 <= reversed && reversed + shortfall == amount && v.purchased == w.purchased - reversed
      && (0 < x ==>
            (x <= reversed <==> x <= amount && x <= w.purchased && w.reserved <= w.included + w.purchased - x))
      && v.included == w.included && v.reserved == w.reserved && v.limit == w.limit && v.expiresAt == w.expiresAt
      && Booked(v.ledger, key) == -reversed
  {
    hide HasKey, Booked, Total;
  }

  /** A repeated one takes nothing and reports what the first one took. */
  lemma RepeatedReversal(w: Wallet, amount: int, again: int, key: Key)
    requires !HasKey(w.ledger, key) && 0 <= amount
    ensures var (v, reversed, _) := ReversePurchased(w, amount, key);
      var (u, repeated, missing) := ReversePurchased(v, again, key);
      u == v && repeated == reversed && missing == (if reversed < again then again - reversed else 0)
  {
    hide HasKey, Booked, Total;
  }
}
