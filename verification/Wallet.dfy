/** The AI-credit wallet and its append-only ledger (apps/billing/ai_wallet.py).
    Amounts are integers in units of 0.0001 credit; a transaction that aborts leaves the wallet as it was. */
module Wallet {
  import opened Common
  import opened Calendar

  datatype Column = IncludedColumn | PurchasedColumn | ReservedColumn

  /** What a package of included credits is granted for: a term, by the version that activates it, or an
      AI month, by its dates. */
  datatype Package = TermPackage(version: nat) | MonthPackage(from: Date, to: Date)

  /** Idempotency keys: formatted strings, one constructor a format. */
  datatype Key =
    | BootstrapKey
    | ReserveKey(k: nat)
    | ReleaseKey(k: nat)
    | SettledKey(k: nat)
    | ChargeIncludedKey(k: nat)
    | ChargePurchasedKey(k: nat)
    | GrantKey(package: Package)
    | GrantExpireKey(package: Package)
    | ExpireKey(at: int)
    | LimitSyncKey(n: nat)
    | TopupKey(t: nat)
    | ReversalKey(chargeback: bool, ref: nat)

  datatype Entry = Entry(key: Key, column: Column, amount: int)

  datatype Wallet = Wallet(
    included: int, limit: int, purchased: int, reserved: int, expiresAt: Option<int>, ledger: seq<Entry>)

  predicate HasKey(ledger: seq<Entry>, key: Key) {
    ledger != [] && (ledger[|ledger| - 1].key == key || HasKey(ledger[..|ledger| - 1], key))
  }

  /** The amount booked under a key that is present. */
  function Booked(ledger: seq<Entry>, key: Key): int {
    if ledger == [] then 0
    else if ledger[|ledger| - 1].key == key then ledger[|ledger| - 1].amount
    else Booked(ledger[..|ledger| - 1], key)
  }

  function Total(ledger: seq<Entry>, column: Column): int {
    if ledger == [] then 0
    else
      var e := ledger[|ledger| - 1];
      Total(ledger[..|ledger| - 1], column) + if e.column == column then e.amount else 0
  }

  function Post(ledger: seq<Entry>, e: Entry): (r: seq<Entry>)
    ensures forall key :: HasKey(r, key) <==> HasKey(ledger, key) || key == e.key
    ensures forall c :: Total(r, c) == Total(ledger, c) + if e.column == c then e.amount else 0
    ensures forall key :: Booked(r, key) == if key == e.key then e.amount else Booked(ledger, key)
  {
    assert (ledger + [e])[..|ledger|] == ledger;
    ledger + [e]
  }

  function PostUnlessZero(ledger: seq<Entry>, e: Entry): seq<Entry> {
    if e.amount == 0 then ledger else Post(ledger, e)
  }

  function Balance(w: Wallet): int { w.included + w.purchased }

  function Available(w: Wallet): int { Max(0, Balance(w) - w.reserved) }

  /** `ensure_wallet` for a tenant without one. */
  function NewWallet(limit: int, used: int, expiresAt: Option<int>): Wallet {
    var remaining := Max(0, limit - used);
    Wallet(remaining, limit, 0, 0, expiresAt, PostUnlessZero([], Entry(BootstrapKey, IncludedColumn, remaining)))
  }

  predicate Expired(w: Wallet, now: int) {
    w.expiresAt.Some? && w.expiresAt.value < now && w.included > 0
  }

  /** `_expire_included_if_needed`: None when its ledger key is taken. */
  function ExpireIncluded(w: Wallet, now: int): Option<Wallet> {
    if !Expired(w, now) then Some(w)
    else if HasKey(w.ledger, ExpireKey(w.expiresAt.value)) then None
    else Some(w.(included := 0,
                 ledger := Post(w.ledger, Entry(ExpireKey(w.expiresAt.value), IncludedColumn, -w.included))))
  }

  datatype Reservation = Granted(wallet: Wallet) | Insufficient | KeyCollision

  function Reserve(w: Wallet, requested: int, k: nat, now: int): Reservation {
    var amount := Max(0, requested);
    match ExpireIncluded(w, now)
    case None => KeyCollision
    case Some(v) =>
      if Available(v) < amount then Insufficient
      else if HasKey(v.ledger, ReserveKey(k)) then KeyCollision
      else Granted(v.(reserved := v.reserved + amount,
                      ledger := Post(v.ledger, Entry(ReserveKey(k), ReservedColumn, amount))))
  }

  /** The reserved column shrinks even when the release is already booked. */
  function Release(w: Wallet, k: nat, amount: int): Wallet {
    var released := Min(w.reserved, amount);
    w.(reserved := w.reserved - released,
       ledger := if HasKey(w.ledger, ReleaseKey(k)) then w.ledger
                 else Post(w.ledger, Entry(ReleaseKey(k), ReservedColumn, -released)))
  }

  /** What a settlement takes; the wallet's other reservations are left covered. */
  function Charge(w: Wallet, amount: int, actual: int): int {
    var others := Max(0, w.reserved - amount);
    Min(Max(0, actual), Max(0, Balance(w) - others))
  }

  predicate SettleCollides(w: Wallet, k: nat, amount: int, actual: int) {
    var charged := Charge(w, amount, actual);
    var fromIncluded := Min(w.included, charged);
    || (fromIncluded != 0 && HasKey(w.ledger, ChargeIncludedKey(k)))
    || (charged - fromIncluded != 0 && HasKey(w.ledger, ChargePurchasedKey(k)))
  }

  /** The wallet and the charge; None when a ledger key is taken. */
  function Settle(w: Wallet, k: nat, amount: int, actual: int): Option<(Wallet, int)> {
    if HasKey(w.ledger, SettledKey(k)) then Some((w, Max(0, actual)))
    else if SettleCollides(w, k, amount, actual) then None
    else
      var charged := Charge(w, amount, actual);
      var fromIncluded := Min(w.included, charged);
      var fromPurchased := charged - fromIncluded;
      var l1 := PostUnlessZero(w.ledger, Entry(ChargeIncludedKey(k), IncludedColumn, -fromIncluded));
      var l2 := PostUnlessZero(l1, Entry(ChargePurchasedKey(k), PurchasedColumn, -fromPurchased));
      Some((w.(included := w.included - fromIncluded, purchased := w.purchased - fromPurchased,
               reserved := Max(0, w.reserved - amount),
               ledger := Post(l2, Entry(SettledKey(k), ReservedColumn, -amount))), charged))
  }

  function GrantAmount(amount: Option<int>): int {
    if amount.None? then 0 else Max(0, amount.value)
  }

  /** The new period's package replaces the old one; None when the expiry key is taken. */
  function Grant(w: Wallet, amount: Option<int>, expiresAt: Option<int>, g: Package): Option<Wallet> {
    if HasKey(w.ledger, GrantKey(g)) then Some(w)
    else if w.included != 0 && HasKey(w.ledger, GrantExpireKey(g)) then None
    else
      var granted := GrantAmount(amount);
      var l := PostUnlessZero(w.ledger, Entry(GrantExpireKey(g), IncludedColumn, -w.included));
      Some(w.(included := granted, limit := granted, expiresAt := expiresAt,
              ledger := Post(l, Entry(GrantKey(g), IncludedColumn, granted))))
  }

  /** A limit change keeps what was spent and what is reserved; n is a fresh identifier. */
  function SyncLimit(w: Wallet, newLimit: int, n: nat): Wallet {
    var consumed := Max(0, w.limit - w.included);
    var promised := Max(0, w.reserved - w.purchased);
    var balance := Max(Max(0, newLimit - consumed), promised);
    w.(included := balance, limit := newLimit,
       ledger := PostUnlessZero(w.ledger, Entry(LimitSyncKey(n), IncludedColumn, balance - w.included)))
  }

  function Topup(w: Wallet, amount: int, t: nat): Wallet {
    if HasKey(w.ledger, TopupKey(t)) then w
    else w.(purchased := w.purchased + Max(0, amount),
            ledger := Post(w.ledger, Entry(TopupKey(t), PurchasedColumn, Max(0, amount))))
  }

  /** Purchased credits that no reservation needs. */
  function Reversible(w: Wallet): int {
    Max(0, w.purchased - Max(0, w.reserved - w.included))
  }

  function Absolute(x: int): int { if x < 0 then -x else x }

  /** The wallet, what was taken back and what was missing. */
  function ReversePurchased(w: Wallet, amount: int, key: Key): (Wallet, int, int) {
    if HasKey(w.ledger, key) then
      var reversed := Absolute(Booked(w.ledger, key));
      (w, reversed, Max(0, amount - reversed))
    else
      var requested := Max(0, amount);
      var reversed := Min(requested, Reversible(w));
      (w.(purchased := w.purchased - reversed,
          ledger := Post(w.ledger, Entry(key, PurchasedColumn, -reversed))),
       reversed, requested - reversed)
  }

  // ----- properties of single operations -----

  ghost predicate Booking(w: Wallet) {
    && w.included == Total(w.ledger, IncludedColumn)
    && w.purchased == Total(w.ledger, PurchasedColumn)
    && w.reserved == Total(w.ledger, ReservedColumn)
  }

  ghost predicate NonNegative(w: Wallet) {
    0 <= w.included && 0 <= w.purchased && 0 <= w.reserved
  }

  ghost predicate Backed(w: Wallet) { w.reserved <= Balance(w) }

  /** With a fresh reservation key, a reserve aborts exactly when an expired package was expired before. */
  lemma ReserveAbortsIffExpiredTwice(w: Wallet, requested: int, k: nat, now: int)
    requires !HasKey(w.ledger, ReserveKey(k))
    ensures Reserve(w, requested, k, now) == KeyCollision
      <==> Expired(w, now) && HasKey(w.ledger, ExpireKey(w.expiresAt.value))
  {}

  /** It happens: once a reserve has expired the package, a limit raise makes the next reserve abort. */
  lemma LimitRaiseAfterExpiryBlocksReserves(
      w: Wallet, amount: int, k: nat, now: int, newLimit: int, n: nat, requested: int, k': nat, later: int)
    requires Expired(w, now) && Reserve(w, amount, k, now).Granted?
    requires newLimit > Max(0, w.limit) && later >= now
    ensures Reserve(SyncLimit(Reserve(w, amount, k, now).wallet, newLimit, n), requested, k', later) == KeyCollision
  {
    var v := Reserve(w, amount, k, now).wallet;
    assert v.included == 0 && HasKey(v.ledger, ExpireKey(w.expiresAt.value));
    var u := SyncLimit(v, newLimit, n);
    assert u.included > 0 && HasKey(u.ledger, ExpireKey(w.expiresAt.value));
  }

  /** A successful positive reservation leaves the wallet backed, whatever it was before. */
  lemma ReserveBacks(w: Wallet, requested: int, k: nat, now: int)
    requires Reserve(w, requested, k, now).Granted?
    ensures requested > 0 || (Backed(w) && !Expired(w, now)) ==> Backed(Reserve(w, requested, k, now).wallet)
  {}

  /** A limit change leaves the wallet backed, whatever it was before. */
  lemma SyncBacks(w: Wallet, newLimit: int, n: nat)
    ensures Backed(SyncLimit(w, newLimit, n))
  {}

  /** Releases, top-ups and reversals keep the backing. */
  lemma OthersKeepBacking(w: Wallet, k: nat, amount: int, key: Key)
    requires Backed(w) && NonNegative(w)
    ensures 0 <= amount ==> Backed(Release(w, k, amount))
    ensures Backed(Topup(w, amount, k))
    ensures Backed(ReversePurchased(w, amount, key).0)
  {}

  lemma SettleKeepsBacking(w: Wallet, k: nat, amount: int, actual: int)
    requires Backed(w) && 0 <= w.reserved && 0 <= amount && Settle(w, k, amount, actual).Some?
    ensures Backed(Settle(w, k, amount, actual).value.0)
  {}

  /** A new period backs the reservations exactly when its package covers what purchases do not. */
  lemma GrantBacksIff(w: Wallet, amount: Option<int>, expiresAt: Option<int>, g: Package)
    requires !HasKey(w.ledger, GrantKey(g)) && Grant(w, amount, expiresAt, g).Some?
    ensures Backed(Grant(w, amount, expiresAt, g).value) <==> w.reserved - w.purchased <= GrantAmount(amount)
  {}

  /** A settlement charges the full price exactly when the wallet covers it beside the other reservations. */
  lemma FullChargeIff(w: Wallet, k: nat, amount: int, actual: int)
    requires !HasKey(w.ledger, SettledKey(k)) && 0 <= actual && Settle(w, k, amount, actual).Some?
    ensures Settle(w, k, amount, actual).value.1 == actual
      <==> actual == 0 || actual + Max(0, w.reserved - amount) <= Balance(w)
  {}

  /** Backed wallets pay every price within the reservation in full. */
  lemma BackedSettlesInFull(w: Wallet, k: nat, amount: int, actual: int)
    requires Backed(w) && 0 <= actual <= amount <= w.reserved
    requires !HasKey(w.ledger, SettledKey(k)) && Settle(w, k, amount, actual).Some?
    ensures Settle(w, k, amount, actual).value.1 == actual
  {}

  // ----- the columns and the ledger -----

  /** A release keeps the ledger in step exactly when it is the first one for its key, or releases nothing. */
  lemma ReleaseBooksIff(w: Wallet, k: nat, amount: int)
    requires Booking(w)
    ensures Booking(Release(w, k, amount)) <==> !HasKey(w.ledger, ReleaseKey(k)) || Min(w.reserved, amount) == 0
  {
    hide HasKey, Booked, Total;
  }

  /** A settlement keeps the ledger in step exactly when the reserved column covers the reservation. */
  lemma SettleBooksIff(w: Wallet, k: nat, amount: int, actual: int)
    requires Booking(w) && !HasKey(w.ledger, SettledKey(k)) && Settle(w, k, amount, actual).Some?
    ensures Booking(Settle(w, k, amount, actual).value.0) <==> amount <= w.reserved
  {
    hide HasKey, Booked, Total;
  }

  lemma ReserveBooks(w: Wallet, amount: int, k: nat, now: int)
    requires Booking(w) && Reserve(w, amount, k, now).Granted?
    ensures Booking(Reserve(w, amount, k, now).wallet)
  {
    hide HasKey, Booked, Total;
  }

  lemma GrantBooks(w: Wallet, amount: Option<int>, at: Option<int>, g: Package)
    requires Booking(w) && Grant(w, amount, at, g).Some?
    ensures Booking(Grant(w, amount, at, g).value)
  {
    hide HasKey, Booked, Total;
  }

  /** Every other operation keeps each column equal to the sum of its entries as well. */
  lemma OthersBook(w: Wallet, amount: int, k: nat, key: Key)
    requires Booking(w)
    ensures Booking(SyncLimit(w, amount, k)) && Booking(Topup(w, amount, k))
    ensures Booking(ReversePurchased(w, amount, key).0)
  {
    hide HasKey, Booked, Total;
  }

  lemma NewWalletBooks(limit: int, used: int, at: Option<int>)
    ensures Booking(NewWallet(limit, used, at)) && NonNegative(NewWallet(limit, used, at))
  {}

  // ----- the wallet row in place -----

  class AIWallet {
    var included: int
    var limit: int
    var purchased: int
    var reserved: int
    var expiresAt: Option<int>
    var ledger: seq<Entry>

    function Value(): Wallet
      reads this
    {
      Wallet(included, limit, purchased, reserved, expiresAt, ledger)
    }

    constructor (tenantLimit: int, used: int, periodEnd: Option<int>)
      ensures Value() == NewWallet(tenantLimit, used, periodEnd)
    {
      var remaining := Max(0, tenantLimit - used);
      included, limit, purchased, reserved := remaining, tenantLimit, 0, 0;
      expiresAt := periodEnd;
      ledger := PostUnlessZero([], Entry(BootstrapKey, IncludedColumn, remaining));
    }

    /** Books one entry; false when its key is taken and the transaction must be undone. */
    method Book(e: Entry) returns (ok: bool)
      modifies this`ledger
      ensures ok <==> !HasKey(old(ledger), e.key)
      ensures ledger == if ok then Post(old(ledger), e) else old(ledger)
    {
      ok := !HasKey(ledger, e.key);
      if ok {
        ledger := Post(ledger, e);
      }
    }

    method Restore(w: Wallet)
      modifies this
      ensures Value() == w
    {
      included, limit, purchased, reserved := w.included, w.limit, w.purchased, w.reserved;
      expiresAt, ledger := w.expiresAt, w.ledger;
    }

    method ReserveCredits(requested: int, k: nat, now: int) returns (r: Reservation)
      modifies this
      ensures r == Reserve(old(Value()), requested, k, now)
      ensures Value() == if r.Granted? then r.wallet else old(Value())
    {
      hide HasKey, Booked, Total;
      var before := Value();
      var amount := Max(0, requested);
      if expiresAt.Some? && expiresAt.value < now && included > 0 {
        var expired := included;
        included := 0;
        var booked := Book(Entry(ExpireKey(expiresAt.value), IncludedColumn, -expired));
        if !booked {
          Restore(before);
          return KeyCollision;
        }
      }
      if Max(0, included + purchased - reserved) < amount {
        Restore(before);
        return Insufficient;
      }
      reserved := reserved + amount;
      var booked := Book(Entry(ReserveKey(k), ReservedColumn, amount));
      if !booked {
        Restore(before);
        return KeyCollision;
      }
      return Granted(Value());
    }

    method ReleaseCredits(k: nat, amount: int)
      modifies this
      ensures Value() == Release(old(Value()), k, amount)
    {
      var released := Min(reserved, amount);
      reserved := reserved - released;
      var booked := Book(Entry(ReleaseKey(k), ReservedColumn, -released));
    }

    method SettleCredits(k: nat, amount: int, price: int) returns (charge: Option<int>)
      modifies this
      ensures charge.Some? == Settle(old(Value()), k, amount, price).Some?
      ensures charge.Some? ==> (Value(), charge.value) == Settle(old(Value()), k, amount, price).value
      ensures charge.None? ==> Value() == old(Value())
    {
      hide HasKey, Booked, Total;
      var before := Value();
      var actual := Max(0, price);
      if HasKey(ledger, SettledKey(k)) {
        return Some(actual);
      }
      reserved := Max(0, reserved - amount);
      var available := Max(0, included + purchased - reserved);
      var charged := Min(actual, available);
      var fromIncluded := Min(included, charged);
      included := included - fromIncluded;
      var fromPurchased := charged - fromIncluded;
      purchased := purchased - fromPurchased;
      var booked := true;
      if fromIncluded != 0 {
        booked := Book(Entry(ChargeIncludedKey(k), IncludedColumn, -fromIncluded));
      }
      if booked && fromPurchased != 0 {
        booked := Book(Entry(ChargePurchasedKey(k), PurchasedColumn, -fromPurchased));
      }
      if !booked {
        Restore(before);
        return None;
      }
      var last := Book(Entry(SettledKey(k), ReservedColumn, -amount));
      return Some(charged);
    }

    method GrantIncluded(amount: Option<int>, periodEnd: Option<int>, g: Package) returns (ok: bool)
      modifies this
      ensures ok == Grant(old(Value()), amount, periodEnd, g).Some?
      ensures Value() == Grant(old(Value()), amount, periodEnd, g).OrElse(old(Value()))
    {
      hide HasKey, Booked, Total;
      if HasKey(ledger, GrantKey(g)) {
        return true;
      }
      if included != 0 {
        ok := Book(Entry(GrantExpireKey(g), IncludedColumn, -included));
        if !ok {
          return false;
        }
      }
      var granted := if amount.None? then 0 else Max(0, amount.value);
      limit := granted;
      included := granted;
      expiresAt := periodEnd;
      ok := Book(Entry(GrantKey(g), IncludedColumn, granted));
    }

    method SyncIncludedLimit(newLimit: int, n: nat)
      requires !HasKey(ledger, LimitSyncKey(n))
      modifies this
      ensures Value() == SyncLimit(old(Value()), newLimit, n)
    {
      var consumed := Max(0, limit - included);
      var balance := Max(0, newLimit - consumed);
      var promised := Max(0, reserved - purchased);
      balance := Max(balance, promised);
      var adjustment := balance - included;
      limit := newLimit;
      included := balance;
      if adjustment != 0 {
        var booked := Book(Entry(LimitSyncKey(n), IncludedColumn, adjustment));
      }
    }

    method TopupPurchased(requested: int, t: nat)
      modifies this
      ensures Value() == Topup(old(Value()), requested, t)
    {
      if HasKey(ledger, TopupKey(t)) {
        return;
      }
      var amount := Max(0, requested);
      purchased := purchased + amount;
      var booked := Book(Entry(TopupKey(t), PurchasedColumn, amount));
    }

    method ReverseCredits(amount: int, key: Key) returns (reversed: int, shortfall: int)
      modifies this
      ensures (Value(), reversed, shortfall) == ReversePurchased(old(Value()), amount, key)
    {
      if HasKey(ledger, key) {
        reversed := Absolute(Booked(ledger, key));
        shortfall := Max(0, amount - reversed);
        return;
      }
      var requested := Max(0, amount);
      var reservedFromPurchased := Max(0, reserved - included);
      var reversible := Max(0, purchased - reservedFromPurchased);
      reversed := Min(requested, reversible);
      shortfall := requested - reversed;
      purchased := purchased - reversed;
      var booked := Book(Entry(key, PurchasedColumn, -reversed));
    }
  }
}
