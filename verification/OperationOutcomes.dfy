/** What each step makes of a paid provider operation and its wallet, in their fields
    (apps/ai_agent/reconciliation.py). */
module OperationOutcomes {
  import opened Common
  import opened Wallet
  import opened Operations
  import opened WalletOutcomes

  predicate IsProviderCall(s: State, i: nat) { i < |s.ops| && s.ops[i].kind.ProviderCall? }

  predicate IsOpen(o: Op) { o.status == Reserved || o.status == PendingReconciliation }

  /** What was agreed at the start stays. */
  predicate SameOrder(o: Op, p: Op) {
    p.kind == o.kind && p.key == o.key && p.amount == o.amount && p.createdAt == o.createdAt
    && p.networkStarted == o.networkStarted
  }

  predicate OthersStay(s: State, t: State, i: nat) {
    |t.ops| == |s.ops| && forall j :: 0 <= j < |s.ops| && j != i ==> t.ops[j] == s.ops[j]
  }

  /** The operation is released: it costs nothing, its amount is free again, and no credit is touched. */
  predicate IsReleased(s: State, t: State, i: nat)
    requires i < |s.ops|
  {
    && OthersStay(s, t, i) && SameOrder(s.ops[i], t.ops[i])
    && t.ops[i].status == Released && t.ops[i].charged == Some(0)
    && t.wallet.reserved == s.wallet.reserved - s.ops[i].amount
    && t.wallet.included == s.wallet.included && t.wallet.purchased == s.wallet.purchased
    && t.wallet.limit == s.wallet.limit && t.wallet.expiresAt == s.wallet.expiresAt
  }

  /** What the wallet can pay of a price beside its other reservations. */
  function Payable(w: Wallet, reservation: int, price: int): int {
    var free := w.included + w.purchased - (w.reserved - reservation);
    if price <= 0 || free <= 0 then 0 else if price <= free then price else free
  }

  /** The operation is settled: its price is taken, included credits first, and its amount given up. */
  predicate IsSettled(s: State, t: State, i: nat, price: int)
    requires i < |s.ops|
  {
    var charge := Payable(s.wallet, s.ops[i].amount, price);
    && OthersStay(s, t, i) && SameOrder(s.ops[i], t.ops[i])
    && t.ops[i].status == Settled && t.ops[i].charged == Some(charge)
    && t.wallet.reserved == s.wallet.reserved - s.ops[i].amount
    && t.wallet.included + t.wallet.purchased == s.wallet.included + s.wallet.purchased - charge
    && 0 <= t.wallet.included <= s.wallet.included && 0 <= t.wallet.purchased <= s.wallet.purchased
    && (t.wallet.purchased < s.wallet.purchased ==> t.wallet.included == 0)
    && t.wallet.limit == s.wallet.limit && t.wallet.expiresAt == s.wallet.expiresAt
  }

  lemma ReleasedAsTold(s: State, i: nat, o: Op)
    requires Inv(s) && IsProviderCall(s, i) && Held(s.ops[i])
    requires o.(sweptUnstarted := s.ops[i].sweptUnstarted) == ReleaseLocked(s.ops[i], s.wallet).0
    ensures IsReleased(s, State(ReleaseLocked(s.ops[i], s.wallet).1, s.ops[i := o]), i)
    ensures o.apply == NotRequired
  {
    hide Inv, Release;
    ReleaseTakesTheAmount(s, i);
  }

  lemma SettledAsTold(s: State, i: nat, price: int, applies: bool)
    requires Inv(s) && IsProviderCall(s, i) && Held(s.ops[i])
    ensures var r := SettleLocked(s.ops[i], s.wallet, price, applies);
      && r.Ok? && IsSettled(s, State(r.value.1, s.ops[i := r.value.0]), i, price)
      && r.value.0.apply == (if applies then ApplyPending else NotRequired)
  {
    hide Settle, HasKey, Booking, KeysFit;
    var o := s.ops[i];
    SettleTakesTheAmount(s, i, price);
    HeldTotalCovers(s.ops, i);
    assert !HasKey(s.wallet.ledger, SettledKey(o.key)) by { FreshSettledKey(s, i); }
    SettleOutcome(s.wallet, o.key, o.amount, price, 0);
  }

  lemma FreshSettledKey(s: State, i: nat)
    requires KeysFit(s) && i < |s.ops| && Held(s.ops[i])
    ensures !HasKey(s.wallet.ledger, SettledKey(s.ops[i].key))
  {
    hide HasKey;
    assert ClosingKey(SettledKey(s.ops[i].key), s.ops[i].key);
  }

  /** The worker's release closes an open operation for nothing and changes no closed one. */
  lemma WorkerReleaseOutcome(s: State, i: nat)
    requires Reachable(s) && IsProviderCall(s, i)
    ensures var t := Apply(s, WorkerRelease(i));
      if IsOpen(s.ops[i]) then IsReleased(s, t, i) && t.ops[i].apply == NotRequired else t == s
  {
    hide Release, Inv, Reachable, IsReleased;
    ReachableIsSound(s);
    if Held(s.ops[i]) { ReleasedAsTold(s, i, ReleaseLocked(s.ops[i], s.wallet).0); }
  }

  /** The worker's settlement closes an open operation at its price; a result that is to be applied must be
      there and is then waited for. A closed operation is not changed. */
  lemma WorkerSettleOutcome(s: State, i: nat, price: int, applies: bool, hasResult: bool)
    requires Reachable(s) && IsProviderCall(s, i)
    ensures var t := Apply(s, WorkerSettle(i, price, applies, hasResult));
      if IsOpen(s.ops[i]) && (applies ==> hasResult) then
        IsSettled(s, t, i, price) && t.ops[i].apply == (if applies then ApplyPending else NotRequired)
      else t == s
  {
    hide SettleLocked, Inv, Reachable, IsSettled;
    ReachableIsSound(s);
    if Held(s.ops[i]) { SettledAsTold(s, i, price, applies); }
  }

  /** The operator's decision, only on an operation under reconciliation: released for nothing, or settled at
      its whole reserved amount. Any other operation is left as it is. */
  lemma OperatorOutcome(s: State, i: nat, release: bool)
    requires Reachable(s) && IsProviderCall(s, i)
    ensures var t := Apply(s, Resolve(i, release));
      if s.ops[i].status != PendingReconciliation then t == s
      else if release then IsReleased(s, t, i) && t.ops[i].apply == NotRequired
      else IsSettled(s, t, i, s.ops[i].amount) && t.ops[i].apply == NotRequired
  {
    hide SettleLocked, Release, Inv, Reachable, IsSettled, IsReleased;
    ReachableIsSound(s);
    if Held(s.ops[i]) {
      ReleasedAsTold(s, i, ReleaseLocked(s.ops[i], s.wallet).0);
      SettledAsTold(s, i, s.ops[i].amount, false);
    }
  }

  /** A result that is waited for is applied once, and nothing else of the operation changes. */
  lemma ApplyOutcome(s: State, i: nat)
    requires IsProviderCall(s, i)
    ensures Apply(s, ApplyResult(i)) ==
      if s.ops[i].status == Settled && s.ops[i].apply == ApplyPending then
        s.(ops := s.ops[i := s.ops[i].(apply := Applied)])
      else s
  {
    assert s.ops[i := s.ops[i]] == s.ops;
  }

  /** The boundary is marked on a reserved operation at its first start; a doubt moves only a reserved one. */
  lemma StartAndDoubtOutcome(s: State, i: nat, now: int)
    requires IsProviderCall(s, i)
    ensures Apply(s, Start(i, now)) ==
      if s.ops[i].status == Reserved && s.ops[i].networkStarted.None? then
        s.(ops := s.ops[i := s.ops[i].(networkStarted := Some(now))])
      else s
    ensures Apply(s, Doubt(i)) ==
      if s.ops[i].status == Reserved then s.(ops := s.ops[i := s.ops[i].(status := PendingReconciliation)]) else s
  {
    assert s.ops[i := s.ops[i]] == s.ops;
  }

  /** The sweep touches only reserved operations that are old enough: a started one since its start, which it
      leaves to reconciliation, and an unstarted one since its creation, which it releases. */
  lemma SweepOutcome(s: State, i: nat, checkedAt: int, timeout: int)
    requires Reachable(s) && IsProviderCall(s, i)
    ensures var o := s.ops[i];
      Apply(s, SweepStarted(i, checkedAt, timeout)) ==
        if o.status == Reserved && o.networkStarted.Some? && o.networkStarted.value + timeout <= checkedAt
        then s.(ops := s.ops[i := o.(status := PendingReconciliation)]) else s
    ensures var o := s.ops[i]; var t := Apply(s, SweepUnstarted(i, checkedAt, timeout));
      if o.status == Reserved && o.networkStarted.None? && o.createdAt + timeout <= checkedAt
      then IsReleased(s, t, i) else t == s
  {
    hide Release, Inv, Reachable, IsReleased;
    ReachableIsSound(s);
    if Held(s.ops[i]) { ReleasedAsTold(s, i, ReleaseLocked(s.ops[i], s.wallet).0.(sweptUnstarted := true)); }
  }

  /** An operation begins exactly when no operation of its domain is open or waits for its result, and the
      wallet covers it; it starts reserved, unmarked, uncharged, and holds what it asked for. */
  lemma BeginOutcome(s: State, domain: nat, amount: int, key: nat, now: int)
    requires !HasKey(s.wallet.ledger, ReserveKey(key))
    requires s.wallet.expiresAt.Some? ==> !HasKey(s.wallet.ledger, ExpireKey(s.wallet.expiresAt.value))
    ensures var t := Apply(s, Begin(domain, amount, key, now));
      var w := s.wallet;
      var isOver := w.expiresAt.Some? && w.expiresAt.value < now && w.included > 0;
      if (forall j :: 0 <= j < |s.ops| && s.ops[j].kind == ProviderCall(domain) ==>
            !IsOpen(s.ops[j]) && !(s.ops[j].status == Settled && s.ops[j].apply == ApplyPending))
         && (amount <= 0 || w.reserved + amount <= (if isOver then 0 else w.included) + w.purchased) then
        && |t.ops| == |s.ops| + 1 && t.ops[..|s.ops|] == s.ops
        && t.ops[|s.ops|] == Op(ProviderCall(domain), key, if amount <= 0 then 0 else amount, Reserved, None, None, now,
                                NotRequired, false, false)
        && t.wallet.reserved == w.reserved + (if amount <= 0 then 0 else amount)
        && t.wallet.included == (if isOver then 0 else w.included) && t.wallet.purchased == w.purchased
      else t == s
  {
    hide Reserve, HasKey;
    ReserveOutcome(s.wallet, amount, key, now);
  }

  /** A media job's reservation is released for nothing or settled at its whole amount, once. */
  lemma MediaOutcome(s: State, i: nat)
    requires Reachable(s) && i < |s.ops| && s.ops[i].kind.MediaJob?
    ensures var t := Apply(s, MediaRelease(i));
      if s.ops[i].status != Reserved then t == s
      else
        && OthersStay(s, t, i) && t.ops[i].status == Released
        && t.wallet.reserved == s.wallet.reserved - s.ops[i].amount
        && t.wallet.included == s.wallet.included && t.wallet.purchased == s.wallet.purchased
    ensures var t := Apply(s, MediaSettle(i));
      if s.ops[i].status != Reserved then t == s
      else
        && OthersStay(s, t, i) && t.ops[i].status == Settled
        && t.ops[i].charged == Some(Payable(s.wallet, s.ops[i].amount, s.ops[i].amount))
        && t.wallet.reserved == s.wallet.reserved - s.ops[i].amount
        && t.wallet.included + t.wallet.purchased
             == s.wallet.included + s.wallet.purchased - Payable(s.wallet, s.ops[i].amount, s.ops[i].amount)
  {
    hide Release, Settle, Inv, Reachable;
    ReachableIsSound(s);
    if s.ops[i].status == Reserved {
      ReleaseTakesTheAmount(s, i);
      SettleTakesTheAmount(s, i, s.ops[i].amount);
    }
  }
}
