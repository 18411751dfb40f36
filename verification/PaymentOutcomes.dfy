/** What a report of the provider makes of its invoice, subscription and wallet, in their fields
    (apps/billing/services.py). */
module PaymentOutcomes {
  import opened Common
  import opened Calendar
  import opened Subscriptions
  import opened Wallet
  import opened Invoices
  import opened Billing
  import opened WalletOutcomes

  /** The report is about this payment, over the whole price, in the invoice's currency. */
  predicate Fits(v: Invoice, p: Payment) {
    v.paymentId == Some(p.id) && p.money == Some(100 * v.amount) && p.currency == Some(v.currency)
  }

  predicate IsSettled(v: Invoice) { v.status == Paid || v.status == PartiallyRefunded || v.status == Refunded }

  /** A payment still counts: the invoice is pending, or unpaid in manual review without a refund in question. */
  predicate IsOpen(v: Invoice) {
    v.status == Pending || (v.status == ManualReview && v.paidAt.None? && !v.refundReview)
  }

  function InReview(v: Invoice): Invoice { v.(status := ManualReview) }

  /** Every success report for a top-up: another payment, price or currency means manual review and nothing
      given; a fitting one is acknowledged when settled, gives the credits once when open, and is refused
      otherwise. */
  lemma TopupPaymentOutcome(a: Account, p: Payment, m: Moment)
    requires a.invoice.purchase.CreditPurchase? && a.invoice.amount > 0
    requires a.invoice.paymentId.Some? ==> !HasKey(a.wallet.ledger, TopupKey(a.invoice.paymentId.value))
    ensures var v := a.invoice; var (b, answer, given) := PaymentSucceeded(a, p, m);
      && b.subscription == a.subscription
      && (!Fits(v, p) ==> b == a.(invoice := InReview(v)) && !answer && !given)
      && (Fits(v, p) && IsSettled(v) ==> b == a && answer && !given)
      && (Fits(v, p) && IsOpen(v) && v.purchase.readable && v.purchase.credits > 0 ==>
            && answer && given && b.invoice == v.(status := Paid, paidAt := Some(m.now))
            && b.wallet.purchased == a.wallet.purchased + v.purchase.credits
            && b.wallet.included == a.wallet.included && b.wallet.reserved == a.wallet.reserved
            && b.wallet.limit == a.wallet.limit && b.wallet.expiresAt == a.wallet.expiresAt)
      && (Fits(v, p) && IsOpen(v) && !(v.purchase.readable && v.purchase.credits > 0) ==>
            b == a.(invoice := InReview(v)) && !answer && !given)
      && (Fits(v, p) && !IsSettled(v) && !IsOpen(v) ==> b == a && !answer && !given)
  {
    hide HasKey, Booked, Total;
  }

  /** Every success report for a term likewise; an open one is given exactly to the subscription version it was
      sold for, unless a date cannot be built. */
  lemma TermPaymentOutcome(a: Account, p: Payment, m: Moment)
    requires a.invoice.purchase.TermPurchase? && a.invoice.amount > 0 && a.subscription.Some?
    requires PackagesFit(a.wallet, a.subscription.value)
    ensures var v, s := a.invoice, a.subscription.value; var (b, answer, given) := PaymentSucceeded(a, p, m);
      var sold := v.purchase.readable && s.version == v.purchase.expectedVersion;
      && (!Fits(v, p) ==> b == a.(invoice := InReview(v)) && !answer && !given)
      && (Fits(v, p) && IsSettled(v) ==> b == a && answer && !given)
      && (Fits(v, p) && !IsSettled(v) && !IsOpen(v) ==> b == a && !answer && !given)
      && (Fits(v, p) && IsOpen(v) && !sold ==> b == a.(invoice := InReview(v)) && !answer && !given)
      && (Fits(v, p) && IsOpen(v) && sold ==>
            var next := ActivatePaid(s, v.purchase.plan, v.purchase.billing, m.today);
            && (answer <==> given) && (given <==> next.Some?)
            && (if given then b.invoice == v.(status := Paid, paidAt := Some(m.now)) && b.subscription == next
                else b == a))
  {
    hide HasKey, Booked, Total, Grant, ActivatePaid;
    LedgerNeverRefusesTerm(a, m);
  }

  /** Without a subscription a fitting report for an open term is left to an operator. */
  lemma TermWithoutSubscription(a: Account, p: Payment, m: Moment)
    requires a.invoice.purchase.TermPurchase? && a.invoice.amount > 0 && a.subscription.None?
    requires Fits(a.invoice, p) && IsOpen(a.invoice)
    ensures PaymentSucceeded(a, p, m) == (a.(invoice := InReview(a.invoice)), false, false)
  {}

  /** A cancellation fails an open invoice of its payment, is acknowledged again on a failed one, and moves
      nothing else. */
  lemma CancellationOutcome(v: Invoice, id: nat)
    ensures var (w, answer) := PaymentFailed(v, id);
      && (v.paymentId == Some(id) && v.status != Failed && IsOpen(v) ==> answer && w == v.(status := Failed))
      && (v.paymentId == Some(id) && v.status == Failed ==> answer && w == v)
      && (v.paymentId != Some(id) || (v.status != Failed && !IsOpen(v)) ==> !answer && w == v)
  {}

  // ----- refunds -----

  /** A whole positive amount in the invoice's currency for its payment, within what is left of the price. */
  predicate IsProper(v: Invoice, q: RefundReport) {
    && q.ref.Some? && v.paymentId == Some(q.paymentId) && q.currency == Some(v.currency)
    && q.money.Some? && q.money.value > 0 && q.money.value % 100 == 0
    && q.money.value <= 100 * (v.amount - v.refunded)
  }

  predicate IsNewReference(reversals: seq<Reversal>, ref: nat) {
    forall r :: r in reversals ==> r.ref != ref
  }

  lemma {:induction false} NewReferenceIsNotFound(reversals: seq<Reversal>, ref: nat)
    ensures FindReversal(reversals, ref).None? <==> IsNewReference(reversals, ref)
  {
    if reversals != [] {
      var n := |reversals| - 1;
      assert reversals == reversals[..n] + [reversals[n]];
      NewReferenceIsNotFound(reversals[..n], ref);
    }
  }

  /** A proper report under a new reference is recorded, and accepted exactly for an invoice that is paid,
      partially refunded or in manual review; unaccepted it takes nothing and asks for a review. */
  lemma AcceptedIff(s: Refunding, i: nat, q: RefundReport)
    requires IsProper(s.invoice, q) && IsNewReference(s.reversals, q.ref.value)
    ensures var (r, found) := ReversalSucceeded(s, i, q);
      && found && |r.reversals| == |s.reversals| + 1 && r.reversals[..|s.reversals|] == s.reversals
      && var x := r.reversals[|s.reversals|];
        && x.ref == q.ref.value && x.invoice == i && x.paymentId == q.paymentId && 100 * x.amount == q.money.value
        && Some(x.currency) == q.currency && x.chargeback == q.chargeback
        && (x.accepted <==> s.invoice.status == Paid || s.invoice.status == PartiallyRefunded
                            || s.invoice.status == ManualReview)
        && (x.accepted ==> r.invoice.refunded == s.invoice.refunded + x.amount)
        && (!x.accepted ==>
              r.invoice == s.invoice.(status := ManualReview, refundReview := true) && r.wallet == s.wallet
              && x.requested == x.reversed == x.shortfall == 0)
  {
    hide HasKey, Booked, Total, CreditTarget, RequestedFor, ReversePurchased, FindReversal;
    NewReferenceIsNotFound(s.reversals, q.ref.value);
  }

  /** A report for this payment that is well-formed but in another currency or above what is left is recorded
      for review and takes nothing. A malformed one or one for another payment changes nothing at all. */
  lemma ImproperIsNotAccepted(s: Refunding, i: nat, q: RefundReport)
    requires !IsProper(s.invoice, q) && (q.ref.Some? ==> IsNewReference(s.reversals, q.ref.value))
    ensures var (r, found) := ReversalSucceeded(s, i, q);
      if q.ref.Some? && s.invoice.paymentId == Some(q.paymentId) && q.currency.Some?
         && q.money.Some? && q.money.value > 0 && q.money.value % 100 == 0 then
        && found && r.invoice == s.invoice.(status := ManualReview, refundReview := true) && r.wallet == s.wallet
        && |r.reversals| == |s.reversals| + 1 && r.reversals[..|s.reversals|] == s.reversals
        && !r.reversals[|s.reversals|].accepted && r.reversals[|s.reversals|].requested == 0
      else !found && r == s
  {
    hide HasKey, Booked, Total, CreditTarget, RequestedFor, ReversePurchased, FindReversal;
    if q.ref.Some? { NewReferenceIsNotFound(s.reversals, q.ref.value); }
  }

  /** A repeated reference is acknowledged exactly if the report repeats the one on record in everything. */
  lemma RepetitionIsAcknowledgedIff(s: Refunding, i: nat, q: RefundReport, before: seq<Reversal>, r: Reversal)
    requires s.reversals == before + [r] && q.ref == Some(r.ref)
    requires s.invoice.paymentId == Some(q.paymentId) && q.currency.Some?
    requires q.money.Some? && q.money.value > 0 && q.money.value % 100 == 0
    ensures var (t, found) := ReversalSucceeded(s, i, q);
      && t == s
      && (found <==> r.invoice == i && r.paymentId == q.paymentId && 100 * r.amount == q.money.value
                     && q.currency == Some(r.currency) && r.chargeback == q.chargeback)
  {
    hide CreditTarget, RequestedFor, ReversePurchased;
  }

  /** An accepted refund of a term, or of a top-up whose snapshot is unreadable, counts as refunded and is left
      to an operator with the wallet untouched. */
  lemma RefundLeftToOperator(s: Refunding, i: nat, q: RefundReport)
    requires IsProper(s.invoice, q) && IsNewReference(s.reversals, q.ref.value)
    requires s.invoice.status == Paid || s.invoice.status == PartiallyRefunded || s.invoice.status == ManualReview
    requires s.invoice.purchase.TermPurchase? || !s.invoice.purchase.readable
    ensures var (r, found) := ReversalSucceeded(s, i, q);
      && found && r.wallet == s.wallet && |r.reversals| == |s.reversals| + 1
      && r.invoice == s.invoice.(status := ManualReview, refundReview := true,
                                 refunded := s.invoice.refunded + q.money.value / 100)
      && var x := r.reversals[|s.reversals|];
         x.accepted && !x.applied && x.requested == x.reversed == x.shortfall == 0
  {
    hide CreditTarget, RequestedFor, ReversePurchased, FindReversal;
    NewReferenceIsNotFound(s.reversals, q.ref.value);
  }

  /** The refund of a paid top-up: the refunded part grows by the amount, the credits of the exact cumulative
      share not asked for yet are asked back, and of these the most that is purchased and that no reservation
      needs, every x up to it, is taken. The invoice is refunded, partially refunded, or in review exactly
      when credits were missing. */
  lemma RefundOfPaidTopup(s: State, i: nat, q: RefundReport, x: int)
    requires Reachable(s) && i < |s.invoices|
    requires s.invoices[i].purchase.CreditPurchase? && s.invoices[i].purchase.readable
    requires s.invoices[i].status == Paid || s.invoices[i].status == PartiallyRefunded
    requires IsProper(s.invoices[i], q) && IsNewReference(s.reversals, q.ref.value)
    ensures var t := Apply(s, Refund(i, q)); var v, w := s.invoices[i], t.invoices[i];
      && |t.reversals| == |s.reversals| + 1
      && var r := t.reversals[|s.reversals|];
        var share := if w.refunded == v.amount then v.purchase.credits
                     else v.purchase.credits * w.refunded / v.amount;
        && 100 * (w.refunded - v.refunded) == q.money.value
        && r.requested == share - RequestedFor(s.reversals, i) && r.accepted
        && r.requested == r.reversed + r.shortfall && 0 <= r.reversed
        && t.wallet.purchased == s.wallet.purchased - r.reversed
        && t.wallet.included == s.wallet.included && t.wallet.reserved == s.wallet.reserved
        && (0 < x ==>
              (x <= r.reversed <==> x <= r.requested && x <= s.wallet.purchased
                                    && s.wallet.reserved <= s.wallet.included + s.wallet.purchased - x))
        && w.status == (if r.shortfall != 0 then ManualReview
                        else if w.refunded == v.amount then Refunded else PartiallyRefunded)
        && (w.refundReview <==> v.refundReview || r.shortfall != 0)
        && w.paidAt == v.paidAt && (r.applied <==> r.shortfall == 0)
  {
    hide HasKey, Booked, Total, RequestedFor, AcceptedFor, ReversePurchased, FindReversal, EffectsFit, VersionsFit;
    ReachableIsSound(s);
    var v := s.invoices[i];
    NewReferenceIsNotFound(s.reversals, q.ref.value);
    assert RefundFits(s, i);
    assert !HasKey(s.wallet.ledger, ReversalKey(q.chargeback, q.ref.value));
    var refunded := v.refunded + q.money.value / 100;
    TargetsGrow(v.purchase.credits, v.refunded, refunded, v.amount);
    var requested := CreditTarget(v.purchase.credits, refunded, v.amount) - RequestedFor(s.reversals, i);
    ReversalOutcome(s.wallet, requested, ReversalKey(q.chargeback, q.ref.value), x);
  }
}
