/** One invoice: payment, cancellation, manual review and refunds (apps/billing/services.py).
    Invoice amounts are in hundredths, credits in units of 0.0001. */
module Invoices {
  import opened Common
  import opened Calendar
  import opened Subscriptions
  import opened Wallet

  datatype InvoiceStatus = Pending | Paid | Failed | PartiallyRefunded | Refunded | ManualReview

  /** What was bought; `readable` says whether the stored snapshot passes its checks. */
  datatype Purchase =
    | TermPurchase(plan: int, billing: Billing, expectedVersion: nat, readable: bool)
    | CreditPurchase(credits: nat, readable: bool)

  datatype Invoice = Invoice(
    purchase: Purchase, amount: nat, currency: nat, paymentId: Option<nat>,
    status: InvoiceStatus, paidAt: Option<int>, refunded: nat, refundReview: bool)

  /** What the provider reports: None stands for a value the code rejects as malformed.
      Money is in units of 0.0001, so that fractions of a hundredth can be seen. */
  datatype Payment = Payment(id: nat, money: Option<int>, currency: Option<nat>)

  predicate WholeHundredths(money: Option<int>) {
    money.Some? && money.value > 0 && money.value % 100 == 0
  }

  /** `_is_unsettled_checkout_manual`. */
  predicate Recoverable(v: Invoice) {
    v.status == ManualReview && v.paidAt.None? && !v.refundReview
  }

  function MarkManual(v: Invoice, refundReview: bool): Invoice {
    v.(status := ManualReview, refundReview := v.refundReview || refundReview)
  }

  predicate Matches(v: Invoice, p: Payment) {
    && v.paymentId == Some(p.id)
    && WholeHundredths(p.money) && p.money.value == v.amount * 100
    && p.currency == Some(v.currency)
  }

  predicate AlreadyPaid(v: Invoice) {
    v.status == Paid || v.status == PartiallyRefunded || v.status == Refunded
  }

  function MarkPaid(v: Invoice, now: int): Invoice {
    v.(status := Paid, paidAt := Some(now))
  }

  /** An invoice with everything a payment can change. */
  datatype Account = Account(invoice: Invoice, subscription: Option<Subscription>, wallet: Wallet)

  /** Facts read from outside while a payment is applied: the date, the clock, the plan's credit limit. */
  datatype Moment = Moment(today: Date, now: int, limit: int)

  /** Activates the paid term and grants its first package under the new version; None when a date or ledger
      error undoes the transaction. */
  function PayTerm(a: Account, m: Moment): Option<Account>
    requires a.invoice.purchase.TermPurchase? && a.subscription.Some?
  {
    var b := a.invoice.purchase;
    match ActivatePaid(a.subscription.value, b.plan, b.billing, m.today)
    case None => None
    case Some(s) =>
      match Grant(a.wallet, Some(m.limit), Some(EndOfDay(s.aiEnd.OrElse(s.end))), TermPackage(s.version))
      case None => None
      case Some(w) => Some(Account(MarkPaid(a.invoice, m.now), Some(s), w))
  }

  /** `handle_payment_success_webhook`: the account afterwards, the answer, and whether the entitlement was given. */
  function PaymentSucceeded(a: Account, p: Payment, m: Moment): (Account, bool, bool) {
    var v := a.invoice;
    if !Matches(v, p) then (a.(invoice := MarkManual(v, false)), false, false)
    else if AlreadyPaid(v) then (a, true, false)
    else if v.status != Pending && !Recoverable(v) then (a, false, false)
    else if v.purchase.CreditPurchase? then
      if !v.purchase.readable || v.purchase.credits == 0 then (a.(invoice := MarkManual(v, false)), false, false)
      else
        (a.(invoice := MarkPaid(v, m.now), wallet := Topup(a.wallet, v.purchase.credits, p.id)), true, true)
    else if a.subscription.None? || !v.purchase.readable
            || a.subscription.value.version != v.purchase.expectedVersion then
      (a.(invoice := MarkManual(v, false)), false, false)
    else
      match PayTerm(a, m)
      case None => (a, false, false)
      case Some(b) => (b, true, true)
  }

  /** A report is answered True for an unpaid invoice exactly when the report matches and the status counts as
      paid without a payment: a refund in manual review leaves such a status behind. */
  lemma AnsweredUnpaidIff(a: Account, p: Payment, m: Moment)
    ensures var (b, answer, given) := PaymentSucceeded(a, p, m);
      && (given ==> answer && b.invoice.paidAt.Some?)
      && (answer && b.invoice.paidAt.None? <==>
            var v := a.invoice;
            v.amount > 0 && v.paymentId == Some(p.id) && p.money == Some(100 * v.amount)
            && p.currency == Some(v.currency) && v.paidAt.None?
            && (v.status == Paid || v.status == PartiallyRefunded || v.status == Refunded))
  {
    hide ActivatePaid, Grant, Topup;
  }

  /** `handle_payment_failed_webhook`. */
  function PaymentFailed(v: Invoice, id: nat): (Invoice, bool) {
    if v.paymentId != Some(id) then (v, false)
    else if v.status == Failed then (v, true)
    else if v.status != Pending && !Recoverable(v) then (v, false)
    else (v.(status := Failed), true)
  }

  // ----- refunds -----

  datatype Reversal = Reversal(
    ref: nat, invoice: nat, paymentId: nat, amount: nat, currency: nat, chargeback: bool,
    applied: bool, accepted: bool, requested: int, reversed: int, shortfall: int)

  datatype RefundReport = RefundReport(
    ref: Option<nat>, paymentId: nat, money: Option<int>, currency: Option<nat>, chargeback: bool)

  function FindReversal(reversals: seq<Reversal>, ref: nat): Option<Reversal> {
    if reversals == [] then None
    else if reversals[|reversals| - 1].ref == ref then Some(reversals[|reversals| - 1])
    else FindReversal(reversals[..|reversals| - 1], ref)
  }

  /** Credits asked back so far for one invoice. */
  function RequestedFor(reversals: seq<Reversal>, invoice: nat): int {
    if reversals == [] then 0
    else
      var r := reversals[|reversals| - 1];
      RequestedFor(reversals[..|reversals| - 1], invoice) + if r.invoice == invoice then r.requested else 0
  }

  function AcceptedFor(reversals: seq<Reversal>, invoice: nat): int {
    if reversals == [] then 0
    else
      var r := reversals[|reversals| - 1];
      AcceptedFor(reversals[..|reversals| - 1], invoice)
      + if r.invoice == invoice && r.accepted then r.amount else 0
  }

  /** Credits that must have been asked back once `refunded` of `amount` is refunded, rounded down. */
  function CreditTarget(credits: nat, refunded: nat, amount: nat): nat {
    if refunded == amount || amount == 0 then credits else credits * refunded / amount
  }

  predicate SameReversal(r: Reversal, i: nat, q: RefundReport) {
    && r.invoice == i && r.paymentId == q.paymentId && r.amount * 100 == q.money.OrElse(0)
    && q.currency == Some(r.currency) && r.chargeback == q.chargeback
  }

  predicate WellFormedReport(v: Invoice, q: RefundReport) {
    q.ref.Some? && v.paymentId == Some(q.paymentId) && WholeHundredths(q.money) && q.currency.Some?
  }

  predicate Refundable(v: Invoice) {
    v.status == Paid || v.status == PartiallyRefunded || v.status == ManualReview
  }

  /** A reversal kept only as a record for manual review. */
  function Record(i: nat, q: RefundReport, accepted: bool): Reversal
    requires q.ref.Some? && WholeHundredths(q.money) && q.currency.Some?
  {
    Reversal(q.ref.value, i, q.paymentId, q.money.value / 100, q.currency.value, q.chargeback,
             false, accepted, 0, 0, 0)
  }

  datatype Refunding = Refunding(invoice: Invoice, wallet: Wallet, reversals: seq<Reversal>)

  /** `handle_reversal_success` for invoice i: the result and whether a reversal was returned. */
  function ReversalSucceeded(s: Refunding, i: nat, q: RefundReport): (Refunding, bool) {
    var v := s.invoice;
    if !WellFormedReport(v, q) then (s, false)
    else if FindReversal(s.reversals, q.ref.value).Some? then
      (s, SameReversal(FindReversal(s.reversals, q.ref.value).value, i, q))
    else if !Refundable(v) || q.currency != Some(v.currency) || q.money.value / 100 > v.amount - v.refunded then
      (s.(invoice := MarkManual(v, true), reversals := s.reversals + [Record(i, q, false)]), true)
    else
      var refunded := v.refunded + q.money.value / 100;
      if !v.purchase.CreditPurchase? || !v.purchase.readable then
        (s.(invoice := MarkManual(v, true).(refunded := refunded),
            reversals := s.reversals + [Record(i, q, true)]), true)
      else
        var requested := Max(0, CreditTarget(v.purchase.credits, refunded, v.amount) - RequestedFor(s.reversals, i));
        var (w, reversed, shortfall) := ReversePurchased(s.wallet, requested, ReversalKey(q.chargeback, q.ref.value));
        var r := Record(i, q, true).(requested := requested, reversed := reversed, shortfall := shortfall,
                                     applied := shortfall == 0);
        var after := if shortfall != 0 then MarkManual(v, true)
                     else if refunded == v.amount then v.(status := Refunded)
                     else v.(status := PartiallyRefunded);
        (Refunding(after.(refunded := refunded), w, s.reversals + [r]), true)
  }

  lemma {:induction false} AppendReversal(reversals: seq<Reversal>, r: Reversal, i: nat, ref: nat)
    ensures RequestedFor(reversals + [r], i) == RequestedFor(reversals, i) + if r.invoice == i then r.requested else 0
    ensures AcceptedFor(reversals + [r], i)
         == AcceptedFor(reversals, i) + if r.invoice == i && r.accepted then r.amount else 0
    ensures FindReversal(reversals + [r], ref) == if r.ref == ref then Some(r) else FindReversal(reversals, ref)
  {
    assert (reversals + [r])[..|reversals|] == reversals;
  }

  /** Targets grow with the refunded part and never exceed the purchase. */
  lemma TargetsGrow(credits: nat, a: nat, b: nat, amount: nat)
    requires a <= b <= amount && amount > 0
    ensures CreditTarget(credits, a, amount) <= CreditTarget(credits, b, amount) <= credits
    ensures CreditTarget(credits, 0, amount) == 0
  {
    QuotientGrows(credits * a, credits * b, amount) by { ProductGrows(credits, a, b); }
    QuotientGrows(credits * b, credits * amount, amount) by { ProductGrows(credits, b, amount); }
    assert credits * amount / amount == credits by { QuotientOfProduct(credits, amount); }
    assert credits * 0 / amount == 0;
  }

  lemma ProductGrows(c: nat, a: nat, b: nat)
    requires a <= b
    ensures c * a <= c * b
  {}

  lemma QuotientGrows(x: nat, y: nat, d: nat)
    requires x <= y && d > 0
    ensures x / d <= y / d
  {
    if x / d > y / d { ProductGrows(d, y / d + 1, x / d); }
  }

  lemma QuotientOfProduct(c: nat, d: nat)
    requires d > 0
    ensures c * d / d == c
  {
    var q := c * d / d;
    if q < c { ProductGrows(d, q + 1, c); }
    if q > c { ProductGrows(d, c + 1, q); }
  }

  // ----- the invoice row in place -----

  class InvoiceRow {
    const purchase: Purchase
    const amount: nat
    const currency: nat
    var paymentId: Option<nat>
    var status: InvoiceStatus
    var paidAt: Option<int>
    var refunded: nat
    var refundReview: bool

    function Value(): Invoice
      reads this
    {
      Invoice(purchase, amount, currency, paymentId, status, paidAt, refunded, refundReview)
    }

    constructor (p: Purchase, a: nat, c: nat)
      ensures Value() == Invoice(p, a, c, None, Pending, None, 0, false)
    {
      purchase, amount, currency := p, a, c;
      paymentId, status, paidAt, refunded, refundReview := None, Pending, None, 0, false;
    }

    method MarkManualReview(review: bool)
      modifies this
      ensures Value() == MarkManual(old(Value()), review)
    {
      status := ManualReview;
      if review {
        refundReview := true;
      }
    }

    /** The checks before anything is given: None means go on, otherwise the answer. */
    method CheckPayment(p: Payment) returns (answer: Option<bool>)
      modifies this
      ensures !Matches(old(Value()), p) ==> answer == Some(false) && Value() == MarkManual(old(Value()), false)
      ensures Matches(old(Value()), p) ==> Value() == old(Value())
      ensures Matches(old(Value()), p) ==>
        answer == (if AlreadyPaid(Value()) then Some(true)
                   else if status != Pending && !Recoverable(Value()) then Some(false) else None)
    {
      if paymentId != Some(p.id) {
        MarkManualReview(false);
        return Some(false);
      }
      if !WholeHundredths(p.money) {
        MarkManualReview(false);
        return Some(false);
      }
      if p.money.value / 100 != amount || p.currency != Some(currency) {
        MarkManualReview(false);
        return Some(false);
      }
      if status == Paid || status == PartiallyRefunded || status == Refunded {
        return Some(true);
      }
      var recovering := status == ManualReview && paidAt.None? && !refundReview;
      if status != Pending && !recovering {
        return Some(false);
      }
      return None;
    }

    /** Gives a top-up's credits or asks for manual review. */
    method CreditPaymentSucceeded(wallet: AIWallet, p: Payment, m: Moment) returns (ok: bool)
      requires purchase.CreditPurchase?
      modifies this, wallet
      ensures var r := PaymentSucceeded(Account(old(Value()), None, old(wallet.Value())), p, m);
              Value() == r.0.invoice && wallet.Value() == r.0.wallet && ok == r.1
    {
      var answer := CheckPayment(p);
      if answer.Some? {
        return answer.value;
      }
      if !purchase.readable || purchase.credits == 0 {
        MarkManualReview(false);
        return false;
      }
      status := Paid;
      paidAt := Some(m.now);
      wallet.TopupPurchased(purchase.credits, p.id);
      return true;
    }

    /** Starts the paid term and grants its first package, or asks for manual review. */
    method TermPaymentSucceeded(subscription: SubscriptionRow, wallet: AIWallet, p: Payment, m: Moment)
      returns (ok: bool)
      requires purchase.TermPurchase?
      modifies this, subscription, wallet
      ensures var r := PaymentSucceeded(
                Account(old(Value()), Some(old(subscription.Value())), old(wallet.Value())), p, m);
              && Value() == r.0.invoice && wallet.Value() == r.0.wallet && ok == r.1
              && Some(subscription.Value()) == r.0.subscription
    {
      hide Grant, ActivatePaid;
      var answer := CheckPayment(p);
      if answer.Some? {
        return answer.value;
      }
      if !purchase.readable || subscription.version != purchase.expectedVersion {
        MarkManualReview(false);
        return false;
      }
      var before := subscription.Value();
      var started := subscription.ActivatePaidTerm(purchase.plan, purchase.billing, m.today);
      if !started {
        return false;
      }
      var periodEnd := EndOfDay(subscription.aiEnd.OrElse(subscription.currentEnd));
      var granted := wallet.GrantIncluded(Some(m.limit), Some(periodEnd), TermPackage(subscription.version));
      if !granted {
        subscription.Restore(before);
        return false;
      }
      status := Paid;
      paidAt := Some(m.now);
      return true;
    }

    method PaymentCanceled(id: nat) returns (ok: bool)
      modifies this
      ensures (Value(), ok) == PaymentFailed(old(Value()), id)
    {
      if paymentId != Some(id) {
        return false;
      }
      if status == Failed {
        return true;
      }
      if status != Pending && !(status == ManualReview && paidAt.None? && !refundReview) {
        return false;
      }
      status := Failed;
      return true;
    }

    /** Takes a refund report; the table of reversals is passed in and returned. */
    method RefundReported(wallet: AIWallet, table: seq<Reversal>, i: nat, q: RefundReport)
      returns (after: seq<Reversal>, found: bool)
      modifies this, wallet
      ensures var r := ReversalSucceeded(Refunding(old(Value()), old(wallet.Value()), table), i, q);
              (Value(), wallet.Value(), after, found) == (r.0.invoice, r.0.wallet, r.0.reversals, r.1)
    {
      after := table;
      if q.ref.None? || paymentId != Some(q.paymentId) || !WholeHundredths(q.money) || q.currency.None? {
        return table, false;
      }
      var existing := FindReversal(table, q.ref.value);
      if existing.Some? {
        return table, SameReversal(existing.value, i, q);
      }
      var reported := q.money.value / 100;
      if status != Paid && status != PartiallyRefunded && status != ManualReview {
        MarkManualReview(true);
        return table + [Record(i, q, false)], true;
      }
      if q.currency != Some(currency) {
        MarkManualReview(true);
        return table + [Record(i, q, false)], true;
      }
      if reported > amount - refunded {
        MarkManualReview(true);
        return table + [Record(i, q, false)], true;
      }
      var total := refunded + reported;
      if !purchase.CreditPurchase? || !purchase.readable {
        refunded := total;
        MarkManualReview(true);
        return table + [Record(i, q, true)], true;
      }
      var target := CreditTarget(purchase.credits, total, amount);
      var requested := Max(0, target - RequestedFor(table, i));
      var reversed, shortfall := wallet.ReverseCredits(requested, ReversalKey(q.chargeback, q.ref.value));
      refunded := total;
      if shortfall != 0 {
        MarkManualReview(true);
      } else {
        status := if total == amount then Refunded else PartiallyRefunded;
      }
      var r := Record(i, q, true).(requested := requested, reversed := reversed, shortfall := shortfall,
                                   applied := shortfall == 0);
      return table + [r], true;
    }
  }
}
