/** A tenant's invoices, subscription and wallet under webhooks, polls, stale workers and operators
    (apps/billing/services.py, apps/billing/webhook_processing.py, apps/billing/reconciliation.py). */
module Billing {
  import opened Common
  import opened Calendar
  import opened Subscriptions
  import opened Wallet
  import opened Invoices

  /** One activation of a term or crediting of a top-up. */
  datatype Effect = Effect(invoice: nat, payment: Payment)

  /** `seen` holds the subscription row each invoice was created against. */
  datatype State = State(
    invoices: seq<Invoice>, seen: seq<Subscription>, subscription: Subscription,
    wallet: Wallet, reversals: seq<Reversal>, effects: seq<Effect>)

  datatype Step =
    | Checkout(purchase: Purchase, amount: nat, currency: nat)
    | BindPayment(invoice: nat, id: nat)
    | Succeed(invoice: nat, payment: Payment, moment: Moment)
    | Cancel(invoice: nat, id: nat)
    | Review(invoice: nat, refundReview: bool)
    | Refund(invoice: nat, report: RefundReport)
    | ChangeSubscription(mutation: Mutation)
    | MoveWallet(wallet: Wallet)

  /** Wallet traffic of other parts: it books neither top-ups nor reversals, and no package ahead of its version. */
  ghost predicate LeavesPurchasesAlone(before: Wallet, after: Wallet) {
    forall key: Key :: key.TopupKey? || key.ReversalKey? ==> (HasKey(after.ledger, key) <==> HasKey(before.ledger, key))
  }

  predicate HasPackageKey(w: Wallet, version: nat) {
    HasKey(w.ledger, GrantKey(TermPackage(version))) || HasKey(w.ledger, GrantExpireKey(TermPackage(version)))
  }

  /** Packages of paid terms are booked under versions the subscription has reached. */
  ghost predicate PackagesFit(w: Wallet, s: Subscription) {
    forall v: nat :: HasPackageKey(w, v) ==> v <= s.version
  }

  predicate CanCheckout(s: State, b: Purchase, amount: nat) {
    amount > 0 && (b.TermPurchase? ==> b.expectedVersion == s.subscription.version)
  }

  /** Payment identifiers are unique and never change once set. */
  predicate CanBind(s: State, i: nat, id: nat) {
    && i < |s.invoices| && s.invoices[i].paymentId.None?
    && forall j :: 0 <= j < |s.invoices| ==> s.invoices[j].paymentId != Some(id)
  }

  function Put(s: State, i: nat, v: Invoice): State
    requires i < |s.invoices|
  {
    s.(invoices := s.invoices[i := v])
  }

  function Pay(s: State, i: nat, p: Payment, m: Moment): State
    requires i < |s.invoices|
  {
    var (a, answer, given) := PaymentSucceeded(Account(s.invoices[i], Some(s.subscription), s.wallet), p, m);
    s.(invoices := s.invoices[i := a.invoice],
       subscription := a.subscription.OrElse(s.subscription), wallet := a.wallet,
       effects := if given then s.effects + [Effect(i, p)] else s.effects)
  }

  function GiveBack(s: State, i: nat, q: RefundReport): State
    requires i < |s.invoices|
  {
    var r := ReversalSucceeded(Refunding(s.invoices[i], s.wallet, s.reversals), i, q).0;
    s.(invoices := s.invoices[i := r.invoice], wallet := r.wallet, reversals := r.reversals)
  }

  ghost function Apply(s: State, step: Step): State {
    match step
    case Checkout(b, amount, currency) =>
      if CanCheckout(s, b, amount)
      then s.(invoices := s.invoices + [Invoice(b, amount, currency, None, Pending, None, 0, false)],
              seen := s.seen + [s.subscription])
      else s
    case BindPayment(i, id) => if CanBind(s, i, id) then Put(s, i, s.invoices[i].(paymentId := Some(id))) else s
    case Succeed(i, p, m) => if i < |s.invoices| then Pay(s, i, p, m) else s
    case Cancel(i, id) => if i < |s.invoices| then Put(s, i, PaymentFailed(s.invoices[i], id).0) else s
    case Review(i, flag) => if i < |s.invoices| then Put(s, i, MarkManual(s.invoices[i], flag)) else s
    case Refund(i, q) => if i < |s.invoices| then GiveBack(s, i, q) else s
    case ChangeSubscription(mutation) => s.(subscription := Mutate(s.subscription, mutation))
    case MoveWallet(w) =>
      if LeavesPurchasesAlone(s.wallet, w) && PackagesFit(w, s.subscription) then s.(wallet := w) else s
  }

  ghost function Run(s: State, steps: seq<Step>): State
    decreases |steps|
  {
    if steps == [] then s else Run(Apply(s, steps[0]), steps[1..])
  }

  ghost predicate IsNew(s: State) {
    && s.invoices == [] && s.seen == [] && s.reversals == [] && s.effects == []
    && (forall key: Key :: key.TopupKey? || key.ReversalKey? ==> !HasKey(s.wallet.ledger, key))
    && PackagesFit(s.wallet, s.subscription)
  }

  ghost predicate Reachable(s: State) {
    exists s0, steps :: IsNew(s0) && s == Run(s0, steps)
  }

  // ----- invariants -----

  function EffectsOf(effects: seq<Effect>, i: nat): nat {
    if effects == [] then 0
    else EffectsOf(effects[..|effects| - 1], i) + if effects[|effects| - 1].invoice == i then 1 else 0
  }

  lemma AppendEffect(effects: seq<Effect>, e: Effect, i: nat)
    ensures EffectsOf(effects + [e], i) == EffectsOf(effects, i) + if e.invoice == i then 1 else 0
  {
    assert (effects + [e])[..|effects|] == effects;
  }

  /** An invoice is entitled once when it is paid and never otherwise. */
  ghost predicate EffectsFit(s: State) {
    && (forall i: nat :: EffectsOf(s.effects, i) == if i < |s.invoices| && s.invoices[i].paidAt.Some? then 1 else 0)
    && (forall k :: 0 <= k < |s.effects| ==>
         s.effects[k].invoice < |s.invoices| && Matches(s.invoices[s.effects[k].invoice], s.effects[k].payment))
  }

  ghost predicate StatusFits(v: Invoice) {
    && (v.paidAt.Some? ==> v.status != Pending && v.status != Failed)
    && (v.paidAt.Some? ==> v.purchase.readable && v.paymentId.Some?)
    && v.amount > 0
  }

  ghost predicate IsPaidBy(invoices: seq<Invoice>, id: nat) {
    exists i :: 0 <= i < |invoices| && invoices[i].paymentId == Some(id) && invoices[i].paidAt.Some?
  }

  ghost predicate PaymentsFit(s: State) {
    && (forall i :: 0 <= i < |s.invoices| ==> StatusFits(s.invoices[i]))
    && (forall i, j :: 0 <= i < j < |s.invoices| && s.invoices[i].paymentId.Some? ==>
         s.invoices[i].paymentId != s.invoices[j].paymentId)
    && (forall t: nat :: HasKey(s.wallet.ledger, TopupKey(t)) ==> IsPaidBy(s.invoices, t))
  }

  ghost predicate VersionFits(s: State, i: nat)
    requires i < |s.invoices| && |s.seen| == |s.invoices|
  {
    var v := s.invoices[i];
    v.purchase.TermPurchase? ==>
      && s.seen[i].version == v.purchase.expectedVersion <= s.subscription.version
      && (v.purchase.expectedVersion == s.subscription.version ==> s.subscription == s.seen[i] && v.paidAt.None?)
  }

  predicate PaidTerm(v: Invoice) { v.purchase.TermPurchase? && v.paidAt.Some? }

  ghost predicate VersionsFit(s: State) {
    && |s.seen| == |s.invoices|
    && (forall i :: 0 <= i < |s.invoices| ==> VersionFits(s, i))
    && (forall i, j :: 0 <= i < j < |s.invoices| && PaidTerm(s.invoices[i]) && PaidTerm(s.invoices[j]) ==>
          s.invoices[i].purchase.expectedVersion != s.invoices[j].purchase.expectedVersion)
  }

  ghost predicate RefundFits(s: State, i: nat)
    requires i < |s.invoices|
  {
    var v := s.invoices[i];
    && AcceptedFor(s.reversals, i) == v.refunded <= v.amount
    && (v.purchase.CreditPurchase? && v.purchase.readable ==>
          RequestedFor(s.reversals, i) == CreditTarget(v.purchase.credits, v.refunded, v.amount))
  }

  // ----- every step keeps them -----

  lemma {:induction false} NoEffectsBeyond(effects: seq<Effect>, n: nat, i: nat)
    requires forall k :: 0 <= k < |effects| ==> effects[k].invoice < n
    requires i >= n
    ensures EffectsOf(effects, i) == 0
  {
    if effects != [] { NoEffectsBeyond(effects[..|effects| - 1], n, i); }
  }

  /** What a payment can do to its invoice. */
  lemma PaymentOutcome(a: Account, p: Payment, m: Moment)
    ensures var (b, answer, given) := PaymentSucceeded(a, p, m);
            && b.invoice.purchase == a.invoice.purchase && b.invoice.amount == a.invoice.amount
            && b.invoice.currency == a.invoice.currency && b.invoice.paymentId == a.invoice.paymentId
            && b.invoice.refunded == a.invoice.refunded
            && (given ==> a.invoice.paidAt.None? || a.invoice.status == Pending)
            && (given ==> Matches(a.invoice, p) && b.invoice.paidAt.Some? && b.invoice.status == Paid
                          && a.invoice.purchase.readable)
            && (!given ==> b.wallet == a.wallet && b.subscription == a.subscription
                           && (b.invoice == a.invoice || b.invoice == MarkManual(a.invoice, false)))
  {
    hide ActivatePaid, Grant, Topup;
  }

  /** The terms of the sale and the payment stay as they are. */
  predicate SameSale(v: Invoice, w: Invoice) {
    v.purchase == w.purchase && v.amount == w.amount && v.currency == w.currency
    && v.paymentId == w.paymentId && v.paidAt == w.paidAt
  }

  lemma ReversalKeepsSale(s: Refunding, i: nat, q: RefundReport)
    requires StatusFits(s.invoice)
    ensures SameSale(s.invoice, ReversalSucceeded(s, i, q).0.invoice)
    ensures StatusFits(ReversalSucceeded(s, i, q).0.invoice)
  {
    hide CreditTarget, RequestedFor, ReversePurchased, FindReversal;
  }

  predicate IsQuiet(step: Step) { !step.Checkout? && !step.BindPayment? && !step.Succeed? }

  /** Cancellations, reviews, refunds and foreign traffic leave every sale and every payment alone. */
  lemma QuietSteps(s: State, step: Step)
    requires IsQuiet(step) && forall i :: 0 <= i < |s.invoices| ==> StatusFits(s.invoices[i])
    ensures var t := Apply(s, step);
            && |t.invoices| == |s.invoices| && t.effects == s.effects && t.seen == s.seen
            && forall i :: 0 <= i < |s.invoices| ==>
                 SameSale(s.invoices[i], t.invoices[i]) && StatusFits(t.invoices[i])
  {
    hide PaymentSucceeded, ReversalSucceeded, Mutate, HasKey;
    if step.Refund? && step.invoice < |s.invoices| {
      ReversalKeepsSale(Refunding(s.invoices[step.invoice], s.wallet, s.reversals), step.invoice, step.report);
    }
  }

  lemma StepKeepsEffects(s: State, step: Step)
    requires EffectsFit(s) && PaymentsFit(s)
    ensures EffectsFit(Apply(s, step))
  {
    if IsQuiet(step) {
      hide Apply, EffectsOf;
      QuietSteps(s, step);
    } else {
      hide PaymentSucceeded, ReversalSucceeded, Mutate, HasKey, EffectsOf;
      match step
      case Checkout(b, amount, currency) =>
        NoEffectsBeyond(s.effects, |s.invoices|, |s.invoices|);
      case Succeed(i, p, m) =>
        if i < |s.invoices| {
          PaymentOutcome(Account(s.invoices[i], Some(s.subscription), s.wallet), p, m);
          forall j: nat { AppendEffect(s.effects, Effect(i, p), j); }
        }
      case BindPayment(i, id) =>
    }
  }

  lemma PaymentKeys(a: Account, p: Payment, m: Moment, key: Key)
    requires key.TopupKey? || key.ReversalKey?
    ensures var (b, answer, given) := PaymentSucceeded(a, p, m);
            HasKey(b.wallet.ledger, key) ==>
              HasKey(a.wallet.ledger, key) || (given && key.TopupKey? && a.invoice.paymentId == Some(key.t))
  {
    hide ActivatePaid, HasKey, Total, Booked;
  }

  lemma ReversalKeys(s: Refunding, i: nat, q: RefundReport, key: Key)
    requires key.TopupKey? || key.ReversalKey?
    ensures var r := ReversalSucceeded(s, i, q).0;
            HasKey(r.wallet.ledger, key) ==>
              HasKey(s.wallet.ledger, key) || (key.ReversalKey? && FindReversal(r.reversals, key.ref).Some?)
  {
    hide HasKey, Total, Booked, CreditTarget, RequestedFor;
  }

  lemma PaidStaysPaid(before: seq<Invoice>, after: seq<Invoice>, id: nat)
    requires |before| <= |after| && IsPaidBy(before, id)
    requires forall i :: 0 <= i < |before| && before[i].paidAt.Some? ==>
      after[i].paymentId == before[i].paymentId && after[i].paidAt.Some?
    ensures IsPaidBy(after, id)
  {
    var i :| 0 <= i < |before| && before[i].paymentId == Some(id) && before[i].paidAt.Some?;
    assert after[i].paymentId == Some(id);
  }

  /** Top-up keys of the ledger belong to paid invoices, also after a step. */
  lemma TopupKeysAreOwned(s: State, step: Step, t: nat)
    requires PaymentsFit(s) && HasKey(Apply(s, step).wallet.ledger, TopupKey(t))
    ensures HasKey(s.wallet.ledger, TopupKey(t)) || IsPaidBy(Apply(s, step).invoices, t)
  {
    hide PaymentSucceeded, ReversalSucceeded, Mutate, HasKey;
    match step
    case Succeed(i, p, m) =>
      if i < |s.invoices| {
        PaymentOutcome(Account(s.invoices[i], Some(s.subscription), s.wallet), p, m);
        PaymentKeys(Account(s.invoices[i], Some(s.subscription), s.wallet), p, m, TopupKey(t));
        assert Apply(s, step).invoices[i].paymentId == s.invoices[i].paymentId;
      }
    case Refund(i, q) =>
      if i < |s.invoices| { ReversalKeys(Refunding(s.invoices[i], s.wallet, s.reversals), i, q, TopupKey(t)); }
    case _ =>
  }

  lemma StepKeepsSales(s: State, step: Step)
    requires PaymentsFit(s)
    ensures var t := Apply(s, step);
            && |s.invoices| <= |t.invoices|
            && (forall i :: 0 <= i < |t.invoices| ==> StatusFits(t.invoices[i]))
            && (forall i :: 0 <= i < |s.invoices| && s.invoices[i].paidAt.Some? ==>
                  t.invoices[i].paymentId == s.invoices[i].paymentId && t.invoices[i].paidAt.Some?)
            && (forall i, j :: 0 <= i < j < |t.invoices| && t.invoices[i].paymentId.Some? ==>
                  t.invoices[i].paymentId != t.invoices[j].paymentId)
  {
    if IsQuiet(step) {
      hide Apply;
      QuietSteps(s, step);
    } else {
      hide PaymentSucceeded, ReversalSucceeded, Mutate, HasKey;
      if step.Succeed? && step.invoice < |s.invoices| {
        PaymentOutcome(Account(s.invoices[step.invoice], Some(s.subscription), s.wallet), step.payment, step.moment);
      }
    }
  }

  lemma StepKeepsPayments(s: State, step: Step)
    requires PaymentsFit(s)
    ensures PaymentsFit(Apply(s, step))
  {
    hide Apply, HasKey, IsPaidBy;
    StepKeepsSales(s, step);
    var t := Apply(s, step);
    forall id: nat | HasKey(t.wallet.ledger, TopupKey(id)) ensures IsPaidBy(t.invoices, id) {
      TopupKeysAreOwned(s, step, id);
      if IsPaidBy(s.invoices, id) { PaidStaysPaid(s.invoices, t.invoices, id); }
    }
  }

  /** An entitlement of a term needs the version it was sold for, and moves it. */
  lemma TermOutcome(a: Account, p: Payment, m: Moment)
    requires a.subscription.Some?
    ensures var (b, answer, given) := PaymentSucceeded(a, p, m);
            && b.subscription.Some?
            && (given && a.invoice.purchase.TermPurchase? ==>
                  a.subscription.value.version == a.invoice.purchase.expectedVersion
                  && b.subscription.value.version == a.subscription.value.version + 1)
            && (!given || a.invoice.purchase.CreditPurchase? ==> b.subscription == a.subscription)
  {
    hide Grant, Topup, TermEnd, AddMonths, HasKey;
  }

  lemma StepKeepsVersions(s: State, step: Step)
    requires VersionsFit(s) && PaymentsFit(s)
    ensures VersionsFit(Apply(s, step))
  {
    hide PaymentSucceeded, ReversalSucceeded, Mutate, HasKey, StatusFits;
    match step
    case Checkout(b, amount, currency) =>
      var t := Apply(s, step);
      forall j | 0 <= j < |s.invoices| ensures VersionFits(t, j) { assert VersionFits(s, j); }
    case BindPayment(i, id) =>
      if CanBind(s, i, id) {
        var t := Apply(s, step);
        forall j | 0 <= j < |s.invoices| ensures VersionFits(t, j) { assert VersionFits(s, j); }
        forall j | 0 <= j < |s.invoices| ensures PaidTerm(t.invoices[j]) == PaidTerm(s.invoices[j])
          && t.invoices[j].purchase == s.invoices[j].purchase {}
      }
    case Succeed(i, p, m) =>
      if i < |s.invoices| {
        PaymentOutcome(Account(s.invoices[i], Some(s.subscription), s.wallet), p, m);
        TermOutcome(Account(s.invoices[i], Some(s.subscription), s.wallet), p, m);
        var t := Apply(s, step);
        forall j | 0 <= j < |s.invoices| ensures VersionFits(t, j) {
          assert VersionFits(s, i) && VersionFits(s, j);
        }
        forall j, k | 0 <= j < k < |t.invoices| && PaidTerm(t.invoices[j]) && PaidTerm(t.invoices[k])
          ensures t.invoices[j].purchase.expectedVersion != t.invoices[k].purchase.expectedVersion
        {
          assert VersionFits(s, j) && VersionFits(s, k);
        }
      }
    case ChangeSubscription(mutation) =>
      VersionCountsChanges(s.subscription, mutation);
      var t := Apply(s, step);
      forall j | 0 <= j < |s.invoices| ensures VersionFits(t, j) { assert VersionFits(s, j); }
    case _ =>
      QuietSteps(s, step);
      var t := Apply(s, step);
      assert t.subscription == s.subscription;
      forall j | 0 <= j < |s.invoices| ensures VersionFits(t, j) { assert VersionFits(s, j); }
  }

  // ----- packages of paid terms -----

  /** A payment books a package only for the version it moves the subscription to. */
  lemma PaymentPackageKeys(a: Account, p: Payment, m: Moment, v: nat)
    requires a.subscription.Some?
    ensures var (b, answer, given) := PaymentSucceeded(a, p, m);
      && b.subscription.Some? && a.subscription.value.version <= b.subscription.value.version
      && (HasPackageKey(b.wallet, v) ==> HasPackageKey(a.wallet, v) || v == b.subscription.value.version)
  {
    hide HasKey, Total, Booked, TermEnd, AddMonths;
  }

  lemma ReversalPackageKeys(s: Refunding, i: nat, q: RefundReport, v: nat)
    ensures HasPackageKey(ReversalSucceeded(s, i, q).0.wallet, v) ==> HasPackageKey(s.wallet, v)
  {
    hide HasKey, Total, Booked, CreditTarget, RequestedFor;
  }

  lemma StepKeepsPackages(s: State, step: Step)
    requires PackagesFit(s.wallet, s.subscription)
    ensures PackagesFit(Apply(s, step).wallet, Apply(s, step).subscription)
  {
    hide PaymentSucceeded, ReversalSucceeded, Mutate, HasPackageKey;
    var t := Apply(s, step);
    forall v: nat | HasPackageKey(t.wallet, v) ensures v <= t.subscription.version {
      match step
      case Succeed(i, p, m) =>
        if i < |s.invoices| { PaymentPackageKeys(Account(s.invoices[i], Some(s.subscription), s.wallet), p, m, v); }
      case Refund(i, q) =>
        if i < |s.invoices| { ReversalPackageKeys(Refunding(s.invoices[i], s.wallet, s.reversals), i, q, v); }
      case ChangeSubscription(mutation) => VersionCountsChanges(s.subscription, mutation);
      case _ =>
    }
  }

  // ----- refunds -----

  lemma {:induction false} NoReversalsBeyond(reversals: seq<Reversal>, n: nat, i: nat)
    requires forall k :: 0 <= k < |reversals| ==> reversals[k].invoice < n
    requires i >= n
    ensures RequestedFor(reversals, i) == AcceptedFor(reversals, i) == 0
  {
    if reversals != [] { NoReversalsBeyond(reversals[..|reversals| - 1], n, i); }
  }

  /** One refund report: what it adds to the sums of its invoice and to the ledger. */
  lemma RefundOutcome(s: Refunding, i: nat, q: RefundReport)
    requires s.invoice.amount > 0 && s.invoice.refunded <= s.invoice.amount
    requires AcceptedFor(s.reversals, i) == s.invoice.refunded
    requires s.invoice.purchase.CreditPurchase? && s.invoice.purchase.readable ==>
      RequestedFor(s.reversals, i) == CreditTarget(s.invoice.purchase.credits, s.invoice.refunded, s.invoice.amount)
    requires forall chargeback, ref: nat :: HasKey(s.wallet.ledger, ReversalKey(chargeback, ref)) ==>
      FindReversal(s.reversals, ref).Some?
    ensures var r := ReversalSucceeded(s, i, q).0; var v := r.invoice;
            && AcceptedFor(r.reversals, i) == v.refunded <= v.amount
            && (v.purchase.CreditPurchase? && v.purchase.readable ==>
                  RequestedFor(r.reversals, i) == CreditTarget(v.purchase.credits, v.refunded, v.amount))
            && (r.reversals == s.reversals
                || exists x: Reversal :: r.reversals == s.reversals + [x] && x.invoice == i
                     && 0 <= x.requested == x.reversed + x.shortfall)
  {
    hide CreditTarget, RequestedFor, AcceptedFor, HasKey, Total, Booked;
    var v := s.invoice;
    var r := ReversalSucceeded(s, i, q).0;
    if r.reversals != s.reversals {
      var x := r.reversals[|s.reversals|];
      assert r.reversals == s.reversals + [x];
      AppendReversal(s.reversals, x, i, 0);
      if x.accepted && v.purchase.CreditPurchase? && v.purchase.readable {
        TargetsGrow(v.purchase.credits, v.refunded, r.invoice.refunded, v.amount);
      }
    }
  }

  ghost predicate ReversalsFit(s: State) {
    && (forall k :: 0 <= k < |s.reversals| ==>
         s.reversals[k].invoice < |s.invoices|
         && 0 <= s.reversals[k].requested == s.reversals[k].reversed + s.reversals[k].shortfall)
    && (forall chargeback, ref: nat :: HasKey(s.wallet.ledger, ReversalKey(chargeback, ref)) ==>
         FindReversal(s.reversals, ref).Some?)
  }

  lemma ReversalKeysAreOwned(s: State, step: Step, chargeback: bool, ref: nat)
    requires ReversalsFit(s) && HasKey(Apply(s, step).wallet.ledger, ReversalKey(chargeback, ref))
    ensures FindReversal(Apply(s, step).reversals, ref).Some?
  {
    hide PaymentSucceeded, Mutate, HasKey, CreditTarget, RequestedFor, ReversePurchased;
    match step
    case Succeed(i, p, m) =>
      if i < |s.invoices| {
        PaymentKeys(Account(s.invoices[i], Some(s.subscription), s.wallet), p, m, ReversalKey(chargeback, ref));
      }
    case Refund(i, q) =>
      if i < |s.invoices| {
        var r := Refunding(s.invoices[i], s.wallet, s.reversals);
        ReversalKeys(r, i, q, ReversalKey(chargeback, ref));
        if FindReversal(s.reversals, ref).Some? { FoundStaysFound(r, i, q, ref); }
      }
    case _ =>
  }

  lemma FoundStaysFound(s: Refunding, i: nat, q: RefundReport, ref: nat)
    requires FindReversal(s.reversals, ref).Some?
    ensures FindReversal(ReversalSucceeded(s, i, q).0.reversals, ref).Some?
  {
    hide CreditTarget, RequestedFor, ReversePurchased;
    var r := ReversalSucceeded(s, i, q).0.reversals;
    if r != s.reversals {
      assert r == s.reversals + [r[|s.reversals|]];
      AppendReversal(s.reversals, r[|s.reversals|], i, ref);
    }
  }

  lemma StepKeepsReversals(s: State, step: Step)
    requires ReversalsFit(s) && RefundSumsFit(s)
    ensures ReversalsFit(Apply(s, step))
  {
    hide HasKey, PaymentSucceeded, ReversalSucceeded, Mutate, FindReversal;
    forall chargeback, ref: nat | HasKey(Apply(s, step).wallet.ledger, ReversalKey(chargeback, ref))
      ensures FindReversal(Apply(s, step).reversals, ref).Some?
    {
      ReversalKeysAreOwned(s, step, chargeback, ref);
    }
    if step.Refund? && step.invoice < |s.invoices| {
      assert RefundFits(s, step.invoice);
      RefundOutcome(Refunding(s.invoices[step.invoice], s.wallet, s.reversals), step.invoice, step.report);
    }
  }

  ghost predicate RefundSumsFit(s: State) {
    forall i :: 0 <= i < |s.invoices| ==> s.invoices[i].amount > 0 && RefundFits(s, i)
  }

  lemma OthersKeepSums(s: State, i: nat, q: RefundReport, j: nat)
    requires i < |s.invoices| && i != j
    ensures RequestedFor(GiveBack(s, i, q).reversals, j) == RequestedFor(s.reversals, j)
    ensures AcceptedFor(GiveBack(s, i, q).reversals, j) == AcceptedFor(s.reversals, j)
  {
    hide CreditTarget, RequestedFor, AcceptedFor, ReversePurchased, FindReversal;
    var r := GiveBack(s, i, q).reversals;
    if r != s.reversals {
      assert r == s.reversals + [r[|s.reversals|]];
      AppendReversal(s.reversals, r[|s.reversals|], j, 0);
    }
  }

  lemma StepKeepsSums(s: State, step: Step)
    requires ReversalsFit(s) && RefundSumsFit(s)
    ensures RefundSumsFit(Apply(s, step))
  {
    hide HasKey, PaymentSucceeded, ReversalSucceeded, Mutate, FindReversal, CreditTarget, RequestedFor, AcceptedFor;
    match step
    case Checkout(b, amount, currency) =>
      NoReversalsBeyond(s.reversals, |s.invoices|, |s.invoices|);
      if CanCheckout(s, b, amount) && b.CreditPurchase? { TargetsGrow(b.credits, 0, 0, amount); }
    case Succeed(i, p, m) =>
      if i < |s.invoices| { PaymentOutcome(Account(s.invoices[i], Some(s.subscription), s.wallet), p, m); }
      assert forall j :: 0 <= j < |s.invoices| ==> RefundFits(s, j);
    case Refund(i, q) =>
      if i < |s.invoices| {
        var r := Refunding(s.invoices[i], s.wallet, s.reversals);
        assert RefundFits(s, i);
        RefundOutcome(r, i, q);
        RefundKeepsTerms(r, i, q);
        forall j | 0 <= j < |s.invoices| && j != i ensures RefundFits(Apply(s, step), j) {
          OthersKeepSums(s, i, q, j);
          assert RefundFits(s, j);
        }
      }
    case _ =>
      assert forall j :: 0 <= j < |s.invoices| ==> RefundFits(s, j);
  }

  lemma RefundKeepsTerms(s: Refunding, i: nat, q: RefundReport)
    ensures ReversalSucceeded(s, i, q).0.invoice.amount == s.invoice.amount
  {
    hide CreditTarget, RequestedFor, ReversePurchased, FindReversal;
  }

  // ----- what holds in every run -----

  ghost predicate Inv(s: State) {
    && EffectsFit(s) && PaymentsFit(s) && VersionsFit(s) && ReversalsFit(s) && RefundSumsFit(s)
    && PackagesFit(s.wallet, s.subscription)
  }

  lemma StepKeepsInv(s: State, step: Step)
    requires Inv(s)
    ensures Inv(Apply(s, step))
  {
    hide Apply, EffectsFit, PaymentsFit, VersionsFit, ReversalsFit, RefundSumsFit, PackagesFit;
    StepKeepsEffects(s, step);
    StepKeepsPayments(s, step);
    StepKeepsVersions(s, step);
    StepKeepsReversals(s, step);
    StepKeepsSums(s, step);
    StepKeepsPackages(s, step);
  }

  lemma {:induction false} RunKeepsInv(s: State, steps: seq<Step>)
    requires Inv(s)
    ensures Inv(Run(s, steps))
    decreases |steps|
  {
    hide Apply, Inv;
    if steps != [] {
      StepKeepsInv(s, steps[0]);
      RunKeepsInv(Apply(s, steps[0]), steps[1..]);
    }
  }

  lemma ReachableIsSound(s: State)
    requires Reachable(s)
    ensures Inv(s)
  {
    hide Apply;
    var s0, steps :| IsNew(s0) && s == Run(s0, steps);
    RunKeepsInv(s0, steps);
  }

  /** An invoice's entitlement was given exactly when it is paid, at most once, and for its own payment,
      amount and currency. */
  lemma EntitledOnceWhenPaid(s: State, i: nat, k: nat)
    requires Reachable(s) && i < |s.invoices|
    ensures EffectsOf(s.effects, i) == if s.invoices[i].paidAt.Some? then 1 else 0
    ensures k < |s.effects| && s.effects[k].invoice == i ==>
      var v, p := s.invoices[i], s.effects[k].payment;
      v.paymentId == Some(p.id) && p.money == Some(100 * v.amount) && p.currency == Some(v.currency)
  {
    hide PaymentsFit, VersionsFit, ReversalsFit, RefundSumsFit, EffectsOf;
    ReachableIsSound(s);
  }

  /** A step gives an entitlement exactly when it sets the payment time of an invoice that had none;
      the time of a paid invoice is never taken back. */
  lemma PaidAtMarksEntitlement(s: State, step: Step, i: nat)
    requires Reachable(s) && i < |s.invoices|
    ensures var t := Apply(s, step);
            && i < |t.invoices|
            && (s.invoices[i].paidAt.Some? ==> t.invoices[i].paidAt.Some?)
            && ((EffectsOf(t.effects, i) == EffectsOf(s.effects, i) + 1)
                <==> (s.invoices[i].paidAt.None? && t.invoices[i].paidAt.Some?))
  {
    hide Apply, ReversalsFit, RefundSumsFit, VersionsFit, EffectsOf, HasKey;
    ReachableIsSound(s);
    StepKeepsInv(s, step);
    StepKeepsSales(s, step);
  }

  /** A success report answered True belongs to an entitled invoice, except exactly when it matches an unpaid
      one whose status counts as paid. */
  lemma AnsweredIsEntitledIff(s: State, i: nat, p: Payment, m: Moment)
    requires Reachable(s) && i < |s.invoices|
    ensures var v := s.invoices[i];
      var answer := PaymentSucceeded(Account(v, Some(s.subscription), s.wallet), p, m).1;
      (answer && EffectsOf(Apply(s, Succeed(i, p, m)).effects, i) == 0) <==>
        (v.paymentId == Some(p.id) && p.money == Some(100 * v.amount) && p.currency == Some(v.currency)
         && (v.status == Paid || v.status == PartiallyRefunded || v.status == Refunded) && v.paidAt.None?)
  {
    hide PaymentSucceeded, EffectsOf, VersionsFit, ReversalsFit, RefundSumsFit, PackagesFit, HasKey;
    ReachableIsSound(s);
    assert StatusFits(s.invoices[i]);
    StepKeepsEffects(s, Succeed(i, p, m));
    AnsweredUnpaidIff(Account(s.invoices[i], Some(s.subscription), s.wallet), p, m);
  }

  /** Half of an unpaid top-up in manual review is refunded. */
  function UnpaidRefundStates(): seq<State> {
    var day := Date(2024, 1, 1);
    var before := State([], [], Subscription(Trial, 0, Monthly, day, day, None, None, 0), Wallet(0, 0, 9, 0, None, []),
                        [], []);
    var v := Invoice(CreditPurchase(10, true), 2, 0, None, Pending, None, 0, false);
    var one := before.(invoices := [v], seen := [before.subscription]);
    var two := one.(invoices := [v.(paymentId := Some(7))]);
    var three := one.(invoices := [v.(paymentId := Some(7), status := ManualReview)]);
    var refunded := v.(paymentId := Some(7), status := PartiallyRefunded, refunded := 1);
    var key := ReversalKey(false, 0);
    [before, one, two, three,
     three.(invoices := [refunded], wallet := Wallet(0, 0, 4, 0, None, [Entry(key, PurchasedColumn, -5)]),
            reversals := [Reversal(0, 0, 7, 1, 0, false, true, true, 5, 5, 0)])]
  }

  function UnpaidRefundSteps(): seq<Step> {
    [Checkout(CreditPurchase(10, true), 2, 0), BindPayment(0, 7), Review(0, false),
     Refund(0, RefundReport(Some(0), 7, Some(100), Some(0), false))]
  }

  lemma UnpaidRefundBegins(k: nat)
    requires k < 3
    ensures UnpaidRefundStates()[k + 1] == Apply(UnpaidRefundStates()[k], UnpaidRefundSteps()[k])
  {
    hide PaymentSucceeded, ReversalSucceeded, Mutate, HasKey, LeavesPurchasesAlone, PackagesFit;
  }

  /** A first refund of an unpaid top-up that takes back the credits it asks for. */
  lemma FirstRefund(s: Refunding, q: RefundReport, credits: nat, requested: int)
    requires s.reversals == [] && s.wallet.ledger == [] && WellFormedReport(s.invoice, q) && Refundable(s.invoice)
    requires q.currency == Some(s.invoice.currency) && s.invoice.refunded == 0
    requires q.money.value / 100 < s.invoice.amount && s.invoice.purchase == CreditPurchase(credits, true)
    requires requested == CreditTarget(credits, q.money.value / 100, s.invoice.amount) <= Reversible(s.wallet)
    ensures var key := ReversalKey(q.chargeback, q.ref.value);
      ReversalSucceeded(s, 0, q).0 == Refunding(
        s.invoice.(status := PartiallyRefunded, refunded := q.money.value / 100),
        s.wallet.(purchased := s.wallet.purchased - requested, ledger := [Entry(key, PurchasedColumn, -requested)]),
        [Record(0, q, true).(requested := requested, reversed := requested, applied := true)])
  {
    hide CreditTarget;
    assert FindReversal(s.reversals, q.ref.value) == None && RequestedFor(s.reversals, 0) == 0;
    assert !HasKey(s.wallet.ledger, ReversalKey(q.chargeback, q.ref.value));
  }

  lemma UnpaidRefundEnds()
    ensures UnpaidRefundStates()[4] == Apply(UnpaidRefundStates()[3], UnpaidRefundSteps()[3])
  {
    hide PaymentSucceeded, ReversalSucceeded, Mutate, HasKey, LeavesPurchasesAlone, PackagesFit;
    var s, q := UnpaidRefundStates()[3], UnpaidRefundSteps()[3].report;
    FirstRefund(Refunding(s.invoices[0], s.wallet, s.reversals), q, 10, 5);
  }

  lemma {:induction false} StatesOfRun(s: State, steps: seq<Step>, states: seq<State>)
    requires |states| == |steps| + 1 && states[0] == s
    requires forall k :: 0 <= k < |steps| ==> states[k + 1] == Apply(states[k], steps[k])
    ensures Run(s, steps) == states[|steps|]
    decreases |steps|
  {
    hide Apply;
    if steps != [] { StatesOfRun(states[1], steps[1..], states[1..]); }
  }

  /** Such an invoice is reachable: its payer is answered True, holds an unrefunded half and gets no credits. */
  lemma UnpaidRefundIsAnsweredTrue(m: Moment)
    ensures exists s: State, p: Payment ::
      && Reachable(s) && |s.invoices| == 1 && s.invoices[0].refunded < s.invoices[0].amount
      && PaymentSucceeded(Account(s.invoices[0], Some(s.subscription), s.wallet), p, m).1
      && EffectsOf(Apply(s, Succeed(0, p, m)).effects, 0) == 0
  {
    hide Apply, PaymentSucceeded;
    var states := UnpaidRefundStates();
    forall k: nat | k < 4 ensures states[k + 1] == Apply(states[k], UnpaidRefundSteps()[k]) {
      if k < 3 { UnpaidRefundBegins(k); } else { UnpaidRefundEnds(); }
    }
    StatesOfRun(states[0], UnpaidRefundSteps(), states);
    var s, p := states[4], Payment(7, Some(200), Some(0));
    assert IsNew(states[0]) && Reachable(s);
    AnsweredIsEntitledIff(s, 0, p, m);
  }

  /** Paying a top-up credits the purchased balance with exactly its credits: the ledger key is free. */
  lemma PaidTopupIsCredited(s: State, i: nat, p: Payment, m: Moment)
    requires Reachable(s) && i < |s.invoices| && s.invoices[i].purchase.CreditPurchase?
    ensures var t := Apply(s, Succeed(i, p, m));
            t.wallet.purchased == s.wallet.purchased
              + (if s.invoices[i].paidAt.None? && t.invoices[i].paidAt.Some? then s.invoices[i].purchase.credits else 0)
  {
    hide EffectsFit, VersionsFit, ReversalsFit, RefundSumsFit, HasKey, Total, Booked, IsPaidBy;
    ReachableIsSound(s);
    if s.invoices[i].paidAt.None? && s.invoices[i].paymentId.Some? {
      UnpaidKeyIsFree(s, i, s.invoices[i].paymentId.value);
    }
  }

  lemma UnpaidKeyIsFree(s: State, i: nat, id: nat)
    requires PaymentsFit(s) && i < |s.invoices|
    requires s.invoices[i].paymentId == Some(id) && s.invoices[i].paidAt.None?
    ensures !HasKey(s.wallet.ledger, TopupKey(id))
  {
    hide HasKey, StatusFits;
    assert forall j :: 0 <= j < |s.invoices| && s.invoices[j].paymentId == Some(id) ==> j == i;
    assert !IsPaidBy(s.invoices, id);
  }

  /** The ledger never refuses the package of a paid term: only a date that cannot be built stops a payment. */
  lemma LedgerNeverRefusesTerm(a: Account, m: Moment)
    requires a.invoice.purchase.TermPurchase? && a.subscription.Some? && PackagesFit(a.wallet, a.subscription.value)
    ensures var b := a.invoice.purchase;
      PayTerm(a, m).Some? <==> ActivatePaid(a.subscription.value, b.plan, b.billing, m.today).Some?
  {
    hide HasKey, Total, Booked, TermEnd, AddMonths;
    assert !HasPackageKey(a.wallet, a.subscription.value.version + 1);
  }

  /** Paying a term books its first package, once, under a key that was free, and touches no other balance;
      a payment report that pays nothing leaves the wallet alone. */
  lemma PaidTermIsGranted(s: State, i: nat, p: Payment, m: Moment)
    requires Reachable(s) && i < |s.invoices| && s.invoices[i].purchase.TermPurchase?
    ensures var t := Apply(s, Succeed(i, p, m));
      if s.invoices[i].paidAt.None? && t.invoices[i].paidAt.Some? then
        && !HasKey(s.wallet.ledger, GrantKey(TermPackage(t.subscription.version)))
        && HasKey(t.wallet.ledger, GrantKey(TermPackage(t.subscription.version)))
        && t.wallet.included == t.wallet.limit == Max(0, m.limit)
        && t.subscription.aiEnd.Some? && t.wallet.expiresAt == Some(EndOfDay(t.subscription.aiEnd.value))
        && t.wallet.purchased == s.wallet.purchased && t.wallet.reserved == s.wallet.reserved
      else t.wallet == s.wallet
  {
    hide EffectsFit, VersionsFit, ReversalsFit, RefundSumsFit, HasKey, Total, Booked, TermEnd, AddMonths;
    ReachableIsSound(s);
    assert !HasPackageKey(s.wallet, s.subscription.version + 1);
    assert StatusFits(s.invoices[i]);
  }

  /** A term is activated only while the subscription is, field by field, what it was at checkout. */
  lemma TermNeedsUnchangedSubscription(s: State, i: nat, p: Payment, m: Moment)
    requires Reachable(s) && i < |s.invoices| && s.invoices[i].purchase.TermPurchase?
    requires Apply(s, Succeed(i, p, m)).effects != s.effects
    ensures |s.seen| == |s.invoices| && s.subscription == s.seen[i]
    ensures Apply(s, Succeed(i, p, m)).subscription.version == s.subscription.version + 1
  {
    hide EffectsFit, PaymentsFit, ReversalsFit, RefundSumsFit, PaymentSucceeded;
    ReachableIsSound(s);
    TermOutcome(Account(s.invoices[i], Some(s.subscription), s.wallet), p, m);
    assert VersionFits(s, i);
  }

  /** Of all invoices sold for one version at most one is ever paid. */
  lemma OneWinnerPerVersion(s: State, i: nat, j: nat)
    requires Reachable(s) && i < j < |s.invoices| && PaidTerm(s.invoices[i]) && PaidTerm(s.invoices[j])
    ensures s.invoices[i].purchase.expectedVersion != s.invoices[j].purchase.expectedVersion
  {
    hide EffectsFit, PaymentsFit, ReversalsFit, RefundSumsFit;
    ReachableIsSound(s);
  }

  /** Refunds of a paid top-up telescope: the refunded amount is the sum of the accepted reports and at most
      the price, the credits asked back are its exact share rounded down, all of them at a full refund,
      and what is asked back is what was taken back plus the recorded shortfall. */
  lemma RefundsTelescope(s: State, i: nat, k: nat)
    requires Reachable(s) && i < |s.invoices|
    requires s.invoices[i].purchase.CreditPurchase? && s.invoices[i].paidAt.Some?
    ensures var v := s.invoices[i];
            && v.refunded == AcceptedFor(s.reversals, i) <= v.amount
            && RequestedFor(s.reversals, i) ==
                 (if v.refunded == v.amount then v.purchase.credits else v.purchase.credits * v.refunded / v.amount)
    ensures k < |s.reversals| ==> s.reversals[k].requested == s.reversals[k].reversed + s.reversals[k].shortfall
  {
    hide EffectsFit, VersionsFit, AcceptedFor, RequestedFor, HasKey, IsPaidBy, FindReversal;
    ReachableIsSound(s);
    assert RefundFits(s, i) && StatusFits(s.invoices[i]);
  }

  /** A report repeated, in whatever words, changes nothing. */
  lemma RepeatedReportsChangeNothing(s: Refunding, i: nat, q: RefundReport)
    requires q.ref.Some? && FindReversal(s.reversals, q.ref.value).Some?
    ensures ReversalSucceeded(s, i, q).0 == s
  {}
}
