/** What one attempt to create a provider payment makes of its invoice, and when it sends
    (apps/billing/services.py). */
module ProviderOutcomes {
  import opened Common
  import opened ProviderPayment

  /** An attempt would have to be left to an operator. */
  predicate NeedsOperator(c: Config, r: Row, now: int, blocked: bool) {
    || blocked || r.intent.providerKey.None? || r.intent.clientKey.None?
    || c.limit <= r.attempts || (r.firstAt.Some? && r.firstAt.value + c.horizon < now)
  }

  predicate IsOpen(r: Row) { r.status == Pending && r.stage != StageManual }

  predicate IsEarly(r: Row, now: int) { r.nextAt.Some? && now < r.nextAt.value }

  /** A request is sent exactly for an open invoice without a payment page that needs no operator, whose
      back-off is over or not respected, and whose snapshot is readable. It carries the frozen terms. */
  lemma SendsIff(c: Config, r: Row, now: int, blocked: bool, patient: bool)
    ensures var (after, answer) := Begin(c, r, now, blocked, patient);
      && (answer.Send? <==>
            IsOpen(r) && r.url.None? && !NeedsOperator(c, r, now, blocked) && !(patient && IsEarly(r, now))
            && r.intent.item.Some?)
      && (answer.Send? ==>
            && r.intent.providerKey == Some(answer.request.key) && r.intent.item == Some(answer.request.item)
            && answer.request.amount == r.intent.amount && answer.request.returnUrl == r.intent.returnUrl
            && answer.attempt == after.attempts == r.attempts + 1
            && after.firstAt == (if r.firstAt.Some? then r.firstAt else Some(now))
            && after.nextAt == Some(now + Backoff(c.base, c.maxDelay, after.attempts))
            && after.stage == ProviderPending && after.status == Pending
            && after.intent == r.intent && after.url == r.url && after.paymentId == r.paymentId)
  {
    hide Backoff;
  }

  /** Otherwise the caller learns why: a known page is shown, a finished or quarantined invoice is refused as it
      is, an early caller waits, and everything else is put into manual review. */
  lemma RefusesBecause(c: Config, r: Row, now: int, blocked: bool, patient: bool)
    ensures var (after, answer) := Begin(c, r, now, blocked, patient);
      && (!IsOpen(r) ==>
            after == r && answer == (if r.status == Final && r.stage != StageManual then Terminal else NeedsReview))
      && (IsOpen(r) && r.url.Some? && !blocked ==> after == r && answer == Url(r.url.value))
      && (IsOpen(r) && (r.url.None? || blocked) && NeedsOperator(c, r, now, blocked) ==>
            answer == NeedsReview && after == r.(status := ManualReview, stage := StageManual, nextAt := None))
      && (IsOpen(r) && r.url.None? && !NeedsOperator(c, r, now, blocked) && patient && IsEarly(r, now) ==>
            after == r && answer == Wait(r.nextAt.value - now))
      && (IsOpen(r) && r.url.None? && !NeedsOperator(c, r, now, blocked) && !(patient && IsEarly(r, now))
          && r.intent.item.None? ==>
            answer == NeedsReview && after.status == ManualReview && after.stage == StageManual && after.nextAt.None?
            && after.attempts == r.attempts + 1)
  {
    hide Backoff;
  }

  /** An answer is stored exactly if its identifier is the invoice's or its first one and nobody else's; a
      collision is quarantined under the identifier the invoice had. An unknown outcome is tried again later,
      unless the page is known by then. */
  lemma AnswerOutcome(c: Config, r: Row, id: nat, url: nat, taken: bool, attempt: nat, now: int)
    ensures var (after, stored) := RecordAnswer(c, r, id, url, taken, now);
      && (stored <==> !taken && (r.paymentId.None? || r.paymentId == Some(id)))
      && (if stored then
            after == r.(paymentId := Some(id), url := Some(url), stage := ProviderCreated, nextAt := Some(now + c.base))
          else
            after.status == ManualReview && after.nextAt.None? && after.paymentId == r.paymentId && after.url == r.url
            && (r.intent.clientKey.Some? ==> after.stage == StageManual))
    ensures RecordFailure(c, r, attempt, now) ==
      if r.url.Some? then r
      else r.(stage := ProviderPending, nextAt := Some(now + Backoff(c.base, c.maxDelay, attempt)))
  {
    hide Backoff;
  }

  /** Saving refuses exactly a changed payment identifier or, once there is a snapshot, changed terms. */
  lemma SavesIff(before: Row, after: Row)
    ensures Save(before, after) ==
      if (before.paymentId.Some? ==> after.paymentId == before.paymentId)
         && (before.intent.snapshot ==> after.intent == before.intent)
      then Some(after) else None
  {}
}
