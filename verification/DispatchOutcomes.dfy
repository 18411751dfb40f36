/** What each step of durable dispatch makes of the row, in its fields (apps/core/dispatch.py). */
module DispatchOutcomes {
  import opened Common
  import opened Dispatch
  import opened DispatchProtocol

  // ----- only failed rows are uncertain -----

  lemma StepKeepsOpenCertain(s: State, step: Step)
    requires s.row.status != Failed ==> !s.row.uncertain
    ensures Apply(s, step).row.status != Failed ==> !Apply(s, step).row.uncertain
  {
    hide RetryDelay;
  }

  lemma {:induction false} RunKeepsOpenCertain(s: State, steps: seq<Step>)
    requires s.row.status != Failed ==> !s.row.uncertain
    ensures Run(s, steps).row.status != Failed ==> !Run(s, steps).row.uncertain
    decreases |steps|
  {
    hide Apply;
    if steps != [] {
      StepKeepsOpenCertain(s, steps[0]);
      RunKeepsOpenCertain(Apply(s, steps[0]), steps[1..]);
    }
  }

  lemma OpenRowsAreCertain(s: State)
    requires Reachable(s) && s.row.status != Failed
    ensures !s.row.uncertain
  {
    hide Apply, Run;
    var row, steps :| IsNew(row) && s == Run(Start(row), steps);
    RunKeepsOpenCertain(Start(row), steps);
  }

  // ----- the end of an execution -----

  predicate HoldsRow(s: State, i: nat) {
    i < |s.claims| && s.claims[i].alive && s.row.status == Running && s.row.token == Some(s.claims[i].token)
  }

  /** The row waits for its next publication, the longer the more often it was tried. */
  predicate Retries(before: Row, after: Row, now: int) {
    && after.status == Pending && after.token.None? && after.lease.None? && after.finishedAt.None?
    && !after.uncertain && after.availableAt == now + RetryDelay(before.runAttempts)
    && after.runAttempts == before.runAttempts && after.maxRunAttempts == before.maxRunAttempts
  }

  /** A job that returned has succeeded; one that is not allowed, whose outcome is uncertain or whose attempts
      are used up has failed, uncertain exactly for an uncertain outcome; any other is tried again later. */
  lemma OutcomeOfCurrentClaim(s: State, i: nat, o: Outcome, now: int)
    requires Reachable(s) && HoldsRow(s, i) && CanEnd(s, i, o)
    ensures var r := Apply(s, End(i, o, now)).row;
      var risky := o.Raised? && (o.flaggedUncertain || (s.row.noReplay && !o.safeRetry));
      && (o.Returned? ==> r.status == Succeeded && !r.uncertain && r.lease.None? && r.finishedAt == Some(now))
      && (o.NotAllowed? || risky || (o.Raised? && s.row.runAttempts == s.row.maxRunAttempts) ==>
            r.status == Failed && r.uncertain == risky && r.token.None? && r.lease.None? && r.finishedAt == Some(now))
      && (o.NotRegistered? || (o.Raised? && !risky && s.row.runAttempts < s.row.maxRunAttempts) ==>
            Retries(s.row, r, now))
  {
    hide Run, ClaimsIn, RetryDelay;
    ReachableIsSound(s);
    OpenRowsAreCertain(s);
  }

  /** A row succeeds if and only if the claim that holds it returns. */
  lemma SucceedsIffCurrentClaimReturns(s: State, step: Step)
    requires Reachable(s) && s.row.status != Succeeded
    ensures Apply(s, step).row.status == Succeeded <==>
      step.End? && step.outcome.Returned? && HoldsRow(s, step.claim) && s.claims[step.claim].order.Some?
  {
    hide RetryDelay, GivesUp, Uncertain, Run;
  }

  // ----- publication and delivery -----

  predicate IsDue(r: Row, now: int) {
    || (r.status == Pending && r.availableAt <= now)
    || ((r.status == Publishing || r.status == Published || r.status == Running)
        && r.lease.Some? && r.lease.value <= now)
  }

  /** Nothing is published before its time or taken over before its lease is out. A due row gets a token that
      was never used and 90 seconds; a no-replay row whose worker is overdue is failed as uncertain instead. */
  lemma PublicationOutcome(s: State, now: int)
    requires Reachable(s)
    ensures var t := Apply(s, Publish(now));
      if !IsDue(s.row, now) then t == s
      else if s.row.status == Running && s.row.noReplay then
        t.row.status == Failed && t.row.uncertain && t.row.finishedAt == Some(now)
      else
        && t.row.status == Publishing && t.row.lease == Some(now + 90)
        && t.row.token.Some? && (forall i :: 0 <= i < |s.claims| ==> Some(s.claims[i].token) != t.row.token)
        && t.row.publishAttempts == s.row.publishAttempts + 1 && t.row.runAttempts == s.row.runAttempts
  {
    hide Run, ClaimsIn;
    ReachableIsSound(s);
  }

  /** The answer of the broker moves only the publication that asked: a refusal back to pending, a success to
      120 seconds of waiting for a worker. */
  lemma BrokerOutcome(s: State, token: nat, delivered: bool, now: int)
    requires token in s.publishers
    ensures var r := Apply(s, BrokerFails(token, delivered, now)).row;
      if !s.publishers[token].sent && s.row.status == Publishing && s.row.token == Some(token) then
        r.status == Pending && r.token.None? && r.lease.None?
        && r.availableAt == now + RetryDelay(s.publishers[token].attempt)
      else r == s.row
    ensures var r := Apply(s, ConfirmPublished(token, now)).row;
      if s.publishers[token].sent && s.row.status == Publishing && s.row.token == Some(token) then
        r.status == Published && r.token == Some(token) && r.lease == Some(now + 120)
      else r == s.row
  {
    hide RetryDelay;
  }

  /** A message claims the row only under its current token, before another one has; each claim is an attempt
      with the full execution time, and with no attempt left the row fails, for certain. */
  lemma DeliveryOutcome(s: State, token: nat, now: int)
    requires Reachable(s) && token in s.sent
    ensures var t := Apply(s, Deliver(token, now));
      if (s.row.status != Publishing && s.row.status != Published) || s.row.token != Some(token) then t == s
      else if s.row.runAttempts < s.row.maxRunAttempts then
        && t.row.status == Running && t.row.runAttempts == s.row.runAttempts + 1
        && t.row.lease == Some(now + s.row.timeout) && t.row.token == Some(token)
        && |t.claims| == |s.claims| + 1 && HoldsRow(t, |s.claims|) && IsWaiting(t.claims[|s.claims|])
      else t.row.status == Failed && !t.row.uncertain && t.row.finishedAt == Some(now) && t.claims == s.claims
  {
    hide Run, ClaimsIn, RowShape, ClaimsShape, Owned;
    if s.row.status != Failed { OpenRowsAreCertain(s); }
  }

  /** A revival starts a failed row afresh at the time asked for, and changes no other row. */
  lemma RevivalOutcome(s: State, availableAt: int)
    ensures var r := Apply(s, ReviveRow(availableAt)).row;
      if s.row.status == Failed then
        && r.status == Pending && r.availableAt == availableAt && r.runAttempts == 0 && !r.uncertain
        && r.token.None? && r.lease.None? && r.finishedAt.None?
        && r.maxRunAttempts == s.row.maxRunAttempts && r.noReplay == s.row.noReplay && r.timeout == s.row.timeout
      else r == s.row
  {}

  /** Rows are created due at the time asked for, with 1 to 25 attempts of a minute to two hours. */
  lemma NewRowsAreNew(availableAt: int, attempts: int, timeout: int, noReplay: bool)
    ensures var r := NewRow(availableAt, attempts, timeout, noReplay);
      && IsNew(r) && r.availableAt == availableAt && r.noReplay == noReplay
      && 1 <= r.maxRunAttempts <= 25 && (1 <= attempts <= 25 ==> r.maxRunAttempts == attempts)
      && 60 <= r.timeout <= 7200 && (60 <= timeout <= 7200 ==> r.timeout == timeout)
      && (attempts < 1 ==> r.maxRunAttempts == 1) && (attempts > 25 ==> r.maxRunAttempts == 25)
      && (timeout < 60 ==> r.timeout == 60) && (timeout > 7200 ==> r.timeout == 7200)
  {}

  /** Two seconds after the first attempt, then doubled seven times. */
  lemma RetryDelayDoubles(attempt: int)
    ensures attempt <= 1 ==> RetryDelay(attempt) == 2
    ensures 1 <= attempt < 8 ==> RetryDelay(attempt + 1) == 2 * RetryDelay(attempt)
    ensures attempt >= 8 ==> RetryDelay(attempt) == 256
  {
    RetryDelayBounds(attempt);
    RetryDelayBounds(attempt + 1);
    assert Power2(8) == 256;
  }
}
