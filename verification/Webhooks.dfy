/** Claiming and deciding one webhook event: direct deliveries, the reconciler and workers that come too late
    (apps/billing/webhook_processing.py, apps/billing/reconciliation.py). */
module Webhooks {
  import opened Common
  import L = Leases

  datatype Decision = Received | Error | Applied | Ignored | Rejected | ManualReview

  predicate IsFinal(d: Decision) { d != Received && d != Error }

  datatype Row = Row(
    decision: Decision, token: Option<nat>, startedAt: Option<int>, processedAt: Option<int>,
    attempts: nat, nextAt: Option<int>, deliveries: nat)

  datatype Config = Config(timeout: nat, maxAttempts: nat, base: nat, maxDelay: nat)

  datatype ClaimAnswer = Final | Busy | NotDue | Exhausted | Claimed

  const NEW_ROW := Row(Received, None, None, None, 0, None, 1)

  predicate IsBusy(c: Config, r: Row, now: int) {
    r.token.Some? && r.startedAt.Some? && r.startedAt.value > now - c.timeout
  }

  /** `claim_webhook_event` on the stored row, or on a new one. */
  function ClaimDelivery(c: Config, stored: Option<Row>, now: int, token: nat): (Row, ClaimAnswer) {
    var r := if stored.None? then NEW_ROW else stored.value.(deliveries := stored.value.deliveries + 1);
    if IsFinal(r.decision) then (r, Final)
    else if IsBusy(c, r, now) then (r, Busy)
    else (r.(decision := Received, token := Some(token), startedAt := Some(now), processedAt := None), Claimed)
  }

  /** `claim_webhook_event_for_reconciliation`. */
  function ClaimReconciliation(c: Config, r: Row, now: int, force: bool, token: nat): (Row, ClaimAnswer) {
    if IsFinal(r.decision) then (r, Final)
    else if IsBusy(c, r, now) then (r, Busy)
    else if !force && r.nextAt.Some? && r.nextAt.value > now then (r, NotDue)
    else if r.attempts >= c.maxAttempts then (r, Exhausted)
    else
      (r.(attempts := r.attempts + 1, decision := Received, token := Some(token), startedAt := Some(now),
          processedAt := None), Claimed)
  }

  /** `finalize_webhook_event`; the caller learns the decision that stands. */
  function Finalize(c: Config, r: Row, token: nat, d: Decision, now: int): (Row, Decision) {
    if IsFinal(r.decision) || r.token != Some(token) then (r, r.decision)
    else
      (r.(decision := d, token := None, startedAt := None, processedAt := Some(now),
          nextAt := if d == Error then Some(now + Backoff(c.base, c.maxDelay, Max(1, r.attempts))) else None), d)
  }

  /** The event's part of `_finalize_exhausted_event`: false when somebody else was faster. */
  function FinalizeExhausted(c: Config, r: Row, now: int): (Row, bool) {
    if IsFinal(r.decision) || r.attempts < c.maxAttempts || IsBusy(c, r, now) then (r, false)
    else
      (r.(decision := ManualReview, token := None, startedAt := None, nextAt := None, processedAt := Some(now)), true)
  }

  // ----- interleavings -----

  /** `done[t]` says that worker t has asked for its decision. `final` lists the decisions that were made. */
  datatype State = State(row: Option<Row>, done: seq<bool>, final: seq<Decision>)

  datatype Step =
    | Deliver(now: int)
    | Reconcile(now: int, force: bool)
    | Finish(worker: nat, decision: Decision, now: int)
    | SweepExhausted(now: int)

  function Decided(before: Option<Row>, after: Row, final: seq<Decision>): seq<Decision> {
    if (before.None? || !IsFinal(before.value.decision)) && IsFinal(after.decision) then final + [after.decision]
    else final
  }

  /** A claimed row gets a new worker; every step writes down a final decision it makes. */
  function Write(s: State, r: Row, claimed: bool): State {
    State(Some(r), if claimed then s.done + [false] else s.done, Decided(s.row, r, s.final))
  }

  predicate CanFinish(s: State, t: nat, d: Decision) {
    s.row.Some? && t < |s.done| && !s.done[t] && d != Received
  }

  function Apply(c: Config, s: State, step: Step): State {
    match step
    case Deliver(now) =>
      var (r, answer) := ClaimDelivery(c, s.row, now, |s.done|);
      Write(s, r, answer == Claimed)
    case Reconcile(now, force) =>
      if s.row.None? then s
      else
        var (r, answer) := ClaimReconciliation(c, s.row.value, now, force, |s.done|);
        Write(s, r, answer == Claimed)
    case Finish(t, d, now) =>
      if !CanFinish(s, t, d) then s
      else Write(s.(done := s.done[t := true]), Finalize(c, s.row.value, t, d, now).0, false)
    case SweepExhausted(now) =>
      if s.row.None? then s else Write(s, FinalizeExhausted(c, s.row.value, now).0, false)
  }

  function Run(c: Config, s: State, steps: seq<Step>): State
    decreases |steps|
  {
    if steps == [] then s else Run(c, Apply(c, s, steps[0]), steps[1..])
  }

  ghost predicate Reachable(c: Config, s: State) {
    exists steps :: s == Run(c, State(None, [], []), steps)
  }

  // ----- the event is a lease -----

  function AsLease(s: State): L.Lease {
    match s.row
    case None => L.Lease(None, false, |s.done|)
    case Some(r) => L.Lease(r.token, IsFinal(r.decision), |s.done|)
  }

  function ActOf(c: Config, s: State, step: Step): L.Act {
    match step
    case Deliver(now) => if ClaimDelivery(c, s.row, now, 0).1 == Claimed then L.Take else L.Idle
    case Reconcile(now, force) =>
      if s.row.Some? && ClaimReconciliation(c, s.row.value, now, force, 0).1 == Claimed then L.Take else L.Idle
    case Finish(t, d, _) => if !CanFinish(s, t, d) then L.Idle else if IsFinal(d) then L.Close(t) else L.Yield(t)
    case SweepExhausted(now) => if s.row.Some? && FinalizeExhausted(c, s.row.value, now).1 then L.Sweep else L.Idle
  }

  ghost predicate Inv(c: Config, s: State) {
    && L.Valid(AsLease(s))
    && |s.final| <= 1
    && (s.row.None? ==> s.done == [] && s.final == [])
    && (s.row.Some? ==>
          var r := s.row.value;
          && s.final == (if IsFinal(r.decision) then [r.decision] else [])
          && r.attempts <= c.maxAttempts && r.attempts <= |s.done|
          && (r.token.Some? ==> r.decision == Received && r.startedAt.Some? && !s.done[r.token.value])
          && (r.decision == Received ==> r.token.Some?))
  }

  lemma StepsAreLeaseSteps(c: Config, s: State, step: Step)
    requires Inv(c, s)
    ensures AsLease(Apply(c, s, step)) == L.Apply(AsLease(s), ActOf(c, s, step))
  {
    hide Backoff;
  }

  function ActsOf(c: Config, s: State, steps: seq<Step>): seq<L.Act>
    decreases |steps|
  {
    if steps == [] then [] else [ActOf(c, s, steps[0])] + ActsOf(c, Apply(c, s, steps[0]), steps[1..])
  }

  lemma StepKeepsInv(c: Config, s: State, step: Step)
    requires Inv(c, s)
    ensures Inv(c, Apply(c, s, step))
  {
    hide Backoff;
  }

  lemma {:induction false} RunsAreLeaseRuns(c: Config, s: State, steps: seq<Step>)
    requires Inv(c, s)
    ensures Inv(c, Run(c, s, steps))
    ensures AsLease(Run(c, s, steps)) == L.Run(AsLease(s), ActsOf(c, s, steps))
    decreases |steps|
  {
    hide Apply, ActOf, AsLease, Inv;
    if steps != [] {
      StepKeepsInv(c, s, steps[0]);
      StepsAreLeaseSteps(c, s, steps[0]);
      RunsAreLeaseRuns(c, Apply(c, s, steps[0]), steps[1..]);
    }
  }

  lemma ReachableIsSound(c: Config, s: State)
    requires Reachable(c, s)
    ensures Inv(c, s)
  {
    hide Apply, Run, ActsOf;
    var steps :| s == Run(c, State(None, [], []), steps);
    RunsAreLeaseRuns(c, State(None, [], []), steps);
  }

  // ----- what holds in every run -----

  /** An event is decided at most once, and a decision, once made, is never changed. */
  lemma DecisionsStand(c: Config, s: State, steps: seq<Step>)
    requires Reachable(c, s)
    ensures var t := Run(c, s, steps);
      && |t.final| <= 1
      && (s.final != [] ==> t.final == s.final && t.row.Some? && t.row.value.decision == s.final[0])
  {
    hide Apply, ActsOf;
    ReachableIsSound(c, s);
    RunsAreLeaseRuns(c, s, steps);
    if s.final != [] { FinalIsKept(c, s, steps); }
  }

  lemma {:induction false} FinalIsKept(c: Config, s: State, steps: seq<Step>)
    requires s.row.Some? && IsFinal(s.row.value.decision)
    ensures var t := Run(c, s, steps);
      t.final == s.final && t.row.Some? && t.row.value.decision == s.row.value.decision
    decreases |steps|
  {
    if steps != [] { FinalIsKept(c, Apply(c, s, steps[0]), steps[1..]); }
  }

  /** Only the current token decides: a worker whose claim was taken over learns the decision that stands
      and changes nothing, however late it comes. */
  lemma StaleWorkersDecideNothing(c: Config, s: State, steps: seq<Step>, t: nat, d: Decision, now: int)
    requires Reachable(c, s) && s.row.Some? && t < |s.done| && s.row.value.token != Some(t)
    ensures var r := Run(c, s, steps).row; r.Some? && Finalize(c, r.value, t, d, now) == (r.value, r.value.decision)
  {
    hide Run, L.Run, ClaimDelivery, ClaimReconciliation, Backoff, Reachable;
    ReachableIsSound(c, s);
    RunsAreLeaseRuns(c, s, steps);
    L.LostTokensStayLost(AsLease(s), ActsOf(c, s, steps), t);
  }

  /** A row is decided without a token only when its reconciliations are used up and nobody works on it. */
  lemma SweepingNeedsExhaustion(c: Config, s: State, step: Step)
    requires Reachable(c, s) && s.final == [] && Apply(c, s, step).final != []
    ensures s.row.Some?
    ensures step.Finish? ==> s.row.value.token == Some(step.worker) && Apply(c, s, step).final == [step.decision]
    ensures !step.Finish? ==>
      && step.SweepExhausted? && s.row.value.attempts == c.maxAttempts && !IsBusy(c, s.row.value, step.now)
      && Apply(c, s, step).final == [ManualReview]
  {
    hide Backoff, Run;
    ReachableIsSound(c, s);
  }

  /** An undecided event never gets stuck: once its holder is stale and its delay is over, a delivery claims
      it, and a reconciler claims it or, with no attempts left, closes it. */
  lemma OpenEventsMove(c: Config, r: Row, now: int, token: nat)
    requires !IsFinal(r.decision)
    requires now >= Max(r.startedAt.OrElse(now - c.timeout) + c.timeout, r.nextAt.OrElse(now))
    ensures ClaimDelivery(c, Some(r), now, token).1 == Claimed
    ensures r.attempts < c.maxAttempts ==> ClaimReconciliation(c, r, now, false, token).1 == Claimed
    ensures r.attempts >= c.maxAttempts ==>
      ClaimReconciliation(c, r, now, false, token).1 == Exhausted && FinalizeExhausted(c, r, now).1
  {}

  /** The query of `_event_candidate_ids` when no events are named and nothing is forced. */
  predicate IsCandidate(c: Config, r: Row, now: int) {
    && (r.decision == Error
        || (r.decision == Received && (r.startedAt.None? || r.startedAt.value < now - c.timeout)))
    && (r.nextAt.None? || r.nextAt.value <= now)
  }

  /** Of the rows of any run the query selects only ones that can be claimed or closed, and it misses one
      only at the very instant its holder becomes stale. */
  lemma CandidatesCanBeWorkedOn(c: Config, s: State, now: int, token: nat)
    requires Reachable(c, s) && s.row.Some?
    ensures var r := s.row.value;
      var answer := ClaimReconciliation(c, r, now, false, token).1;
      (answer == Claimed || answer == Exhausted) <==>
        IsCandidate(c, r, now)
        || (r.decision == Received && r.startedAt == Some(now - c.timeout) && (r.nextAt.None? || r.nextAt.value <= now))
  {
    hide Run;
    ReachableIsSound(c, s);
  }

  predicate IsHeld(c: Config, r: Row, now: int) {
    r.token.Some? && r.startedAt.Some? && now < r.startedAt.value + c.timeout
  }

  /** A delivery is counted and claims the event exactly when it is undecided and no claim is fresh; deciding
      is then up to the new token. */
  lemma DeliveryOutcome(c: Config, r: Row, now: int, token: nat)
    ensures var (after, answer) := ClaimDelivery(c, Some(r), now, token);
      && after.deliveries == r.deliveries + 1 && after.attempts == r.attempts && after.nextAt == r.nextAt
      && (answer == Claimed <==> (r.decision == Received || r.decision == Error) && !IsHeld(c, r, now))
      && (if answer == Claimed then
            after.token == Some(token) && after.startedAt == Some(now) && after.decision == Received
          else after == r.(deliveries := r.deliveries + 1))
  {}

  /** The reconciler claims it exactly when, besides, its delay is over or ignored and an attempt is left, which
      it counts. */
  lemma ReconciliationOutcome(c: Config, r: Row, now: int, force: bool, token: nat)
    ensures var (after, answer) := ClaimReconciliation(c, r, now, force, token);
      var waits := !force && r.nextAt.Some? && now < r.nextAt.value;
      var open := (r.decision == Received || r.decision == Error) && !IsHeld(c, r, now) && !waits;
      && (answer == Claimed <==> open && r.attempts < c.maxAttempts)
      && (answer == Exhausted <==> open && c.maxAttempts <= r.attempts)
      && (if answer == Claimed then
            after.token == Some(token) && after.startedAt == Some(now) && after.decision == Received
            && after.attempts == r.attempts + 1 && after.deliveries == r.deliveries
          else after == r)
  {}

  /** The holder's decision is written as told; an error is tried again after a back-off. */
  lemma DecisionOutcome(c: Config, r: Row, token: nat, d: Decision, now: int)
    requires (r.decision == Received || r.decision == Error) && r.token == Some(token)
    ensures var (after, standing) := Finalize(c, r, token, d, now);
      && standing == after.decision == d && after.token.None? && after.startedAt.None?
      && after.processedAt == Some(now) && after.attempts == r.attempts
      && after.nextAt == (if d == Error then Some(now + Backoff(c.base, c.maxDelay, Max(1, r.attempts))) else None)
  {
    hide Backoff;
  }

  // ----- the row in place -----

  /** The locked event row of one transaction. */
  class WebhookRow {
    var row: Row

    constructor (r: Row)
      ensures row == r
    {
      row := r;
    }

    /** A repeated delivery; a first one starts from a new row. */
    method ClaimAgain(c: Config, now: int, token: nat) returns (answer: ClaimAnswer)
      modifies this
      ensures (row, answer) == ClaimDelivery(c, Some(old(row)), now, token)
      ensures row.deliveries == old(row).deliveries + 1 && row.attempts == old(row).attempts
    {
      row := row.(deliveries := row.deliveries + 1);
      if IsFinal(row.decision) { return Final; }
      if row.token.Some? && row.startedAt.Some? && row.startedAt.value > now - c.timeout { return Busy; }
      row := row.(decision := Received, token := Some(token));
      row := row.(startedAt := Some(now), processedAt := None);
      answer := Claimed;
    }

    method ClaimForReconciliation(c: Config, now: int, force: bool, token: nat) returns (answer: ClaimAnswer)
      modifies this
      ensures (row, answer) == ClaimReconciliation(c, old(row), now, force, token)
      ensures row.attempts <= Max(c.maxAttempts, old(row).attempts)
    {
      if IsFinal(row.decision) { return Final; }
      if row.token.Some? && row.startedAt.Some? && row.startedAt.value > now - c.timeout { return Busy; }
      if !force && row.nextAt.Some? && row.nextAt.value > now { return NotDue; }
      if row.attempts >= c.maxAttempts { return Exhausted; }
      row := row.(attempts := row.attempts + 1);
      row := row.(decision := Received, token := Some(token), startedAt := Some(now), processedAt := None);
      answer := Claimed;
    }

    method FinalizeEvent(c: Config, token: nat, d: Decision, now: int) returns (standing: Decision)
      modifies this
      ensures (row, standing) == Finalize(c, old(row), token, d, now)
      ensures standing == row.decision && (IsFinal(old(row).decision) ==> row == old(row))
    {
      if IsFinal(row.decision) || row.token != Some(token) { return row.decision; }
      row := row.(decision := d, token := None, startedAt := None, processedAt := Some(now), nextAt := None);
      if d == Error { row := row.(nextAt := Some(now + Backoff(c.base, c.maxDelay, Max(1, row.attempts)))); }
      standing := d;
    }

    method CloseExhausted(c: Config, now: int) returns (closed: bool)
      modifies this
      ensures (row, closed) == FinalizeExhausted(c, old(row), now)
      ensures closed ==> row.decision == ManualReview && row.token.None?
    {
      if IsFinal(row.decision) { return false; }
      var isFresh := row.token.Some? && row.startedAt.Some? && row.startedAt.value > now - c.timeout;
      if row.attempts < c.maxAttempts || isFresh { return false; }
      row := row.(decision := ManualReview, token := None, startedAt := None);
      row := row.(nextAt := None, processedAt := Some(now));
      closed := true;
    }
  }
}
