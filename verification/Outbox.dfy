/** Publishing one outbox event through leases (apps/billing/outbox.py). */
module Outbox {
  import opened Common
  import L = Leases

  datatype Status = Pending | Processing | Dispatched | Dead

  datatype Event = Event(
    status: Status, token: Option<nat>, startedAt: Option<int>, attempts: nat, nextAt: Option<int>,
    dispatchedAt: Option<int>, deadAt: Option<int>)

  datatype Config = Config(timeout: nat, maxAttempts: nat, base: nat, maxDelay: nat)

  datatype ClaimAnswer = Final | Busy | Waiting | Claimed

  /** `_claim_event` with a fresh token. */
  function Claim(c: Config, e: Event, now: int, force: bool, token: nat): (Event, ClaimAnswer) {
    if e.status == Dispatched || (e.status == Dead && !force) then (e, Final)
    else if e.status == Processing && e.startedAt.Some? && e.startedAt.value >= now - c.timeout then (e, Busy)
    else if e.status == Pending && !force && e.nextAt.Some? && e.nextAt.value > now then (e, Waiting)
    else (e.(status := Processing, token := Some(token), startedAt := Some(now), attempts := e.attempts + 1), Claimed)
  }

  predicate IsHeldBy(e: Event, token: nat) { e.status == Processing && e.token == Some(token) }

  /** `_mark_dispatched`. */
  function MarkDispatched(e: Event, token: nat, now: int): (Event, bool) {
    if !IsHeldBy(e, token) then (e, false)
    else (Event(Dispatched, None, None, e.attempts, None, Some(now), None), true)
  }

  datatype Fate = Unheld | Retryable | DeadLettered

  /** `_reschedule`. */
  function Reschedule(c: Config, e: Event, token: nat, now: int): (Event, Fate) {
    if !IsHeldBy(e, token) then (e, Unheld)
    else if e.attempts >= c.maxAttempts then
      (e.(status := Dead, token := None, startedAt := None, nextAt := None, deadAt := Some(now)), DeadLettered)
    else
      (e.(status := Pending, token := None, startedAt := None,
          nextAt := Some(now + Backoff(c.base, c.maxDelay, e.attempts)), deadAt := None), Retryable)
  }

  /** The query of `_candidate_ids` when no events are named. */
  predicate IsCandidate(c: Config, e: Event, now: int) {
    || (e.status == Pending && (e.nextAt.None? || e.nextAt.value <= now))
    || (e.status == Processing && (e.startedAt.None? || e.startedAt.value < now - c.timeout))
  }

  /** The query and the claim agree: what is selected can be claimed, and nothing else can. */
  lemma CandidatesAreClaimable(c: Config, e: Event, now: int, token: nat)
    ensures IsCandidate(c, e, now) <==> Claim(c, e, now, false, token).1 == Claimed
    ensures Claim(c, e, now, true, token).1 == Claimed <==>
      IsCandidate(c, e, now) || e.status == Pending || e.status == Dead
  {}

  /** Every event that is not dispatched or dead can be claimed from some moment on. */
  lemma OpenEventsBecomeClaimable(c: Config, e: Event, now: int, token: nat)
    requires e.status == Pending || e.status == Processing
    requires now > Max(e.startedAt.OrElse(now - c.timeout - 1) + c.timeout, e.nextAt.OrElse(now - 1))
    ensures Claim(c, e, now, false, token).1 == Claimed
  {}

  /** A claim counts an attempt and gives the event to its token from now on; a refused one changes nothing. */
  lemma ClaimOutcome(c: Config, e: Event, now: int, force: bool, token: nat)
    ensures var (after, answer) := Claim(c, e, now, force, token);
      && (answer == Claimed ==>
            IsHeldBy(after, token) && after.startedAt == Some(now) && after.attempts == e.attempts + 1
            && after.nextAt == e.nextAt && after.dispatchedAt == e.dispatchedAt)
      && (answer != Claimed ==> after == e)
      && (answer == Final <==> e.status == Dispatched || (e.status == Dead && !force))
  {}

  /** A failed publication of the holder is tried again after a back-off while attempts are left, and buried
      exactly when they are used up; a completed one is recorded with its time. */
  lemma EndOutcome(c: Config, e: Event, token: nat, now: int)
    requires IsHeldBy(e, token)
    ensures var (after, fate) := Reschedule(c, e, token, now);
      && after.token.None? && after.startedAt.None? && after.attempts == e.attempts
      && (if e.attempts < c.maxAttempts then
            fate == Retryable && after.status == Pending
            && after.nextAt == Some(now + Backoff(c.base, c.maxDelay, e.attempts))
          else
            fate == DeadLettered && after.status == Dead && after.deadAt == Some(now) && after.nextAt.None?)
    ensures var (after, done) := MarkDispatched(e, token, now);
      done && after.status == Dispatched && after.dispatchedAt == Some(now) && after.token.None?
      && after.nextAt.None? && after.deadAt.None? && after.attempts == e.attempts
  {
    hide Backoff;
  }

  // ----- workers -----

  datatype Phase = Publishing | Published | Failed | Over

  /** Worker t holds, or held, token t. */
  datatype State = State(event: Event, workers: seq<Phase>)

  datatype Step =
    | ClaimRow(now: int, force: bool)
    | PublishWorks(worker: nat)
    | PublishFails(worker: nat)
    | Confirm(worker: nat, now: int)
    | GiveBack(worker: nat, now: int)

  predicate IsIn(s: State, t: nat, p: Phase) { t < |s.workers| && s.workers[t] == p }

  function Apply(c: Config, s: State, step: Step): State {
    match step
    case ClaimRow(now, force) =>
      var (e, answer) := Claim(c, s.event, now, force, |s.workers|);
      if answer == Claimed then State(e, s.workers + [Publishing]) else s
    case PublishWorks(t) => if IsIn(s, t, Publishing) then s.(workers := s.workers[t := Published]) else s
    case PublishFails(t) => if IsIn(s, t, Publishing) then s.(workers := s.workers[t := Failed]) else s
    case Confirm(t, now) =>
      if IsIn(s, t, Published) then State(MarkDispatched(s.event, t, now).0, s.workers[t := Over]) else s
    case GiveBack(t, now) =>
      if IsIn(s, t, Failed) then State(Reschedule(c, s.event, t, now).0, s.workers[t := Over]) else s
  }

  function Run(c: Config, s: State, steps: seq<Step>): State
    decreases |steps|
  {
    if steps == [] then s else Run(c, Apply(c, s, steps[0]), steps[1..])
  }

  const NEW_EVENT := Event(Pending, None, None, 0, None, None, None)

  ghost predicate Reachable(c: Config, s: State) {
    exists steps :: s == Run(c, State(NEW_EVENT, []), steps)
  }

  // ----- the outbox is a lease -----

  function AsLease(s: State): L.Lease {
    L.Lease(if s.event.status == Processing then s.event.token else None, s.event.status == Dispatched, |s.workers|)
  }

  function ActOf(c: Config, s: State, step: Step): L.Act {
    match step
    case ClaimRow(now, force) => if Claim(c, s.event, now, force, 0).1 == Claimed then L.Take else L.Idle
    case Confirm(t, _) => if IsIn(s, t, Published) then L.Close(t) else L.Idle
    case GiveBack(t, _) => if IsIn(s, t, Failed) then L.Yield(t) else L.Idle
    case _ => L.Idle
  }

  /** Every step is a step of the lease, and only the holder of the token changes the event otherwise
      than by claiming it. */
  lemma StepsAreLeaseSteps(c: Config, s: State, step: Step)
    ensures AsLease(Apply(c, s, step)) == L.Apply(AsLease(s), ActOf(c, s, step))
    ensures Apply(c, s, step).event != s.event && !step.ClaimRow? ==>
      (step.Confirm? || step.GiveBack?) && L.Holds(AsLease(s), step.worker)
  {
    hide Backoff;
  }

  function ActsOf(c: Config, s: State, steps: seq<Step>): seq<L.Act>
    decreases |steps|
  {
    if steps == [] then [] else [ActOf(c, s, steps[0])] + ActsOf(c, Apply(c, s, steps[0]), steps[1..])
  }

  lemma {:induction false} RunsAreLeaseRuns(c: Config, s: State, steps: seq<Step>)
    ensures AsLease(Run(c, s, steps)) == L.Run(AsLease(s), ActsOf(c, s, steps))
    decreases |steps|
  {
    hide Apply, ActOf, AsLease;
    if steps != [] {
      StepsAreLeaseSteps(c, s, steps[0]);
      RunsAreLeaseRuns(c, Apply(c, s, steps[0]), steps[1..]);
    }
  }

  ghost predicate Inv(c: Config, s: State) {
    var e := s.event;
    && L.Valid(AsLease(s))
    && (e.status == Processing <==> e.token.Some?) && (e.token.Some? <==> e.startedAt.Some?)
    && (e.token.Some? ==> s.workers[e.token.value] != Over)
    && e.attempts == |s.workers|
    && (e.status == Dispatched ==> e.dispatchedAt.Some?)
    && (e.status == Dead ==> e.attempts >= c.maxAttempts && e.deadAt.Some?)
    && (e.status == Dispatched || e.dispatchedAt.Some? ==> e.status == Dispatched)
  }

  lemma StepKeepsInv(c: Config, s: State, step: Step)
    requires Inv(c, s)
    ensures Inv(c, Apply(c, s, step))
  {
    hide Backoff;
  }

  lemma {:induction false} RunKeepsInv(c: Config, s: State, steps: seq<Step>)
    requires Inv(c, s)
    ensures Inv(c, Run(c, s, steps))
    decreases |steps|
  {
    hide Apply, Inv;
    if steps != [] {
      StepKeepsInv(c, s, steps[0]);
      RunKeepsInv(c, Apply(c, s, steps[0]), steps[1..]);
    }
  }

  lemma ReachableIsSound(c: Config, s: State)
    requires Reachable(c, s)
    ensures Inv(c, s)
  {
    hide Apply, Run;
    var steps :| s == Run(c, State(NEW_EVENT, []), steps);
    RunKeepsInv(c, State(NEW_EVENT, []), steps);
  }

  /** An event becomes dispatched only in the step of a worker whose publication was completed. */
  lemma DispatchedMeansPublished(c: Config, s: State, step: Step)
    requires s.event.status != Dispatched && Apply(c, s, step).event.status == Dispatched
    ensures step.Confirm? && IsIn(s, step.worker, Published) && IsHeldBy(s.event, step.worker)
  {
    hide Backoff;
  }

  /** A dead event has used up its attempts, each of them a claim. */
  lemma DeadMeansExhausted(c: Config, s: State)
    requires Reachable(c, s) && s.event.status == Dead
    ensures |s.workers| == s.event.attempts >= c.maxAttempts
  {
    hide Run;
    ReachableIsSound(c, s);
  }

  /** A dispatched event is never touched again; a worker that lost its token never gets to change the
      event, however late it comes. */
  lemma OutboxIsFenced(c: Config, s: State, steps: seq<Step>, t: nat, now: int)
    requires Reachable(c, s)
    ensures s.event.status == Dispatched ==> Run(c, s, steps).event.status == Dispatched
    ensures t < |s.workers| && !IsHeldBy(s.event, t) ==>
      var e := Run(c, s, steps).event;
      MarkDispatched(e, t, now) == (e, false) && Reschedule(c, e, t, now) == (e, Unheld)
  {
    hide Run, L.Run, Claim, Backoff, Reachable;
    ReachableIsSound(c, s);
    RunsAreLeaseRuns(c, s, steps);
    if s.event.status == Dispatched { L.ClosedStaysClosed(AsLease(s), ActsOf(c, s, steps)); }
    if t < |s.workers| && !IsHeldBy(s.event, t) { L.LostTokensStayLost(AsLease(s), ActsOf(c, s, steps), t); }
  }

  // ----- one pass of the dispatcher -----

  datatype Stats = Stats(claimed: nat, dispatched: nat, retryable: nat, dead: nat, skipped: nat, errors: nat)

  /** How one candidate of a pass ends; TakenOver and LostFailure when others claimed it after this worker. */
  datatype Ending = NotClaimed | Sent | TakenOver | Returned | Buried | LostFailure

  /** What a pass does to one event, and how that ends: `others` is what all others make of the event between
      the claim and the end of the publication. */
  function DispatchOne(c: Config, e: Event, now: int, force: bool, token: nat, publishes: bool, others: Event -> Event)
    : (Event, Ending)
  {
    var (claimed, answer) := Claim(c, e, now, force, token);
    if answer != Claimed then (e, NotClaimed)
    else if publishes then
      var (after, done) := MarkDispatched(others(claimed), token, now);
      (after, if done then Sent else TakenOver)
    else
      var (after, fate) := Reschedule(c, others(claimed), token, now);
      (after, if fate == Retryable then Returned else if fate == DeadLettered then Buried else LostFailure)
  }

  /** Only a worker that still holds its token decides; dispatched follows a publication, dead the last attempt. */
  lemma EndingsAreEarned(c: Config, e: Event, now: int, force: bool, token: nat, publishes: bool,
                         others: Event -> Event)
    ensures var (after, ending) := DispatchOne(c, e, now, force, token, publishes, others);
      var middle := others(Claim(c, e, now, force, token).0);
      && (ending == NotClaimed ==> after == e)
      && (ending == Sent <==> Claim(c, e, now, force, token).1 == Claimed && publishes && IsHeldBy(middle, token))
      && (ending == Sent ==> after.status == Dispatched)
      && (ending == Returned ==>
            after.status == Pending && IsHeldBy(middle, token) && !publishes && middle.attempts < c.maxAttempts)
      && (ending == Buried ==> after.status == Dead && IsHeldBy(middle, token) && middle.attempts >= c.maxAttempts)
      && (ending == TakenOver || ending == LostFailure ==> after == middle && !IsHeldBy(middle, token))
  {
    hide Backoff;
  }

  function Count(endings: seq<Ending>, ending: Ending): nat {
    if endings == [] then 0
    else Count(endings[..|endings| - 1], ending) + if endings[|endings| - 1] == ending then 1 else 0
  }

  lemma CountOneMore(endings: seq<Ending>, e: Ending)
    ensures forall x :: Count(endings + [e], x) == Count(endings, x) + if e == x then 1 else 0
  {
    assert (endings + [e])[..|endings|] == endings;
  }

  /** The loop of `dispatch_due_billing_outbox` over its candidates, with the answers of the broker and the
      doings of others given. Each event is claimed under a fresh token. */
  method DispatchDue(c: Config, events: array<Event>, now: int, force: bool, tokens: nat, publishes: seq<bool>,
                     others: seq<Event -> Event>)
      returns (stats: Stats, endings: seq<Ending>)
    requires |publishes| == |others| == events.Length
    modifies events
    ensures |endings| == events.Length
    ensures forall k: nat :: k < events.Length ==>
      (events[k], endings[k]) == DispatchOne(c, old(events[k]), now, force, tokens + k, publishes[k], others[k])
    ensures stats.dispatched == Count(endings, Sent) && stats.retryable == Count(endings, Returned)
    ensures stats.dead == Count(endings, Buried)
    ensures stats.errors == Count(endings, Returned) + Count(endings, Buried) + Count(endings, LostFailure)
    ensures stats.skipped == Count(endings, NotClaimed) + Count(endings, TakenOver)
    ensures stats.claimed == |endings| - Count(endings, NotClaimed)
  {
    hide Backoff, Count, MarkDispatched, Reschedule, Claim;
    assert forall x :: Count([], x) == 0 by { NothingCounted(); }
    stats, endings := Stats(0, 0, 0, 0, 0, 0), [];
    var i := 0;
    while i < events.Length
      invariant 0 <= i == |endings| <= events.Length
      invariant forall k: nat :: k < i ==>
        (events[k], endings[k]) == DispatchOne(c, old(events[k]), now, force, tokens + k, publishes[k], others[k])
      invariant forall k :: i <= k < events.Length ==> events[k] == old(events[k])
      invariant stats.dispatched == Count(endings, Sent) && stats.retryable == Count(endings, Returned)
      invariant stats.dead == Count(endings, Buried)
      invariant stats.errors == Count(endings, Returned) + Count(endings, Buried) + Count(endings, LostFailure)
      invariant stats.skipped == Count(endings, NotClaimed) + Count(endings, TakenOver)
      invariant stats.claimed == i - Count(endings, NotClaimed)
    {
      var ending := NotClaimed;
      var (claimed, answer) := Claim(c, events[i], now, force, tokens + i);
      if answer != Claimed {
        stats := stats.(skipped := stats.skipped + 1);
      } else {
        stats := stats.(claimed := stats.claimed + 1);
        if publishes[i] {
          var (after, done) := MarkDispatched(others[i](claimed), tokens + i, now);
          events[i] := after;
          if done {
            ending, stats := Sent, stats.(dispatched := stats.dispatched + 1);
          } else {
            ending, stats := TakenOver, stats.(skipped := stats.skipped + 1);
          }
        } else {
          var (after, fate) := Reschedule(c, others[i](claimed), tokens + i, now);
          events[i] := after;
          ending := LostFailure;
          if fate == Retryable {
            ending, stats := Returned, stats.(retryable := stats.retryable + 1);
          } else if fate == DeadLettered {
            ending, stats := Buried, stats.(dead := stats.dead + 1);
          }
          stats := stats.(errors := stats.errors + 1);
        }
      }
      CountOneMore(endings, ending);
      endings := endings + [ending];
      i := i + 1;
    }
  }

  lemma NothingCounted()
    ensures forall x :: Count([], x) == 0
  {}

  // ----- the row in place -----

  /** The locked event row of one transaction. */
  class EventRow {
    var event: Event

    constructor (e: Event)
      ensures event == e
    {
      event := e;
    }

    method ClaimEvent(c: Config, now: int, force: bool, token: nat) returns (answer: ClaimAnswer)
      modifies this
      ensures (event, answer) == Claim(c, old(event), now, force, token)
      ensures answer != Claimed ==> event == old(event)
    {
      if event.status == Dispatched { return Final; }
      if event.status == Dead && !force { return Final; }
      var staleBefore := now - c.timeout;
      if event.status == Processing && event.startedAt.Some? && event.startedAt.value >= staleBefore { return Busy; }
      if event.status == Pending && !force && event.nextAt.Some? && event.nextAt.value > now { return Waiting; }
      event := event.(status := Processing, token := Some(token), startedAt := Some(now));
      event := event.(attempts := event.attempts + 1);
      answer := Claimed;
    }

    method MarkEventDispatched(token: nat, now: int) returns (done: bool)
      modifies this
      ensures (event, done) == MarkDispatched(old(event), token, now)
      ensures done <==> IsHeldBy(old(event), token)
    {
      if event.status != Processing || event.token != Some(token) { return false; }
      event := event.(status := Dispatched, token := None, startedAt := None, nextAt := None);
      event := event.(dispatchedAt := Some(now), deadAt := None);
      done := true;
    }

    method RescheduleEvent(c: Config, token: nat, now: int) returns (fate: Fate)
      modifies this
      ensures (event, fate) == Reschedule(c, old(event), token, now)
      ensures fate == DeadLettered ==> old(event).attempts >= c.maxAttempts
    {
      if event.status != Processing || event.token != Some(token) { return Unheld; }
      var exhausted := event.attempts >= c.maxAttempts;
      event := event.(status := if exhausted then Dead else Pending, token := None, startedAt := None);
      event := event.(nextAt := if exhausted then None else Some(now + Backoff(c.base, c.maxDelay, event.attempts)));
      event := event.(deadAt := if exhausted then Some(now) else None);
      fate := if exhausted then DeadLettered else Retryable;
    }
  }
}
