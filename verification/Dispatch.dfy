/** The durable dispatch row and the updates made to it (apps/core/dispatch.py). */
module Dispatch {
  import opened Common

  datatype Status = Pending | Publishing | Published | Running | Succeeded | Failed | Cancelled

  /** Times are seconds; tokens are never reused, so numbers stand for them. */
  datatype Row = Row(
    status: Status, availableAt: int, token: Option<nat>, lease: Option<int>,
    publishAttempts: nat, runAttempts: nat, maxRunAttempts: nat, timeout: nat,
    noReplay: bool, uncertain: bool, finishedAt: Option<int>)

  /** How a claimed delivery ended. */
  datatype Outcome =
    | NotAllowed
    | NotRegistered
    | Returned
    | Raised(safeRetry: bool, flaggedUncertain: bool)

  const PUBLISH_LEASE := 90
  const DELIVERY_LEASE := 120

  predicate Terminal(s: Status) { s == Succeeded || s == Failed || s == Cancelled }

  predicate Leased(s: Status) { s == Publishing || s == Published || s == Running }

  function RetryDelay(attempt: int): int {
    Min(300, Max(2, Power2(Min(Max(attempt, 1), 8))))
  }

  /** The row `enqueue_durable_task` creates. */
  function NewRow(availableAt: int, maxRunAttempts: int, timeout: int, noReplay: bool): Row {
    Row(Pending, availableAt, None, None, 0, 0, Max(1, Min(maxRunAttempts, 25)), Max(60, Min(timeout, 7200)),
        noReplay, false, None)
  }

  function Revive(r: Row, availableAt: int): Row {
    if r.status != Failed then r
    else r.(status := Pending, availableAt := availableAt, token := None, lease := None,
            runAttempts := 0, uncertain := false, finishedAt := None)
  }

  predicate Due(r: Row, now: int) {
    match r.status
    case Pending => r.availableAt <= now
    case Publishing | Published | Running => r.lease.Some? && r.lease.value <= now
    case _ => false
  }

  /** A worker was lost inside a task that must not be repeated. */
  predicate LostForGood(r: Row) { r.status == Running && r.noReplay }

  /** The locked first half of `publish_dispatch`; true when the row was claimed for publication. */
  function PublishClaim(r: Row, now: int, newToken: nat): (Row, bool) {
    if !Due(r, now) then (r, false)
    else if LostForGood(r) then
      (r.(status := Failed, finishedAt := Some(now), uncertain := true, token := None, lease := None), false)
    else
      (r.(status := Publishing, token := Some(newToken), lease := Some(now + PUBLISH_LEASE),
          publishAttempts := r.publishAttempts + 1), true)
  }

  /** The conditional update after the broker refused the message. */
  function PublishFailed(r: Row, token: nat, publishAttempt: nat, now: int): Row {
    if r.status == Publishing && r.token == Some(token)
    then r.(status := Pending, availableAt := now + RetryDelay(publishAttempt), token := None, lease := None)
    else r
  }

  /** The conditional update after the broker took the message. */
  function MarkPublished(r: Row, token: nat, now: int): Row {
    if r.status == Publishing && r.token == Some(token)
    then r.(status := Published, lease := Some(now + DELIVERY_LEASE))
    else r
  }

  /** `claim_dispatch`; true when the delivery may run. */
  function Claim(r: Row, token: nat, now: int): (Row, bool) {
    if (r.status != Publishing && r.status != Published) || r.token != Some(token) then (r, false)
    else if r.runAttempts >= r.maxRunAttempts then
      (r.(status := Failed, finishedAt := Some(now), lease := None), false)
    else
      (r.(status := Running, runAttempts := r.runAttempts + 1, lease := Some(now + r.timeout)), true)
  }

  /** What `execute_claimed_dispatch` decides from the attempt number it claimed. */
  function Uncertain(noReplay: bool, o: Outcome): bool {
    o.Raised? && (o.flaggedUncertain || (noReplay && !o.safeRetry))
  }

  function GivesUp(noReplay: bool, attempt: nat, maxAttempts: nat, o: Outcome): bool {
    match o
    case NotAllowed => true
    case NotRegistered => false
    case Returned => false
    case Raised(_, _) => Uncertain(noReplay, o) || attempt >= maxAttempts
  }

  /** The conditional update with the outcome; true when it was recorded. */
  function Finish(r: Row, token: nat, attempt: nat, o: Outcome, now: int): (Row, bool) {
    if r.status != Running || r.token != Some(token) then (r, false)
    else if o.Returned? then
      (r.(status := Succeeded, lease := None, uncertain := false, finishedAt := Some(now)), true)
    else if GivesUp(r.noReplay, attempt, r.maxRunAttempts, o) then
      (r.(status := Failed, token := None, lease := None, finishedAt := Some(now),
          uncertain := r.uncertain || Uncertain(r.noReplay, o)), true)
    else
      (r.(status := Pending, token := None, lease := None, availableAt := now + RetryDelay(attempt)), true)
  }

  lemma RetryDelayBounds(attempt: int)
    ensures 2 <= RetryDelay(attempt) <= 256
  {
    PowerGrows(Min(Max(attempt, 1), 8), 8);
    assert Power2(8) == 256;
  }

  lemma {:induction false} PowerGrows(a: nat, b: nat)
    requires a <= b
    ensures 1 <= Power2(a) <= Power2(b)
  {
    if b > 0 {
      if a == b { PowerGrows(a - 1, b - 1); } else { PowerGrows(a, b - 1); }
    }
  }

  /** The row in place. */
  class DispatchRow {
    var status: Status
    var availableAt: int
    var token: Option<nat>
    var lease: Option<int>
    var publishAttempts: nat
    var runAttempts: nat
    const maxRunAttempts: nat
    const timeout: nat
    const noReplay: bool
    var uncertain: bool
    var finishedAt: Option<int>

    function Value(): Row
      reads this
    {
      Row(status, availableAt, token, lease, publishAttempts, runAttempts, maxRunAttempts, timeout,
          noReplay, uncertain, finishedAt)
    }

    constructor (available: int, maxAttempts: int, seconds: int, external: bool)
      ensures Value() == NewRow(available, maxAttempts, seconds, external)
    {
      status, availableAt, token, lease := Pending, available, None, None;
      publishAttempts, runAttempts := 0, 0;
      maxRunAttempts := Max(1, Min(maxAttempts, 25));
      timeout := Max(60, Min(seconds, 7200));
      noReplay, uncertain, finishedAt := external, false, None;
    }

    method ReviveFailed(available: int)
      modifies this
      ensures Value() == Revive(old(Value()), available)
    {
      if status == Failed {
        status := Pending;
        availableAt := available;
        token := None;
        lease := None;
        runAttempts := 0;
        uncertain := false;
        finishedAt := None;
      }
    }

    method ClaimForPublication(now: int, newToken: nat) returns (claimed: bool)
      modifies this
      ensures (Value(), claimed) == PublishClaim(old(Value()), now, newToken)
    {
      if Terminal(status) {
        return false;
      }
      if status == Pending {
        if availableAt > now {
          return false;
        }
      } else if Leased(status) {
        if lease.None? || lease.value > now {
          return false;
        }
        if status == Running && noReplay {
          status := Failed;
          finishedAt := Some(now);
          uncertain := true;
          token := None;
          lease := None;
          return false;
        }
      }
      status := Publishing;
      token := Some(newToken);
      lease := Some(now + PUBLISH_LEASE);
      publishAttempts := publishAttempts + 1;
      return true;
    }

    method RecordPublishFailure(claim: nat, publishAttempt: nat, now: int)
      modifies this
      ensures Value() == PublishFailed(old(Value()), claim, publishAttempt, now)
    {
      if status == Publishing && token == Some(claim) {
        status := Pending;
        availableAt := now + RetryDelay(publishAttempt);
        token := None;
        lease := None;
      }
    }

    method RecordPublished(claim: nat, now: int)
      modifies this
      ensures Value() == MarkPublished(old(Value()), claim, now)
    {
      if status == Publishing && token == Some(claim) {
        status := Published;
        lease := Some(now + DELIVERY_LEASE);
      }
    }

    method ClaimDelivery(claim: nat, now: int) returns (claimed: bool)
      modifies this
      ensures (Value(), claimed) == Claim(old(Value()), claim, now)
    {
      if Terminal(status) {
        return false;
      }
      if token != Some(claim) {
        return false;
      }
      if status != Publishing && status != Published {
        return false;
      }
      if runAttempts >= maxRunAttempts {
        status := Failed;
        finishedAt := Some(now);
        lease := None;
        return false;
      }
      status := Running;
      runAttempts := runAttempts + 1;
      lease := Some(now + timeout);
      return true;
    }

    method FinishFailed(claim: nat, attempt: nat, terminal: bool, unknown: bool, now: int) returns (changed: bool)
      modifies this
      ensures changed == (old(status) == Running && old(token) == Some(claim))
      ensures Value() ==
        if !changed then old(Value())
        else if terminal then
          old(Value()).(status := Failed, token := None, lease := None, finishedAt := Some(now),
                        uncertain := old(uncertain) || unknown)
        else
          old(Value()).(status := Pending, token := None, lease := None, availableAt := now + RetryDelay(attempt))
    {
      if status != Running || token != Some(claim) {
        return false;
      }
      status := if terminal then Failed else Pending;
      token := None;
      lease := None;
      if terminal {
        finishedAt := Some(now);
        if unknown {
          uncertain := true;
        }
      } else {
        availableAt := now + RetryDelay(attempt);
      }
      return true;
    }

    /** The part of `execute_claimed_dispatch` after the target has ended. */
    method RecordOutcome(claim: nat, attempt: nat, o: Outcome, now: int) returns (recorded: bool)
      modifies this
      ensures (Value(), recorded) == Finish(old(Value()), claim, attempt, o, now)
    {
      match o {
        case NotAllowed =>
          recorded := FinishFailed(claim, attempt, true, false, now);
        case NotRegistered =>
          recorded := FinishFailed(claim, attempt, false, false, now);
        case Returned =>
          recorded := status == Running && token == Some(claim);
          if recorded {
            status := Succeeded;
            uncertain := false;
            lease := None;
            finishedAt := Some(now);
          }
        case Raised(safeRetry, flagged) =>
          var unknown := flagged || (noReplay && !safeRetry);
          var terminal := unknown || attempt >= maxRunAttempts;
          recorded := FinishFailed(claim, attempt, terminal, unknown, now);
      }
    }
  }
}
