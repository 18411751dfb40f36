/** One dispatch row, an unreliable broker, publishers and workers, in every interleaving (apps/core/dispatch.py). */
module DispatchProtocol {
  import opened Common
  import opened Dispatch

  /** One successful claim of a delivery and the worker that holds it.
      `order` is set when the worker enters the body of the job, `during` is the revival period of that moment. */
  datatype Claimed = Claimed(
    token: nat, attempt: nat, epoch: nat, alive: bool,
    order: Option<nat>, during: nat, recorded: Option<Outcome>)

  datatype Publisher = Publisher(attempt: nat, sent: bool)

  /** `sent` holds every message the broker ever took: it may deliver one late, twice or never.
      `epoch` counts explicit revivals. Clock readings are arguments of the steps and are arbitrary. */
  datatype State = State(
    row: Row, nextToken: nat, publishers: map<nat, Publisher>, sent: set<nat>,
    claims: seq<Claimed>, epoch: nat, entries: nat)

  datatype Step =
    | Publish(now: int)
    | BrokerTakes(token: nat)
    | BrokerFails(token: nat, delivered: bool, now: int)
    | ConfirmPublished(token: nat, now: int)
    | PublisherDies(token: nat)
    | Deliver(token: nat, now: int)
    | Enter(claim: nat)
    | End(claim: nat, outcome: Outcome, now: int)
    | WorkerDies(claim: nat)
    | ReviveRow(availableAt: int)

  predicate IsWaiting(c: Claimed) { c.alive && c.order.None? }

  predicate CanEnter(s: State, i: nat) { i < |s.claims| && IsWaiting(s.claims[i]) }

  /** Outcomes before the body are reported by workers that never entered it, the others after it. */
  predicate CanEnd(s: State, i: nat, o: Outcome) {
    && i < |s.claims| && s.claims[i].alive
    && (s.claims[i].order.Some? <==> o.Returned? || o.Raised?)
  }

  /** The next state; a step that is not possible changes nothing. */
  function Apply(s: State, step: Step): State {
    match step
    case Publish(now) =>
      var (row, claimed) := PublishClaim(s.row, now, s.nextToken);
      if claimed then
        s.(row := row, nextToken := s.nextToken + 1,
           publishers := s.publishers[s.nextToken := Publisher(row.publishAttempts, false)])
      else s.(row := row)
    case BrokerTakes(t) =>
      if t in s.publishers && !s.publishers[t].sent
      then s.(sent := s.sent + {t}, publishers := s.publishers[t := s.publishers[t].(sent := true)]) else s
    case BrokerFails(t, delivered, now) =>
      if t in s.publishers && !s.publishers[t].sent
      then s.(row := PublishFailed(s.row, t, s.publishers[t].attempt, now), publishers := s.publishers - {t},
              sent := if delivered then s.sent + {t} else s.sent)
      else s
    case ConfirmPublished(t, now) =>
      if t in s.publishers && s.publishers[t].sent
      then s.(row := MarkPublished(s.row, t, now), publishers := s.publishers - {t}) else s
    case PublisherDies(t) => s.(publishers := s.publishers - {t})
    case Deliver(t, now) =>
      if t !in s.sent then s
      else
        var (row, claimed) := Claim(s.row, t, now);
        if claimed
        then s.(row := row, claims := s.claims + [Claimed(t, row.runAttempts, s.epoch, true, None, 0, None)])
        else s.(row := row)
    case Enter(i) =>
      if CanEnter(s, i)
      then s.(claims := s.claims[i := s.claims[i].(order := Some(s.entries), during := s.epoch)],
              entries := s.entries + 1)
      else s
    case End(i, o, now) =>
      if CanEnd(s, i, o)
      then
        var c := s.claims[i];
        var (row, recorded) := Finish(s.row, c.token, c.attempt, o, now);
        s.(row := row,
           claims := s.claims[i := c.(alive := false, recorded := if recorded then Some(o) else None)])
      else s
    case WorkerDies(i) =>
      if i < |s.claims| then s.(claims := s.claims[i := s.claims[i].(alive := false)]) else s
    case ReviveRow(availableAt) =>
      if s.row.status == Failed then s.(row := Revive(s.row, availableAt), epoch := s.epoch + 1) else s
  }

  function Run(s: State, steps: seq<Step>): State
    decreases |steps|
  {
    if steps == [] then s else Run(Apply(s, steps[0]), steps[1..])
  }

  function Start(row: Row): State { State(row, 0, map[], {}, [], 0, 0) }

  predicate IsNew(row: Row) {
    row.status == Pending && row.token == None && row.lease == None && row.runAttempts == 0
    && row.maxRunAttempts >= 1 && row.finishedAt == None && !row.uncertain
  }

  ghost predicate Reachable(s: State) {
    exists row, steps :: IsNew(row) && s == Run(Start(row), steps)
  }

  // ----- the invariant -----

  /** The body was entered and nothing proves that it stopped before its external effect. */
  predicate SafelyEnded(c: Claimed) {
    c.recorded == Some(Raised(true, false))
  }

  /** A claim that may still enter the body, or entered it without a safe ending on record. */
  predicate Dangerous(c: Claimed) {
    c.alive || (c.order.Some? && !SafelyEnded(c))
  }

  function ClaimsIn(claims: seq<Claimed>, epoch: nat): nat {
    if claims == [] then 0
    else ClaimsIn(claims[..|claims| - 1], epoch) + if claims[|claims| - 1].epoch == epoch then 1 else 0
  }

  function EntriesIn(claims: seq<Claimed>, epoch: nat): nat {
    if claims == [] then 0
    else
      var c := claims[|claims| - 1];
      EntriesIn(claims[..|claims| - 1], epoch) + if c.epoch == epoch && c.order.Some? then 1 else 0
  }

  ghost predicate RowShape(r: Row) {
    && r.status != Cancelled && 1 <= r.maxRunAttempts && r.runAttempts <= r.maxRunAttempts
    && (Leased(r.status) <==> r.lease.Some?)
    && (Terminal(r.status) <==> r.finishedAt.Some?)
    && (Leased(r.status) ==> r.token.Some?)
  }

  ghost predicate ClaimsShape(s: State) {
    && (forall i :: 0 <= i < |s.claims| ==>
         s.claims[i].token < s.nextToken && s.claims[i].epoch <= s.epoch && s.claims[i].during <= s.epoch)
    && (forall i :: 0 <= i < |s.claims| && s.claims[i].order.Some? ==> s.claims[i].order.value < s.entries)
    && (forall i, j :: 0 <= i < j < |s.claims| ==>
         s.claims[i].token != s.claims[j].token && s.claims[i].epoch <= s.claims[j].epoch)
  }

  /** How the row names the claim that owns it. */
  ghost predicate Owned(s: State) {
    && (s.row.status == Publishing || s.row.status == Published ==>
         && s.row.token.Some? && s.row.token.value < s.nextToken
         && forall i :: 0 <= i < |s.claims| ==> s.claims[i].token != s.row.token.value)
    && (s.row.status == Running ==>
         s.claims != [] && var c := s.claims[|s.claims| - 1];
         s.row.token == Some(c.token) && c.epoch == s.epoch && c.attempt == s.row.runAttempts)
  }

  ghost predicate Ownership(s: State) {
    Owned(s) && ClaimsIn(s.claims, s.epoch) == s.row.runAttempts
  }

  ghost predicate Inv(s: State) {
    RowShape(s.row) && ClaimsShape(s) && Ownership(s)
  }

  /** In one revival period only the last claim can be dangerous, and then the row is running or closed. */
  ghost predicate NoReplayInv(s: State) {
    && (forall i, j :: 0 <= i < j < |s.claims| && s.claims[i].epoch == s.claims[j].epoch ==> !Dangerous(s.claims[i]))
    && (forall i :: 0 <= i < |s.claims| && s.claims[i].epoch == s.epoch && Dangerous(s.claims[i]) ==>
         s.row.status == Running || Terminal(s.row.status))
  }

  lemma {:induction false} CountsOfUpdate(claims: seq<Claimed>, i: nat, c: Claimed, epoch: nat)
    requires i < |claims| && c.epoch == claims[i].epoch
    ensures ClaimsIn(claims[i := c], epoch) == ClaimsIn(claims, epoch)
  {
    var n := |claims| - 1;
    if i < n {
      CountsOfUpdate(claims[..n], i, c, epoch);
      assert claims[i := c][..n] == claims[..n][i := c];
    } else {
      assert claims[i := c][..n] == claims[..n];
    }
  }

  lemma {:induction false} NoClaimsAhead(claims: seq<Claimed>, epoch: nat)
    requires forall i :: 0 <= i < |claims| ==> claims[i].epoch < epoch
    ensures ClaimsIn(claims, epoch) == 0
  {
    if claims != [] { NoClaimsAhead(claims[..|claims| - 1], epoch); }
  }

  lemma StepKeepsRowShape(s: State, step: Step)
    requires Inv(s)
    ensures RowShape(Apply(s, step).row) && Apply(s, step).row.noReplay == s.row.noReplay
  {
    hide RetryDelay, GivesUp, Uncertain, ClaimsShape, Ownership;
  }

  lemma StepKeepsClaimsShape(s: State, step: Step)
    requires Inv(s)
    ensures ClaimsShape(Apply(s, step))
  {
    hide RetryDelay, GivesUp, Uncertain, ClaimsIn, Due;
  }

  lemma AppendClaim(claims: seq<Claimed>, c: Claimed, epoch: nat)
    ensures ClaimsIn(claims + [c], epoch) == ClaimsIn(claims, epoch) + if c.epoch == epoch then 1 else 0
  {
    assert (claims + [c])[..|claims|] == claims;
  }

  /** Attempts are counted by claims alone. */
  lemma OnlyClaimsCountAttempts(r: Row, t: nat, attempt: nat, o: Outcome, now: int)
    ensures PublishClaim(r, now, t).0.runAttempts == r.runAttempts
    ensures PublishFailed(r, t, attempt, now).runAttempts == r.runAttempts
    ensures MarkPublished(r, t, now).runAttempts == r.runAttempts
    ensures Finish(r, t, attempt, o, now).0.runAttempts == r.runAttempts
  {
    hide RetryDelay, GivesUp, Uncertain, Due;
  }

  lemma StepKeepsClaimCount(s: State, step: Step)
    requires Inv(s)
    ensures var t := Apply(s, step); ClaimsIn(t.claims, t.epoch) == t.row.runAttempts
  {
    hide PublishClaim, PublishFailed, MarkPublished, Finish, RowShape, Owned, ClaimsIn;
    match step
    case Publish(now) => OnlyClaimsCountAttempts(s.row, s.nextToken, 0, Returned, now);
    case BrokerFails(t, delivered, now) =>
      if t in s.publishers { OnlyClaimsCountAttempts(s.row, t, s.publishers[t].attempt, Returned, now); }
    case ConfirmPublished(t, now) => OnlyClaimsCountAttempts(s.row, t, 0, Returned, now);
    case Deliver(t, now) =>
      AppendClaim(s.claims, Claimed(t, s.row.runAttempts + 1, s.epoch, true, None, 0, None), s.epoch);
    case Enter(i) =>
      if CanEnter(s, i) {
        CountsOfUpdate(s.claims, i, s.claims[i].(order := Some(s.entries), during := s.epoch), s.epoch);
      }
    case End(i, o, now) =>
      if CanEnd(s, i, o) {
        OnlyClaimsCountAttempts(s.row, s.claims[i].token, s.claims[i].attempt, o, now);
        CountsOfUpdate(s.claims, i, Apply(s, step).claims[i], s.epoch);
      }
    case WorkerDies(i) =>
      if i < |s.claims| { CountsOfUpdate(s.claims, i, s.claims[i].(alive := false), s.epoch); }
    case ReviveRow(availableAt) =>
      NoClaimsAhead(s.claims, s.epoch + 1);
    case _ =>
  }

  lemma StepKeepsOwnership(s: State, step: Step)
    requires Inv(s)
    ensures Owned(Apply(s, step))
  {
    hide RetryDelay, GivesUp, Uncertain, RowShape, ClaimsIn, Due;
  }

  lemma StepKeepsInv(s: State, step: Step)
    requires Inv(s)
    ensures Inv(Apply(s, step)) && Apply(s, step).row.noReplay == s.row.noReplay
  {
    hide RowShape, ClaimsShape, Owned, Apply;
    StepKeepsRowShape(s, step);
    StepKeepsClaimsShape(s, step);
    StepKeepsOwnership(s, step);
    StepKeepsClaimCount(s, step);
  }

  lemma StepKeepsNoReplay(s: State, step: Step)
    requires Inv(s) && NoReplayInv(s) && s.row.noReplay
    ensures NoReplayInv(Apply(s, step)) && Apply(s, step).row.noReplay
  {
    hide RetryDelay, ClaimsIn;
  }

  lemma {:induction false} RunKeepsInv(s: State, steps: seq<Step>)
    requires Inv(s)
    ensures Inv(Run(s, steps))
    ensures Run(s, steps).row.noReplay == s.row.noReplay
    ensures s.row.noReplay && NoReplayInv(s) ==> NoReplayInv(Run(s, steps))
    decreases |steps|
  {
    hide Apply, Inv, NoReplayInv;
    if steps != [] {
      StepKeepsInv(s, steps[0]);
      if s.row.noReplay && NoReplayInv(s) { StepKeepsNoReplay(s, steps[0]); }
      RunKeepsInv(Apply(s, steps[0]), steps[1..]);
    }
  }

  lemma ReachableIsSound(s: State)
    requires Reachable(s)
    ensures Inv(s) && (s.row.noReplay ==> NoReplayInv(s))
  {
    var row, steps :| IsNew(row) && s == Run(Start(row), steps);
    RunKeepsInv(Start(row), steps);
  }
}
