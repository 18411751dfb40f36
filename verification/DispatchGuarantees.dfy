/** What durable dispatch guarantees over all interleavings (apps/core/dispatch.py). */
module DispatchGuarantees {
  import opened Common
  import opened Dispatch
  import opened DispatchProtocol

  // ----- no automatic replay -----

  /** Whoever enters the body of a job that must not be repeated finds every earlier entry by a claim of the
      same revival period ended by a safe-retry error that its own claim recorded. */
  lemma EntersOnlyAfterSafeRetries(s: State, j: nat, i: nat)
    requires Reachable(s) && s.row.noReplay && CanEnter(s, j)
    requires i < |s.claims| && i != j && s.claims[i].epoch == s.claims[j].epoch && s.claims[i].order.Some?
    ensures SafelyEnded(s.claims[i]) && !s.claims[i].alive
  {
    ReachableIsSound(s);
  }

  // ----- the same by wall clock: entries made since the revival -----

  predicate NoRevival(steps: seq<Step>) {
    forall k :: 0 <= k < |steps| ==> !steps[k].ReviveRow?
  }

  /** An entry now would follow an entry of this period that did not end safely. */
  predicate Repeats(s: State, j: nat) {
    && CanEnter(s, j)
    && (exists i :: 0 <= i < |s.claims|
          && s.claims[i].order.Some? && s.claims[i].during == s.epoch && !SafelyEnded(s.claims[i]))
  }

  ghost predicate NeverRepeats(s: State) {
    forall steps: seq<Step>, j: nat :: NoRevival(steps) ==> !Repeats(Run(s, steps), j)
  }

  /** A worker that claimed a delivery and has not entered the body yet. */
  predicate HasWaitingWorker(s: State) {
    exists i :: 0 <= i < |s.claims| && IsWaiting(s.claims[i])
  }

  /** Everything that entered or may enter in this period was claimed in it. */
  ghost predicate Local(s: State) {
    forall i :: 0 <= i < |s.claims| ==>
      && (IsWaiting(s.claims[i]) ==> s.claims[i].epoch == s.epoch)
      && (s.claims[i].order.Some? && s.claims[i].during == s.epoch ==> s.claims[i].epoch == s.epoch)
  }

  lemma StepKeepsLocal(s: State, step: Step)
    requires Local(s) && !step.ReviveRow?
    ensures Local(Apply(s, step)) && Apply(s, step).epoch == s.epoch
  {
    hide PublishClaim, PublishFailed, MarkPublished, Claim, Finish;
  }

  lemma {:induction false} LocalRunsNeverRepeat(s: State, steps: seq<Step>, j: nat)
    requires Inv(s) && NoReplayInv(s) && s.row.noReplay && Local(s) && NoRevival(steps)
    ensures !Repeats(Run(s, steps), j)
    decreases |steps|
  {
    hide Apply, Inv, NoReplayInv, Local;
    if steps == [] {
      NothingRepeatsLocally(s, j);
    } else {
      StepKeepsInv(s, steps[0]);
      StepKeepsNoReplay(s, steps[0]);
      StepKeepsLocal(s, steps[0]);
      LocalRunsNeverRepeat(Apply(s, steps[0]), steps[1..], j);
    }
  }

  lemma NothingRepeatsLocally(s: State, j: nat)
    requires Inv(s) && NoReplayInv(s) && Local(s)
    ensures !Repeats(s, j)
  {
  }

  /** Four steps after a revival: the old worker enters, then the row is published and claimed again. */
  lemma OldWorkerRepeats(r: State, i: nat, now: int)
    requires r.row.status == Pending && r.row.availableAt <= now
    requires r.row.runAttempts < r.row.maxRunAttempts && CanEnter(r, i) && r.claims[i].recorded == None
    ensures var steps := [Enter(i), Publish(now), BrokerTakes(r.nextToken), Deliver(r.nextToken, now)];
            Repeats(Run(r, steps), |r.claims|)
  {
    var a := Apply(r, Enter(i));
    var b := Apply(a, Publish(now));
    var c := Apply(b, BrokerTakes(r.nextToken));
    var d := Apply(c, Deliver(r.nextToken, now));
    RunOfFour(r, Enter(i), Publish(now), BrokerTakes(r.nextToken), Deliver(r.nextToken, now));
    assert d.claims[i].order.Some? && d.claims[i].during == d.epoch;
    assert CanEnter(d, |r.claims|);
  }

  lemma RunFirst(s: State, step: Step, rest: seq<Step>)
    ensures Run(s, [step] + rest) == Run(Apply(s, step), rest)
  {
    assert ([step] + rest)[1..] == rest;
  }

  lemma RunOfFour(s: State, w: Step, x: Step, y: Step, z: Step)
    ensures Run(s, [w, x, y, z]) == Apply(Apply(Apply(Apply(s, w), x), y), z)
  {
    hide Apply;
    RunFirst(s, w, [x, y, z]);
    RunFirst(Apply(s, w), x, [y, z]);
    RunFirst(Apply(Apply(s, w), x), y, [z]);
    RunFirst(Apply(Apply(Apply(s, w), x), y), z, []);
    assert [w] + [x, y, z] == [w, x, y, z] && [x] + [y, z] == [x, y, z] && [y] + [z] == [y, z];
    assert [z] + [] == [z];
  }

  ghost predicate AliveIsUnrecorded(s: State) {
    forall i :: 0 <= i < |s.claims| && s.claims[i].alive ==> s.claims[i].recorded == None
  }

  lemma {:induction false} AliveStaysUnrecorded(s: State, steps: seq<Step>)
    requires AliveIsUnrecorded(s)
    ensures AliveIsUnrecorded(Run(s, steps))
    decreases |steps|
  {
    if steps != [] {
      StepKeepsUnrecorded(s, steps[0]);
      AliveStaysUnrecorded(Apply(s, steps[0]), steps[1..]);
    }
  }

  lemma StepKeepsUnrecorded(s: State, step: Step)
    requires AliveIsUnrecorded(s)
    ensures AliveIsUnrecorded(Apply(s, step))
  {
    hide PublishClaim, PublishFailed, MarkPublished, Claim, Finish;
  }

  /** Counted by wall clock, reviving keeps the promise exactly when no old worker is still waiting to enter. */
  lemma RevivalIsSafeIffNobodyWaits(s: State, availableAt: int)
    requires Reachable(s) && s.row.noReplay && s.row.status == Failed
    ensures NeverRepeats(Apply(s, ReviveRow(availableAt))) <==> !HasWaitingWorker(s)
  {
    var r := Apply(s, ReviveRow(availableAt));
    ReachableIsSound(s);
    StepKeepsInv(s, ReviveRow(availableAt));
    StepKeepsNoReplay(s, ReviveRow(availableAt));
    if HasWaitingWorker(s) {
      var row, steps :| IsNew(row) && s == Run(Start(row), steps);
      AliveStaysUnrecorded(Start(row), steps);
      var i :| 0 <= i < |s.claims| && IsWaiting(s.claims[i]);
      OldWorkerRepeats(r, i, availableAt);
      var again := [Enter(i), Publish(availableAt), BrokerTakes(r.nextToken), Deliver(r.nextToken, availableAt)];
      assert NoRevival(again) && Repeats(Run(r, again), |r.claims|);
    } else {
      assert Local(r);
      forall steps: seq<Step>, j: nat | NoRevival(steps) ensures !Repeats(Run(r, steps), j) {
        LocalRunsNeverRepeat(r, steps, j);
      }
    }
  }

  /** The waiting worker exists in real runs: its lease expires before it enters, and the row is failed. */
  lemma WaitingWorkerCanOutliveItsLease(row: Row)
    requires IsNew(row) && row.noReplay
    ensures exists s :: Reachable(s) && s.row.noReplay && s.row.status == Failed && HasWaitingWorker(s)
  {
    var now := row.availableAt;
    var late := now + row.timeout;
    var steps := [Publish(now), BrokerTakes(0), Deliver(0, now), Publish(late)];
    RunOfFour(Start(row), Publish(now), BrokerTakes(0), Deliver(0, now), Publish(late));
    var s := Run(Start(row), steps);
    assert s.claims[0].alive;
    assert Reachable(s);
  }

  lemma RunOfThree(s: State, x: Step, y: Step, z: Step)
    ensures Run(s, [x, y, z]) == Apply(Apply(Apply(s, x), y), z)
  {
    hide Apply;
    RunFirst(s, x, [y, z]);
    RunFirst(Apply(s, x), y, [z]);
    RunFirst(Apply(Apply(s, x), y), z, []);
    assert [x] + [y, z] == [x, y, z] && [y] + [z] == [y, z] && [z] + [] == [z];
  }

  /** The same for jobs that may be replayed: the next claim, or the lack of an attempt for it, fails the row. */
  lemma WaitingWorkerCanOutliveReplays(row: Row)
    requires IsNew(row) && !row.noReplay
    ensures exists s :: Reachable(s) && !s.row.noReplay && s.row.status == Failed && HasWaitingWorker(s)
  {
    hide Run;
    var now := row.availableAt;
    var late := now + row.timeout;
    var first := [Publish(now), BrokerTakes(0), Deliver(0, now), Publish(late)];
    var second := [BrokerTakes(1), Deliver(1, late), End(1, NotAllowed, late)];
    RunOfFour(Start(row), first[0], first[1], first[2], first[3]);
    var t := Run(Start(row), first);
    assert IsWaiting(t.claims[0]) && t.row.status == Publishing && t.row.token == Some(1) && |t.claims| == 1;
    RunOfThree(t, second[0], second[1], second[2]);
    var s := Run(t, second);
    assert IsWaiting(s.claims[0]) && s.row.status == Failed;
    RunsContinue(Start(row), first, second);
    assert Reachable(s);
  }

  // ----- a rule for those who revive -----

  /** A rule reads the row, and every revival of a failed one follows it. */
  predicate Obeys(rule: Row -> bool, s: State, steps: seq<Step>)
    decreases |steps|
  {
    steps == []
    || ((steps[0].ReviveRow? && s.row.status == Failed ==> rule(s.row))
        && Obeys(rule, Apply(s, steps[0]), steps[1..]))
  }

  /** The stored outcome is not uncertain. */
  const CERTAIN: Row -> bool := (r: Row) => !r.uncertain

  /** A failure that leaves a worker waiting is stored as uncertain. */
  ghost predicate WaitingIsUncertain(s: State) {
    s.row.status == Failed && HasWaitingWorker(s) ==> s.row.uncertain
  }

  lemma StepKeepsCertainty(s: State, step: Step)
    requires Inv(s) && NoReplayInv(s) && s.row.noReplay && Local(s) && WaitingIsUncertain(s)
    requires step.ReviveRow? && s.row.status == Failed ==> !s.row.uncertain
    ensures Local(Apply(s, step)) && WaitingIsUncertain(Apply(s, step))
  {
    hide RetryDelay, ClaimsIn;
    if step.ReviveRow? {
      hide RowShape, Owned;
    } else {
      StepKeepsLocal(s, step);
    }
  }

  lemma {:induction false} CertainRunsKeepLocal(s: State, steps: seq<Step>)
    requires Inv(s) && NoReplayInv(s) && s.row.noReplay && Local(s) && WaitingIsUncertain(s)
    requires Obeys(CERTAIN, s, steps)
    ensures var t := Run(s, steps);
      Inv(t) && NoReplayInv(t) && t.row.noReplay && Local(t) && WaitingIsUncertain(t)
    decreases |steps|
  {
    hide Apply, Inv, NoReplayInv, Local, WaitingIsUncertain;
    if steps != [] {
      StepKeepsInv(s, steps[0]);
      StepKeepsNoReplay(s, steps[0]);
      StepKeepsCertainty(s, steps[0]);
      CertainRunsKeepLocal(Apply(s, steps[0]), steps[1..]);
    }
  }

  /** Whoever revives a no-replay row only while its stored outcome is certain never lets it repeat, by wall
      clock too, however often it is revived; nor is it entered more often in a period than it was claimed. */
  lemma CertainRevivalsNeverRepeat(row: Row, steps: seq<Step>, j: nat)
    requires IsNew(row) && row.noReplay && Obeys(CERTAIN, Start(row), steps)
    ensures var t := Run(Start(row), steps);
      !Repeats(t, j) && EnteredIn(t.claims, t.epoch) <= t.row.runAttempts
  {
    CertainRunsKeepLocal(Start(row), steps);
    var t := Run(Start(row), steps);
    NothingRepeatsLocally(t, j);
    LocalEntriesAreClaims(t);
  }

  // ----- no other rule that reads the row is safe -----

  /** States of a row that is revived by the rule alone. */
  ghost predicate ReachableBy(rule: Row -> bool, row: Row, s: State) {
    exists steps :: s == Run(Start(row), steps) && Obeys(rule, Start(row), steps)
  }

  /** A row that looks like this one may have a worker waiting. */
  ghost predicate HasTwin(rule: Row -> bool, row: Row, r: Row) {
    exists t :: ReachableBy(rule, row, t) && t.row == r && HasWaitingWorker(t)
  }

  /** Whoever sees a running row, whatever its lease, or a failed one with an uncertain outcome cannot tell. */
  ghost predicate HasTwins(rule: Row -> bool, row: Row, s: State) {
    && (s.row.status != Failed ==> !s.row.uncertain)
    && (s.row.status == Running ==> forall at: int :: HasTwin(rule, row, s.row.(lease := Some(at))))
    && (s.row.status == Failed && s.row.uncertain ==> HasTwin(rule, row, s.row))
  }

  lemma {:induction false} ObeysContinues(rule: Row -> bool, s: State, a: seq<Step>, b: seq<Step>)
    requires Obeys(rule, s, a) && Obeys(rule, Run(s, a), b)
    ensures Obeys(rule, s, a + b)
    decreases |a|
  {
    hide Apply;
    if a == [] {
      assert a + b == b;
    } else {
      assert (a + b)[1..] == a[1..] + b;
      ObeysContinues(rule, Apply(s, a[0]), a[1..], b);
    }
  }

  lemma RuleRunContinues(rule: Row -> bool, row: Row, s: State, steps: seq<Step>)
    requires ReachableBy(rule, row, s) && Obeys(rule, s, steps)
    ensures ReachableBy(rule, row, Run(s, steps))
  {
    hide Apply, Run, Obeys;
    var before :| s == Run(Start(row), before) && Obeys(rule, Start(row), before);
    ObeysContinues(rule, Start(row), before, steps);
    RunsContinue(Start(row), before, steps);
  }

  lemma RuleRunStep(rule: Row -> bool, row: Row, s: State, step: Step)
    requires ReachableBy(rule, row, s) && (step.ReviveRow? && s.row.status == Failed ==> rule(s.row))
    ensures ReachableBy(rule, row, Apply(s, step))
  {
    hide Apply;
    OneStep(s, step);
    assert Obeys(rule, s, [step]);
    RuleRunContinues(rule, row, s, [step]);
  }

  /** A running row that is failed as uncertain might as well have lost a worker that never entered. */
  lemma LostWorkerLooksAlike(rule: Row -> bool, row: Row, r: Row, now: int)
    requires r.status == Running && r.noReplay && HasTwin(rule, row, r.(lease := Some(now)))
    ensures HasTwin(rule, row, PublishClaim(r.(lease := Some(now)), now, 0).0)
  {
    hide Run, Obeys;
    var t :| ReachableBy(rule, row, t) && t.row == r.(lease := Some(now)) && HasWaitingWorker(t);
    var i :| 0 <= i < |t.claims| && IsWaiting(t.claims[i]);
    RuleRunStep(rule, row, t, Publish(now));
    var u := Apply(t, Publish(now));
    assert IsWaiting(u.claims[i]);
  }

  lemma ClaimHasTwins(rule: Row -> bool, row: Row, s: State, token: nat, now: int)
    requires ReachableBy(rule, row, s) && token in s.sent && Claim(s.row, token, now).1
    ensures var r := Apply(s, Deliver(token, now)).row;
      forall at: int :: HasTwin(rule, row, r.(lease := Some(at)))
  {
    hide Run, Obeys, ReachableBy;
    var r := Apply(s, Deliver(token, now)).row;
    forall at: int ensures HasTwin(rule, row, r.(lease := Some(at))) {
      var step := Deliver(token, at - s.row.timeout);
      RuleRunStep(rule, row, s, step);
      var t := Apply(s, step);
      assert IsWaiting(t.claims[|s.claims|]);
    }
  }

  lemma StepKeepsTwins(rule: Row -> bool, row: Row, s: State, step: Step)
    requires ReachableBy(rule, row, s) && HasTwins(rule, row, s) && s.row.noReplay
    ensures HasTwins(rule, row, Apply(s, step))
  {
    hide RetryDelay, HasTwin, ReachableBy;
    var t := Apply(s, step);
    if t.row != s.row {
      match step
      case Publish(now) =>
        if s.row.status == Running { LostWorkerLooksAlike(rule, row, s.row, now); }
      case Deliver(token, now) =>
        if token in s.sent && Claim(s.row, token, now).1 { ClaimHasTwins(rule, row, s, token, now); }
      case End(i, o, now) =>
        if s.row.status == Running { LostWorkerLooksAlike(rule, row, s.row, now); }
      case _ =>
    }
  }

  lemma {:induction false} RunKeepsTwins(rule: Row -> bool, row: Row, s: State, steps: seq<Step>)
    requires ReachableBy(rule, row, s) && HasTwins(rule, row, s) && Inv(s) && s.row.noReplay && Obeys(rule, s, steps)
    ensures HasTwins(rule, row, Run(s, steps))
    decreases |steps|
  {
    hide Apply, HasTwins, Inv, ReachableBy;
    if steps != [] {
      StepKeepsInv(s, steps[0]);
      StepKeepsTwins(rule, row, s, steps[0]);
      RuleRunStep(rule, row, s, steps[0]);
      RunKeepsTwins(rule, row, Apply(s, steps[0]), steps[1..]);
    }
  }

  /** The rule never lets the row repeat by wall clock. */
  ghost predicate RuleIsSafe(rule: Row -> bool, row: Row) {
    forall steps: seq<Step>, j: nat :: Obeys(rule, Start(row), steps) ==> !Repeats(Run(Start(row), steps), j)
  }

  /** It refuses every uncertain row it can meet. */
  ghost predicate RefusesUncertain(rule: Row -> bool, row: Row) {
    forall s :: ReachableBy(rule, row, s) && s.row.status == Failed && s.row.uncertain ==> !rule(s.row)
  }

  lemma {:induction false} RefusingIsCertain(rule: Row -> bool, row: Row, s: State, steps: seq<Step>)
    requires RefusesUncertain(rule, row) && ReachableBy(rule, row, s) && Obeys(rule, s, steps)
    ensures Obeys(CERTAIN, s, steps)
    decreases |steps|
  {
    hide Apply, ReachableBy;
    if steps != [] {
      RuleRunStep(rule, row, s, steps[0]);
      RefusingIsCertain(rule, row, Apply(s, steps[0]), steps[1..]);
    }
  }

  lemma RevivedTwinRepeats(rule: Row -> bool, row: Row, s: State)
    requires IsNew(row) && row.noReplay && ReachableBy(rule, row, s)
    requires s.row.status == Failed && rule(s.row) && HasWaitingWorker(s)
    ensures !RuleIsSafe(rule, row)
  {
    hide Run, Obeys, Inv, RuleIsSafe;
    var before :| s == Run(Start(row), before) && Obeys(rule, Start(row), before);
    RunKeepsInv(Start(row), before) by { assert Inv(Start(row)) by { NewRowFits(row); } }
    AliveStaysUnrecorded(Start(row), before);
    var i :| 0 <= i < |s.claims| && IsWaiting(s.claims[i]);
    RuleRunStep(rule, row, s, ReviveRow(0));
    var r := Apply(s, ReviveRow(0));
    assert r.row.runAttempts < r.row.maxRunAttempts by { RowsHaveAttempts(s); }
    var again := [Enter(i), Publish(0), BrokerTakes(r.nextToken), Deliver(r.nextToken, 0)];
    OldWorkerRepeats(r, i, 0);
    NoRevivalObeys(rule, r, again);
    RuleRunContinues(rule, row, r, again);
    UnsafeRun(rule, row, Run(r, again), |r.claims|);
  }

  lemma NewRowFits(row: Row)
    requires IsNew(row)
    ensures Inv(Start(row))
  {}

  lemma RowsHaveAttempts(s: State)
    requires Inv(s)
    ensures s.row.maxRunAttempts >= 1
  {}

  lemma {:induction false} NoRevivalObeys(rule: Row -> bool, s: State, steps: seq<Step>)
    requires NoRevival(steps)
    ensures Obeys(rule, s, steps)
    decreases |steps|
  {
    hide Apply;
    if steps != [] { NoRevivalObeys(rule, Apply(s, steps[0]), steps[1..]); }
  }

  lemma UnsafeRun(rule: Row -> bool, row: Row, s: State, j: nat)
    requires ReachableBy(rule, row, s) && Repeats(s, j)
    ensures !RuleIsSafe(rule, row)
  {
    hide Run, Obeys, Repeats;
  }

  /** A rule that reads only the row is safe if and only if it refuses every row with an uncertain outcome. */
  lemma RulesAreSafeIffTheyRefuseUncertain(rule: Row -> bool, row: Row)
    requires IsNew(row) && row.noReplay
    ensures RuleIsSafe(rule, row) <==> RefusesUncertain(rule, row)
  {
    hide Run, Obeys, ReachableBy, Repeats, HasTwins, Inv;
    assert ReachableBy(rule, row, Start(row)) by { NewIsReachable(rule, row); }
    if RefusesUncertain(rule, row) {
      forall steps: seq<Step>, j: nat | Obeys(rule, Start(row), steps) ensures !Repeats(Run(Start(row), steps), j) {
        RefusingIsCertain(rule, row, Start(row), steps);
        CertainRevivalsNeverRepeat(row, steps, j);
      }
    } else {
      var s :| ReachableBy(rule, row, s) && s.row.status == Failed && s.row.uncertain && rule(s.row);
      UncertainHasTwin(rule, row, s);
      var t :| ReachableBy(rule, row, t) && t.row == s.row && HasWaitingWorker(t);
      RevivedTwinRepeats(rule, row, t);
    }
  }

  lemma NewIsReachable(rule: Row -> bool, row: Row)
    ensures ReachableBy(rule, row, Start(row))
  {
    assert Run(Start(row), []) == Start(row) && Obeys(rule, Start(row), []);
  }

  lemma UncertainHasTwin(rule: Row -> bool, row: Row, s: State)
    requires IsNew(row) && row.noReplay && ReachableBy(rule, row, s) && s.row.status == Failed && s.row.uncertain
    ensures HasTwin(rule, row, s.row)
  {
    hide Run, Obeys;
    var steps :| s == Run(Start(row), steps) && Obeys(rule, Start(row), steps);
    NewIsReachable(rule, row);
    NewRowFits(row);
    RunKeepsTwins(rule, row, Start(row), steps);
  }

  // ----- fencing and bounds -----

  /** An outcome changes the row only from the claim that owns it: the latest one, of this period. */
  lemma OnlyTheOwnerRecords(s: State, i: nat, o: Outcome, now: int)
    requires Reachable(s) && Apply(s, End(i, o, now)).row != s.row
    ensures i == |s.claims| - 1 && s.claims[i].epoch == s.epoch
    ensures s.row.status == Running && s.row.token == Some(s.claims[i].token)
    ensures s.claims[i].attempt == s.row.runAttempts
  {
    ReachableIsSound(s);
  }

  /** Success is final, failure ends only with a revival, and a closed row changes in no other way. */
  lemma ClosedRowsStayClosed(s: State, step: Step)
    requires Terminal(s.row.status)
    ensures s.row.status != Failed || !step.ReviveRow? ==> Apply(s, step).row == s.row
  {
  }

  lemma {:induction false} EntriesAreClaims(claims: seq<Claimed>, epoch: nat)
    ensures EntriesIn(claims, epoch) <= ClaimsIn(claims, epoch)
  {
    if claims != [] { EntriesAreClaims(claims[..|claims| - 1], epoch); }
  }

  /** Claims of a revival period enter the body at most as often as attempts were counted in it, and these
      are limited. */
  lemma EntriesAreLimited(s: State)
    requires Reachable(s)
    ensures EntriesIn(s.claims, s.epoch) <= s.row.runAttempts <= s.row.maxRunAttempts
    ensures Terminal(s.row.status) ==> s.row.lease == None && s.row.finishedAt.Some?
    ensures !Terminal(s.row.status) ==> s.row.finishedAt == None
  {
    ReachableIsSound(s);
    EntriesAreClaims(s.claims, s.epoch);
  }

  // ----- entries by wall clock -----

  /** Entries made in a revival period, whenever their workers claimed. */
  function EnteredIn(claims: seq<Claimed>, epoch: nat): nat {
    if claims == [] then 0
    else
      var c := claims[|claims| - 1];
      EnteredIn(claims[..|claims| - 1], epoch) + if c.order.Some? && c.during == epoch then 1 else 0
  }

  lemma {:induction false} EnteredAreClaims(claims: seq<Claimed>, epoch: nat)
    requires forall i :: 0 <= i < |claims| && claims[i].order.Some? && claims[i].during == epoch ==>
      claims[i].epoch == epoch
    ensures EnteredIn(claims, epoch) <= ClaimsIn(claims, epoch)
  {
    if claims != [] { EnteredAreClaims(claims[..|claims| - 1], epoch); }
  }

  lemma LocalEntriesAreClaims(s: State)
    requires Inv(s) && Local(s)
    ensures EnteredIn(s.claims, s.epoch) <= s.row.runAttempts
  {
    EnteredAreClaims(s.claims, s.epoch);
  }

  lemma {:induction false} LocalRunsStayLocal(s: State, steps: seq<Step>)
    requires Inv(s) && Local(s) && NoRevival(steps)
    ensures Inv(Run(s, steps)) && Local(Run(s, steps))
    decreases |steps|
  {
    hide Apply, Inv, Local;
    if steps != [] {
      StepKeepsInv(s, steps[0]);
      StepKeepsLocal(s, steps[0]);
      LocalRunsStayLocal(Apply(s, steps[0]), steps[1..]);
    }
  }

  lemma {:induction false} OneEntryCounts(claims: seq<Claimed>, i: nat, epoch: nat)
    requires i < |claims| && claims[i].order.Some? && claims[i].during == epoch
    ensures EnteredIn(claims, epoch) >= 1
  {
    if i < |claims| - 1 { OneEntryCounts(claims[..|claims| - 1], i, epoch); }
  }

  /** As long as the row is not revived again, entries stay within the counted attempts. */
  ghost predicate EntriesStayCounted(s: State) {
    forall steps: seq<Step> :: NoRevival(steps) ==>
      EnteredIn(Run(s, steps).claims, Run(s, steps).epoch) <= Run(s, steps).row.runAttempts
  }

  /** Counted by wall clock, the bound holds after a revival exactly when no old worker is still waiting. */
  lemma EntriesStayCountedIffNobodyWaits(s: State, availableAt: int)
    requires Reachable(s) && s.row.status == Failed
    ensures EntriesStayCounted(Apply(s, ReviveRow(availableAt))) <==> !HasWaitingWorker(s)
  {
    hide EnteredIn, RowShape, Owned;
    var r := Apply(s, ReviveRow(availableAt));
    ReachableIsSound(s);
    StepKeepsInv(s, ReviveRow(availableAt));
    if HasWaitingWorker(s) {
      var i :| 0 <= i < |s.claims| && IsWaiting(s.claims[i]);
      RunFirst(r, Enter(i), []);
      assert [Enter(i)] + [] == [Enter(i)];
      var t := Run(r, [Enter(i)]);
      OneEntryCounts(t.claims, i, t.epoch);
      assert NoRevival([Enter(i)]);
    } else {
      assert Local(r);
      forall steps: seq<Step> | NoRevival(steps)
        ensures EnteredIn(Run(r, steps).claims, Run(r, steps).epoch) <= Run(r, steps).row.runAttempts
      {
        LocalRunsStayLocal(r, steps);
        LocalEntriesAreClaims(Run(r, steps));
      }
    }
  }

  /** A row that was never revived keeps the bound. */
  lemma FirstPeriodStaysCounted(row: Row)
    requires IsNew(row)
    ensures EntriesStayCounted(Start(row))
  {
    forall steps: seq<Step> | NoRevival(steps)
      ensures EnteredIn(Run(Start(row), steps).claims, Run(Start(row), steps).epoch)
           <= Run(Start(row), steps).row.runAttempts
    {
      LocalRunsStayLocal(Start(row), steps);
      LocalEntriesAreClaims(Run(Start(row), steps));
    }
  }

  /** The bound does fail, for jobs of both kinds: an old worker enters a revived row without any attempt. */
  lemma EntriesCanOutnumberAttempts(row: Row)
    requires IsNew(row)
    ensures exists s ::
      Reachable(s) && s.row.noReplay == row.noReplay && EnteredIn(s.claims, s.epoch) > s.row.runAttempts
  {
    hide EnteredIn, Run;
    if row.noReplay { WaitingWorkerCanOutliveItsLease(row); } else { WaitingWorkerCanOutliveReplays(row); }
    var s :| Reachable(s) && s.row.noReplay == row.noReplay && s.row.status == Failed && HasWaitingWorker(s);
    var i :| 0 <= i < |s.claims| && IsWaiting(s.claims[i]);
    var r := Apply(s, ReviveRow(0));
    var t := Apply(r, Enter(i));
    OneEntryCounts(t.claims, i, t.epoch);
    OneStep(s, ReviveRow(0));
    OneStep(r, Enter(i));
    StaysReachable(s, [ReviveRow(0)]);
    StaysReachable(r, [Enter(i)]);
    assert Reachable(t) && t.row.noReplay == row.noReplay;
  }

  lemma OneStep(s: State, step: Step)
    ensures Run(s, [step]) == Apply(s, step)
  {
    RunFirst(s, step, []);
    assert [step] + [] == [step];
  }

  lemma {:induction false} RunsContinue(s: State, a: seq<Step>, b: seq<Step>)
    ensures Run(s, a + b) == Run(Run(s, a), b)
    decreases |a|
  {
    hide Apply;
    if a == [] {
      assert a + b == b;
    } else {
      assert (a + b)[1..] == a[1..] + b;
      RunsContinue(Apply(s, a[0]), a[1..], b);
    }
  }

  lemma StaysReachable(s: State, steps: seq<Step>)
    requires Reachable(s)
    ensures Reachable(Run(s, steps))
  {
    hide Run;
    var row, before :| IsNew(row) && s == Run(Start(row), before);
    RunsContinue(Start(row), before, steps);
  }

  // ----- progress -----

  function Rank(st: Status): nat {
    match st
    case Running => 4
    case Pending => 3
    case Publishing => 2
    case Published => 1
    case _ => 0
  }

  /** Remaining attempts first, then how far the current attempt has come. */
  function Potential(r: Row): nat
    requires r.runAttempts <= r.maxRunAttempts
  {
    if Terminal(r.status) then 0 else 5 * (r.maxRunAttempts - r.runAttempts) + Rank(r.status)
  }

  /** The broker refused the message, or the row is taken back because nobody claimed the delivery in time. */
  predicate LosesPublication(s: State, step: Step) {
    Apply(s, step).row != s.row
    && (step.BrokerFails? || (step.Publish? && (s.row.status == Publishing || s.row.status == Published)))
  }

  predicate Advances(s: State, step: Step) {
    Apply(s, step).row != s.row && !LosesPublication(s, step) && !step.ReviveRow?
  }

  lemma StepsLowerPotential(s: State, step: Step)
    requires Inv(s) && !step.ReviveRow?
    ensures RowShape(Apply(s, step).row)
    ensures Advances(s, step) ==> Potential(Apply(s, step).row) < Potential(s.row)
    ensures LosesPublication(s, step) ==> Potential(Apply(s, step).row) <= Potential(s.row) + 1
  {
    hide RetryDelay, GivesUp, Uncertain, ClaimsShape, ClaimsIn;
    StepKeepsRowShape(s, step);
  }

  function Advanced(s: State, steps: seq<Step>): nat
    decreases |steps|
  {
    if steps == [] then 0
    else (if Advances(s, steps[0]) then 1 else 0) + Advanced(Apply(s, steps[0]), steps[1..])
  }

  function Losses(s: State, steps: seq<Step>): nat
    decreases |steps|
  {
    if steps == [] then 0
    else (if LosesPublication(s, steps[0]) then 1 else 0) + Losses(Apply(s, steps[0]), steps[1..])
  }

  /** A row advances at most 5 * max + 4 times plus once per lost publication before it is closed. */
  lemma {:induction false} AdvancesAreBounded(s: State, steps: seq<Step>)
    requires Inv(s) && NoRevival(steps)
    ensures Inv(Run(s, steps))
    ensures Advanced(s, steps) + Potential(Run(s, steps).row) <= Potential(s.row) + Losses(s, steps)
    ensures Potential(s.row) <= 5 * s.row.maxRunAttempts + 4
    decreases |steps|
  {
    hide Apply, Ownership, ClaimsShape;
    if steps != [] {
      StepKeepsInv(s, steps[0]);
      StepsLowerPotential(s, steps[0]);
      AdvancesAreBounded(Apply(s, steps[0]), steps[1..]);
    }
  }

  /** An open row whose current message is with the broker can always advance, so losses aside it gets closed. */
  lemma OpenRowsCanAdvance(s: State) returns (step: Step)
    requires Reachable(s) && !Terminal(s.row.status)
    requires s.row.status == Publishing || s.row.status == Published ==>
      s.row.token.Some? && s.row.token.value in s.sent
    ensures Advances(s, step)
  {
    hide RetryDelay, ClaimsIn;
    ReachableIsSound(s);
    if s.row.status == Pending {
      step := Publish(s.row.availableAt);
    } else if s.row.status == Running {
      step := Publish(s.row.lease.value);
    } else {
      step := Deliver(s.row.token.value, 0);
    }
  }
}
