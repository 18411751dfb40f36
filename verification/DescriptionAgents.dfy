/** The worker that generates a description: models tried in turn, each call paid through an operation, while
    sweeper, operator and other workers act between any two of its steps (apps/ai_agent/services.py). */
module DescriptionAgents {
  import opened Common
  import opened Wallet
  import opened Operations

  const MAX_VALIDATION_RETRIES := 2

  /** What the provider and the checks of its answer lead to. */
  datatype Reply = Valid(actual: int) | Invalid(actual: int) | NotAccepted | Unclear

  /** The world of attempt n: what others do before its k-th transaction, the provider's reply, a reservation
      key, the clock, and whether the database refuses the settlement. */
  datatype World = World(
    others: (nat, nat) -> seq<Step>, reply: nat -> Reply, key: nat -> nat, now: nat -> int, refuses: nat -> bool)

  /** How one attempt ends; the last three leave the loops. */
  datatype Verdict = NoCredits | Rejected | NextModel | Generated | Uncertain | Refused

  predicate Leaves(v: Verdict) { v == Generated || v == Uncertain || v == Refused }

  /** Operations keep their identity; a decision, a boundary mark and a call are for ever. */
  ghost predicate Extends(s: State, t: State) {
    |s.ops| <= |t.ops| && forall i :: 0 <= i < |s.ops| ==> OpExtends(s.ops[i], t.ops[i])
  }

  ghost predicate OpExtends(o: Op, p: Op) {
    && p.kind == o.kind && p.key == o.key && p.amount == o.amount
    && (o.status != Reserved ==> p.status != Reserved)
    && (Closed(o) ==> p.status == o.status && p.charged == o.charged)
    && (o.networkStarted.Some? ==> p.networkStarted == o.networkStarted)
    && (o.called ==> p.called)
  }

  lemma StepExtends(s: State, step: Step)
    ensures Extends(s, Apply(s, step))
  {
    hide Reserve, Release, Settle, WalletAfter;
  }

  lemma {:induction false} RunExtends(s: State, steps: seq<Step>)
    ensures Extends(s, Run(s, steps))
    decreases |steps|
  {
    hide Apply;
    if steps != [] {
      StepExtends(s, steps[0]);
      RunExtends(Apply(s, steps[0]), steps[1..]);
    }
  }

  /** An operation that this worker began and for which it called the provider. */
  ghost predicate WasCalled(o: Op, domain: nat) {
    o.kind == ProviderCall(domain) && o.networkStarted.Some? && o.called
  }

  lemma BeginAdds(s: State, domain: nat, amount: int, key: nat, now: int)
    requires DomainIsFree(s.ops, domain) && Reserve(s.wallet, amount, key, now).Granted?
    ensures var t := Apply(s, Begin(domain, amount, key, now));
      && |t.ops| == |s.ops| + 1 && t.ops[|s.ops|].kind == ProviderCall(domain) && t.ops[|s.ops|].status == Reserved
  {
    hide Reserve;
  }

  lemma StartMarks(s: State, i: nat, now: int)
    requires i < |s.ops| && s.ops[i].kind.ProviderCall?
    ensures MarkStarted(s.ops[i], now).Err? <==> s.ops[i].status != Reserved
    ensures MarkStarted(s.ops[i], now).Ok? ==> Apply(s, Start(i, now)).ops[i].networkStarted.Some?
  {}

  lemma CallIsMarked(s: State, i: nat)
    requires i < |s.ops| && s.ops[i].kind.ProviderCall? && s.ops[i].networkStarted.Some?
    ensures Apply(s, Call(i)).ops[i].called
  {}

  /** Release, settlement and doubt all leave the operation other than reserved. */
  lemma EndingsTakeHold(s: State, i: nat, actual: int, applyRequired: bool)
    requires i < |s.ops| && s.ops[i].kind.ProviderCall?
    ensures Apply(s, Doubt(i)).ops[i].status != Reserved
    ensures if ReleaseOp(s.ops[i], s.wallet).Err? then s.ops[i].status == Settled
            else Apply(s, WorkerRelease(i)).ops[i].status == Released
    ensures SettleOp(s.ops[i], s.wallet, actual, applyRequired, true).Ok? ==>
      Apply(s, WorkerSettle(i, actual, applyRequired, true)).ops[i].status == Settled
  {
    hide Release, Settle;
  }

  lemma Later(s: State, t: State, u: State)
    requires Extends(s, t) && Extends(t, u)
    ensures Extends(s, u)
  {
    forall i | 0 <= i < |s.ops| ensures OpExtends(s.ops[i], u.ops[i]) {
      assert OpExtends(s.ops[i], t.ops[i]) && OpExtends(t.ops[i], u.ops[i]);
    }
  }

  /** The worker's own step, then whatever the others do. */
  function Act(s: State, step: Step, others: seq<Step>): State { Run(Apply(s, step), others) }

  lemma ActExtends(s: State, step: Step, others: seq<Step>)
    ensures Extends(s, Apply(s, step)) && Extends(Apply(s, step), Act(s, step, others))
    ensures Extends(s, Act(s, step, others))
  {
    hide Apply, Run, Extends;
    StepExtends(s, step);
    RunExtends(Apply(s, step), others);
    Later(s, Apply(s, step), Act(s, step, others));
  }

  /** Ends the operation of an answered call; an error on the way leaves it to reconciliation. */
  method SettleCall(s: State, i: nat, actual: int, applyRequired: bool, refuses: bool)
      returns (t: State, settled: bool)
    requires Inv(s) && i < |s.ops| && s.ops[i].kind.ProviderCall?
    ensures Inv(t) && Extends(s, t)
    ensures t.ops[i].status != Reserved && (settled ==> t.ops[i].status == Settled)
    ensures settled <==> !refuses && SettleOp(s.ops[i], s.wallet, actual, applyRequired, true).Ok?
    ensures t == Apply(s, if settled then WorkerSettle(i, actual, applyRequired, true) else Doubt(i))
  {
    hide Apply, SettleOp, Inv;
    EndingsTakeHold(s, i, actual, applyRequired);
    settled := !refuses && SettleOp(s.ops[i], s.wallet, actual, applyRequired, true).Ok?;
    var step := if settled then WorkerSettle(i, actual, applyRequired, true) else Doubt(i);
    StepExtends(s, step);
    StepKeepsInv(s, step);
    t := Apply(s, step);
  }

  // ----- the moments of one attempt -----

  /** What the worker finds when it begins, marks the boundary and has its answer. */
  ghost function AtBegin(s: State, w: World, n: nat): State { Run(s, w.others(n, 0)) }

  ghost function AtStart(s: State, domain: nat, estimate: int, w: World, n: nat): State {
    Act(AtBegin(s, w, n), Begin(domain, estimate, w.key(n), w.now(n)), w.others(n, 1))
  }

  ghost function AtAnswer(s: State, domain: nat, estimate: int, w: World, n: nat): State {
    var i := |AtBegin(s, w, n).ops|;
    Act(Apply(AtStart(s, domain, estimate, w, n), Start(i, w.now(n))), Call(i), w.others(n, 2))
  }

  /** An attempt is refused for a busy domain or a taken key, and has no credits exactly if the wallet says so. */
  ghost predicate BeginsAs(s: State, domain: nat, estimate: int, w: World, n: nat, verdict: Verdict, op: Option<nat>,
                           after: State)
  {
    var at := AtBegin(s, w, n);
    var r := Reserve(at.wallet, estimate, w.key(n), w.now(n));
    && (op.Some? <==> DomainIsFree(at.ops, domain) && r.Granted?)
    && (op.Some? ==> op.value == |at.ops|)
    && (verdict == NoCredits <==> DomainIsFree(at.ops, domain) && r == Insufficient)
    && (op.None? && verdict != NoCredits ==> verdict == Refused)
    && (op.None? ==> after == at)
  }

  /** Once begun, it is refused if others have moved the operation before the call; otherwise the provider's
      answer decides: an unknown outcome is left uncertain, an unaccepted request is released unless it was
      settled, and an accepted one is settled at its price, as a result exactly if it is valid, or left
      uncertain. */
  ghost predicate EndsAs(s: State, domain: nat, estimate: int, w: World, n: nat, verdict: Verdict, after: State) {
    var i := |AtBegin(s, w, n).ops|;
    var start, at := AtStart(s, domain, estimate, w, n), AtAnswer(s, domain, estimate, w, n);
    && i < |start.ops| && (start.ops[i].status != Reserved ==> verdict == Refused && after == start)
    && (start.ops[i].status == Reserved ==>
          i < |at.ops|
          && match w.reply(n)
             case Unclear => verdict == Uncertain && after == Apply(at, Doubt(i))
             case NotAccepted =>
               if at.ops[i].status == Settled then verdict == Refused && after == at
               else verdict == NextModel && after == Apply(at, WorkerRelease(i))
             case Invalid(actual) => IsAccepted(at, i, actual, false, w.refuses(n), verdict, after)
             case Valid(actual) => IsAccepted(at, i, actual, true, w.refuses(n), verdict, after))
  }

  ghost predicate IsAccepted(at: State, i: nat, actual: int, valid: bool, refuses: bool, verdict: Verdict, after: State)
    requires i < |at.ops|
  {
    if !refuses && CanBeSettled(at.ops[i]) then
      verdict == (if valid then Generated else Rejected) && after == Apply(at, WorkerSettle(i, actual, valid, true))
    else verdict == Uncertain && after == Apply(at, Doubt(i))
  }

  /** A settlement goes through unless the operation was released. */
  predicate CanBeSettled(o: Op) { o.status != Released }

  lemma SettlesUnlessReleased(s: State, i: nat, actual: int, applyRequired: bool)
    requires Inv(s) && i < |s.ops|
    ensures SettleOp(s.ops[i], s.wallet, actual, applyRequired, true).Ok? <==> CanBeSettled(s.ops[i])
  {
    hide Settle, HasKey, Booking, KeysFit;
    if Held(s.ops[i]) { SettleTakesTheAmount(s, i, actual); }
  }

  /** One turn of the inner loop: the state, how it ended and the operation it began. */
  method Attempt(s0: State, domain: nat, estimate: int, w: World, n: nat)
      returns (s: State, verdict: Verdict, op: Option<nat>)
    requires Inv(s0)
    ensures Inv(s) && Extends(s0, s)
    ensures op.Some? ==>
      && |s0.ops| <= op.value < |s.ops| && s.ops[op.value].kind == ProviderCall(domain)
      && s.ops[op.value].status != Reserved
      && (verdict != Refused ==> WasCalled(s.ops[op.value], domain))
    ensures verdict == Rejected || verdict == Generated ==> op.Some? && s.ops[op.value].status == Settled
    ensures verdict == NextModel ==> op.Some? && s.ops[op.value].status == Released
    ensures (verdict == Uncertain ==> op.Some?) && (verdict == NoCredits ==> op.None?)
    ensures BeginsAs(s0, domain, estimate, w, n, verdict, op, s)
    ensures op.Some? ==> EndsAs(s0, domain, estimate, w, n, verdict, s)
    ensures op.None? ==> verdict == NoCredits || verdict == Refused
  {
    hide Apply, Run, Act, MarkStarted, ReleaseOp, Reserve, DomainIsFree, Inv, SettleOp;
    s, op := Run(s0, w.others(n, 0)), None;
    RunExtends(s0, w.others(n, 0));
    RunKeepsInv(s0, w.others(n, 0));
    if !DomainIsFree(s.ops, domain) { return s, Refused, None; }
    match Reserve(s.wallet, estimate, w.key(n), w.now(n)) {
      case Insufficient => return s, NoCredits, None;
      case KeyCollision => return s, Refused, None;
      case Granted(_) =>
    }
    var i := |s.ops|;
    op := Some(i);
    BeginAdds(s, domain, estimate, w.key(n), w.now(n));
    s := AfterStep(s0, s, Begin(domain, estimate, w.key(n), w.now(n)), w.others(n, 1));
    assert s == AtStart(s0, domain, estimate, w, n);
    StartMarks(s, i, w.now(n));
    if MarkStarted(s.ops[i], w.now(n)).Err? { return s, Refused, op; }
    s := AfterStep(s0, s, Start(i, w.now(n)), []);
    CallIsMarked(s, i);
    StepExtends(s, Call(i));
    ghost var marked, entered := s, Apply(s, Call(i));
    s := AfterStep(s0, s, Call(i), w.others(n, 2));
    assert s == AtAnswer(s0, domain, estimate, w, n);
    assert OpExtends(marked.ops[i], s.ops[i]) && OpExtends(entered.ops[i], s.ops[i]);
    assert WasCalled(s.ops[i], domain);
    ghost var called := s;
    match w.reply(n) {
      case Valid(actual) =>
        var before := s;
        var settled;
        SettlesUnlessReleased(s, i, actual, true);
        s, settled := SettleCall(s, i, actual, true, w.refuses(n));
        Later(s0, before, s);
        verdict := if settled then Generated else Uncertain;
      case Invalid(actual) =>
        var before := s;
        var settled;
        SettlesUnlessReleased(s, i, actual, false);
        s, settled := SettleCall(s, i, actual, false, w.refuses(n));
        Later(s0, before, s);
        verdict := if settled then Rejected else Uncertain;
      case NotAccepted =>
        EndingsTakeHold(s, i, 0, false);
        if ReleaseOp(s.ops[i], s.wallet).Err? { return s, Refused, op; }
        ReleasesUnlessSettled(s, i);
        s := AfterStep(s0, s, WorkerRelease(i), []);
        verdict := NextModel;
      case Unclear =>
        EndingsTakeHold(s, i, 0, false);
        s := AfterStep(s0, s, Doubt(i), []);
        verdict := Uncertain;
    }
    assert OpExtends(called.ops[i], s.ops[i]);
  }

  lemma ReleasesUnlessSettled(s: State, i: nat)
    requires i < |s.ops|
    ensures ReleaseOp(s.ops[i], s.wallet).Err? <==> s.ops[i].status == Settled
  {
    hide Release;
  }

  method AfterStep(s0: State, s: State, step: Step, others: seq<Step>) returns (t: State)
    requires Inv(s) && Extends(s0, s)
    ensures t == Act(s, step, others) && Extends(s0, t) && Extends(s, t) && Extends(Apply(s, step), t) && Inv(t)
    ensures others == [] ==> t == Apply(s, step)
  {
    hide Apply, Extends, Inv;
    ActExtends(s, step, others);
    StepKeepsInv(s, step);
    RunKeepsInv(Apply(s, step), others);
    t := Act(s, step, others);
    Later(s0, s, t);
  }

  /** What is known of the operations that a generation has begun, in order. */
  ghost predicate AllDecided(s: State, begun: seq<nat>, domain: nat) {
    forall k :: 0 <= k < |begun| ==>
      begun[k] < |s.ops| && WasCalled(s.ops[begun[k]], domain) && Closed(s.ops[begun[k]])
  }

  lemma DecidedStayDecided(s: State, t: State, begun: seq<nat>, domain: nat)
    requires AllDecided(s, begun, domain) && Extends(s, t)
    ensures AllDecided(t, begun, domain)
  {
    forall k | 0 <= k < |begun|
      ensures begun[k] < |t.ops| && WasCalled(t.ops[begun[k]], domain) && Closed(t.ops[begun[k]])
    {
      assert OpExtends(s.ops[begun[k]], t.ops[begun[k]]);
    }
  }

  // ----- the order of the attempts -----

  /** One attempt of a generation: which candidate, for which time, from what, how it ended, and what it began. */
  datatype Turn = Turn(candidate: nat, time: nat, at: State, verdict: Verdict, op: Option<nat>, after: State)

  /** The first model may be tried twice, every other one once. */
  function AttemptsFor(candidate: nat): nat { if candidate == 0 then MAX_VALIDATION_RETRIES else 1 }

  /** What follows a turn: nothing after one that leaves the loops; the next model after an unaccepted request
      or the last try of a model; the same model again otherwise. None means that the generation is over. */
  function Following(t: Turn, models: nat): Option<(nat, nat)> {
    if Leaves(t.verdict) then None
    else if t.verdict != NextModel && t.time + 1 < AttemptsFor(t.candidate) then Some((t.candidate, t.time + 1))
    else if t.candidate + 1 < models then Some((t.candidate + 1, 0))
    else None
  }

  /** The turns begin with the first model, follow one another, and end exactly when nothing follows. */
  ghost predicate IsWholeGeneration(turns: seq<Turn>, models: nat) {
    && (turns == [] <==> models == 0)
    && (turns != [] ==> turns[0].candidate == 0 && turns[0].time == 0 && Following(turns[|turns| - 1], models).None?)
    && FollowOneAnother(turns, models)
  }

  ghost predicate FollowOneAnother(turns: seq<Turn>, models: nat) {
    forall k :: 0 <= k < |turns| - 1 ==>
      Following(turns[k], models) == Some((turns[k + 1].candidate, turns[k + 1].time))
  }

  /** The order of a whole generation: the first model first; the same again once if its first answer was
      rejected or credits were missing; otherwise the next model, if there is one. A result and an error end it. */
  lemma OrderOfAttempts(turns: seq<Turn>, models: nat, k: nat)
    requires IsWholeGeneration(turns, models) && k < |turns|
    ensures var t := turns[k];
      var ends := t.verdict == Generated || t.verdict == Uncertain || t.verdict == Refused;
      var again := t.candidate == 0 && t.time == 0 && (t.verdict == Rejected || t.verdict == NoCredits);
      && (turns[0].candidate == 0 && turns[0].time == 0)
      && (k == |turns| - 1 <==> ends || (!again && t.candidate + 1 >= models))
      && (k < |turns| - 1 ==>
            if again then turns[k + 1].candidate == 0 && turns[k + 1].time == 1
            else turns[k + 1].candidate == t.candidate + 1 && turns[k + 1].time == 0)
  {
    TimesAreFew(turns, models, k);
    if k < |turns| - 1 {
      assert Following(turns[k], models) == Some((turns[k + 1].candidate, turns[k + 1].time));
    }
  }

  lemma {:induction false} TimesAreFew(turns: seq<Turn>, models: nat, k: nat)
    requires IsWholeGeneration(turns, models) && k < |turns|
    ensures turns[k].time < AttemptsFor(turns[k].candidate)
  {
    if k > 0 {
      TimesAreFew(turns, models, k - 1);
      assert Following(turns[k - 1], models) == Some((turns[(k - 1) + 1].candidate, turns[(k - 1) + 1].time));
    }
  }

  /** Every turn ended as wallet, provider and the others made it end, each from what came of those before. */
  ghost predicate AreTrue(turns: seq<Turn>, s0: State, domain: nat, estimates: seq<int>, w: World) {
    && (turns != [] ==> turns[0].at == s0)
    && (forall k :: 0 < k < |turns| ==> turns[k].at == turns[k - 1].after)
    && (forall k: nat :: k < |turns| ==>
          && turns[k].candidate < |estimates|
          && IsTrue(turns[k], domain, estimates[turns[k].candidate], w, k))
  }

  ghost predicate IsTrue(t: Turn, domain: nat, estimate: int, w: World, n: nat) {
    && BeginsAs(t.at, domain, estimate, w, n, t.verdict, t.op, t.after)
    && (t.op.Some? ==> EndsAs(t.at, domain, estimate, w, n, t.verdict, t.after))
  }

  lemma OneMoreTrue(turns: seq<Turn>, t: Turn, s0: State, domain: nat, estimates: seq<int>, w: World)
    requires AreTrue(turns, s0, domain, estimates, w) && t.candidate < |estimates|
    requires t.at == if turns == [] then s0 else turns[|turns| - 1].after
    requires IsTrue(t, domain, estimates[t.candidate], w, |turns|)
    ensures AreTrue(turns + [t], s0, domain, estimates, w)
  {
    hide IsTrue;
    forall k: nat | k < |turns| ensures (turns + [t])[k] == turns[k] {}
  }

  /** The turns so far, if this one is to come; past the last model none is. */
  ghost predicate IsDue(turns: seq<Turn>, candidate: nat, time: nat, models: nat) {
    && FollowOneAnother(turns, models)
    && (if turns == [] then candidate == 0 && time == 0
        else
          var next := Following(turns[|turns| - 1], models);
          && 0 < models && turns[0].candidate == 0 && turns[0].time == 0
          && (if candidate < models then next == Some((candidate, time)) else next.None?))
  }

  lemma TurnTaken(turns: seq<Turn>, t: Turn, models: nat)
    requires IsDue(turns, t.candidate, t.time, models) && t.candidate < models && t.time < AttemptsFor(t.candidate)
    ensures var now := turns + [t];
      && (Leaves(t.verdict) ==> IsWholeGeneration(now, models))
      && (!Leaves(t.verdict) ==>
            if t.verdict != NextModel && t.time + 1 < AttemptsFor(t.candidate)
            then IsDue(now, t.candidate, t.time + 1, models)
            else IsDue(now, t.candidate + 1, 0, models))
  {
    var now := turns + [t];
    assert forall k :: 0 <= k < |turns| ==> now[k] == turns[k];
  }

  lemma NothingIsDue(turns: seq<Turn>, models: nat)
    requires IsDue(turns, models, 0, models)
    ensures IsWholeGeneration(turns, models)
  {}

  /** The worker's part between two attempts. */
  ghost predicate IsWorking(s0: State, s: State, begun: seq<nat>, domain: nat) {
    && Inv(s) && Extends(s0, s) && AllDecided(s, begun, domain)
    && (forall k :: 0 <= k < |begun| ==> |s0.ops| <= begun[k])
  }

  /** What a generation leaves behind. */
  ghost predicate LeavesBehind(s0: State, s: State, begun: seq<nat>, domain: nat, verdict: Verdict) {
    && Inv(s) && Extends(s0, s)
    && (begun != [] ==> AllDecided(s, begun[..|begun| - 1], domain))
    && (forall k :: 0 <= k < |begun| ==> |s0.ops| <= begun[k] < |s.ops| && s.ops[begun[k]].status != Reserved)
    && (!Leaves(verdict) ==> AllDecided(s, begun, domain))
    && (verdict == Generated ==>
          begun != [] && AllDecided(s, begun, domain) && s.ops[begun[|begun| - 1]].status == Settled)
    && (verdict == Uncertain ==> begun != [] && WasCalled(s.ops[begun[|begun| - 1]], domain))
  }

  lemma WorkLeaves(s0: State, s: State, begun: seq<nat>, domain: nat, verdict: Verdict)
    requires IsWorking(s0, s, begun, domain) && !Leaves(verdict)
    ensures LeavesBehind(s0, s, begun, domain, verdict)
  {
    hide Inv, Extends, WasCalled;
  }

  lemma WorkGoesOn(s0: State, s: State, t: State, begun: seq<nat>, domain: nat)
    requires IsWorking(s0, s, begun, domain) && Inv(t) && Extends(s, t)
    ensures IsWorking(s0, t, begun, domain) && |s0.ops| <= |s.ops|
  {
    hide Inv, WasCalled, Extends;
    Later(s0, s, t);
    DecidedStayDecided(s, t, begun, domain);
    Grows(s0, s);
  }

  lemma LeavesWithLast(s0: State, t: State, begun: seq<nat>, op: nat, domain: nat, verdict: Verdict)
    requires IsWorking(s0, t, begun, domain)
    requires |s0.ops| <= op < |t.ops| && t.ops[op].status != Reserved
    requires verdict != Refused ==> WasCalled(t.ops[op], domain)
    requires !Leaves(verdict) || verdict == Generated ==> Closed(t.ops[op])
    requires verdict == Generated ==> t.ops[op].status == Settled
    ensures LeavesBehind(s0, t, begun + [op], domain, verdict)
    ensures !Leaves(verdict) ==> IsWorking(s0, t, begun + [op], domain)
  {
    hide Inv, Extends, WasCalled;
    var now := begun + [op];
    assert now[..|begun|] == begun;
    forall k | 0 <= k < |now| ensures now[k] == if k < |begun| then begun[k] else op {}
  }

  lemma LeavesRefused(s0: State, t: State, begun: seq<nat>, domain: nat)
    requires IsWorking(s0, t, begun, domain)
    ensures LeavesBehind(s0, t, begun, domain, Refused)
  {
    hide Inv, Extends, WasCalled;
    assert forall k :: 0 <= k < |begun| - 1 ==> begun[..|begun| - 1][k] == begun[k];
  }

  /** One more attempt, as a step of the worker. */
  method Continue(s0: State, s: State, begun: seq<nat>, domain: nat, estimate: int, w: World, n: nat)
      returns (t: State, verdict: Verdict, now: seq<nat>, op: Option<nat>)
    requires IsWorking(s0, s, begun, domain)
    ensures now == if op.Some? then begun + [op.value] else begun
    ensures LeavesBehind(s0, t, now, domain, verdict)
    ensures !Leaves(verdict) ==> IsWorking(s0, t, now, domain)
    ensures BeginsAs(s, domain, estimate, w, n, verdict, op, t)
    ensures op.Some? ==> EndsAs(s, domain, estimate, w, n, verdict, t)
  {
    hide Extends, WasCalled, Inv, BeginsAs, EndsAs, LeavesBehind, AllDecided;
    t, verdict, op := Attempt(s, domain, estimate, w, n);
    WorkGoesOn(s0, s, t, begun, domain);
    if op.Some? {
      LeavesWithLast(s0, t, begun, op.value, domain, verdict);
      now := begun + [op.value];
    } else {
      if verdict == Refused { LeavesRefused(s0, t, begun, domain); } else { WorkLeaves(s0, t, begun, domain, verdict); }
      now := begun;
    }
  }

  /** `DescriptionAgent.generate` over the estimates of its candidate models. Whatever others do meanwhile, a
      further operation is begun only when all earlier ones are decided, and at the end at most the last one
      is not; none is left reserved, and each decided one had its boundary marked before the call. */
  method Generate(s0: State, domain: nat, estimates: seq<int>, w: World)
      returns (s: State, verdict: Verdict, begun: seq<nat>, turns: seq<Turn>)
    requires Inv(s0)
    ensures IsWholeGeneration(turns, |estimates|) && AreTrue(turns, s0, domain, estimates, w)
    ensures verdict == if turns == [] then NoCredits else turns[|turns| - 1].verdict
    ensures s == if turns == [] then s0 else turns[|turns| - 1].after
    ensures |begun| <= |turns| <= |estimates| + MAX_VALIDATION_RETRIES - 1
    ensures LeavesBehind(s0, s, begun, domain, verdict)
  {
    hide IsDue, IsWholeGeneration, LeavesBehind, IsWorking, BeginsAs, EndsAs, AreTrue, Extends;
    s, verdict, begun, turns := s0, NoCredits, [], [];
    assert AreTrue([], s0, domain, estimates, w) by { NoTurnIsUntrue(s0, domain, estimates, w); }
    assert IsWorking(s0, s, [], domain) by { NothingDoneYet(s0, domain); }
    assert IsDue([], 0, 0, |estimates|) by { FirstIsDue(|estimates|); }
    var candidate := 0;
    while candidate < |estimates|
      invariant 0 <= candidate <= |estimates|
      invariant IsWorking(s0, s, begun, domain) && IsDue(turns, candidate, 0, |estimates|)
      invariant AreTrue(turns, s0, domain, estimates, w)
      invariant s == if turns == [] then s0 else turns[|turns| - 1].after
      invariant |begun| <= |turns| <= candidate + if candidate == 0 then 0 else MAX_VALIDATION_RETRIES - 1
      invariant !Leaves(verdict) && verdict == if turns == [] then NoCredits else turns[|turns| - 1].verdict
    {
      var time := 0;
      ghost var already := |turns|;
      while time < AttemptsFor(candidate)
        invariant 0 <= time <= AttemptsFor(candidate)
        invariant IsWorking(s0, s, begun, domain) && AreTrue(turns, s0, domain, estimates, w)
        invariant s == if turns == [] then s0 else turns[|turns| - 1].after
        invariant if time < AttemptsFor(candidate) then IsDue(turns, candidate, time, |estimates|)
                  else IsDue(turns, candidate + 1, 0, |estimates|)
        invariant |begun| <= |turns| <= already + time
        invariant !Leaves(verdict) && verdict == if turns == [] then NoCredits else turns[|turns| - 1].verdict
      {
        var at, op := s, None;
        s, verdict, begun, op := Continue(s0, s, begun, domain, estimates[candidate], w, |turns|);
        var turn := Turn(candidate, time, at, verdict, op, s);
        TurnTaken(turns, turn, |estimates|);
        OneMoreTrue(turns, turn, s0, domain, estimates, w);
        turns := turns + [turn];
        if Leaves(verdict) { return; }
        time := if verdict == NextModel then AttemptsFor(candidate) else time + 1;
      }
      candidate := candidate + 1;
    }
    NothingIsDue(turns, |estimates|);
    WorkLeaves(s0, s, begun, domain, verdict);
  }

  lemma NothingDoneYet(s: State, domain: nat)
    requires Inv(s)
    ensures IsWorking(s, s, [], domain)
  {
    RunExtends(s, []);
    assert Run(s, []) == s;
  }

  lemma NoTurnIsUntrue(s0: State, domain: nat, estimates: seq<int>, w: World)
    ensures AreTrue([], s0, domain, estimates, w)
  {}

  lemma FirstIsDue(models: nat)
    ensures IsDue([], 0, 0, models)
  {}

  lemma Grows(s: State, t: State)
    requires Extends(s, t)
    ensures |s.ops| <= |t.ops|
  {}
}
