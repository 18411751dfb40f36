/** Blocking calls behind a deadline and a fixed number of slots (apps/core/http_deadlines.py).
    Every critical section and every queue operation is one step; clock readings are choices of the steps. */
module DeadlineRunner {
  import opened Common

  datatype Outcome = Success(value: nat) | Failure(error: nat)

  datatype Caller =
    | Arrived
    | Admitted                     // holds a slot, no worker yet
    | Started                      // the worker runs
    | Waiting                      // in `outcomes.get`
    | Expiring                     // about to declare the deadline expired
    | Leaving(late: Option<Outcome>)
    | Took(outcome: Outcome)
    | Returned(value: nat)
    | Raised

  datatype Worker =
    | NoWorker
    | Running
    | Finished(outcome: Outcome)
    | HandedOver(late: Option<Outcome>)
    | Releasing
    | Gone

  /** One call of `run`. The last four fields only record what happened. */
  datatype Call = Call(
    caller: Caller, worker: Worker, queue: Option<Outcome>, expired: bool,
    produced: Option<Outcome>, discards: nat, acquires: nat, releases: nat)

  datatype Action =
    | Deny | Acquire | Abandon | StartWorker | StartFails
    | WaitForOutcome | GiveUp | Take | Expire | DiscardLate | Conclude(inTime: bool)
    | Produce(outcome: Outcome) | HandOver | DiscardWorkers | ReleaseSlot

  const NEW_CALL := Call(Arrived, NoWorker, None, false, None, 0, 0, 0)

  function Successes(o: Option<Outcome>): nat { if o.Some? && o.value.Success? then 1 else 0 }

  predicate HasEnded(c: Call) {
    (c.caller.Returned? || c.caller.Raised?) && (c.worker.NoWorker? || c.worker.Gone?)
  }

  predicate IsPossible(c: Call, a: Action, free: nat) {
    match a
    case Deny => c.caller.Arrived?
    case Acquire => c.caller.Arrived? && free > 0
    case Abandon => c.caller.Admitted?
    case StartWorker => c.caller.Admitted?
    case StartFails => c.caller.Admitted?
    case WaitForOutcome => c.caller.Started?
    case GiveUp => c.caller.Started? || c.caller.Waiting?
    case Take => c.caller.Waiting? && c.queue.Some?
    case Expire => c.caller.Expiring?
    case DiscardLate => c.caller.Leaving?
    case Conclude(_) => c.caller.Took?
    case Produce(_) => c.worker.Running?
    case HandOver => c.worker.Finished?
    case DiscardWorkers => c.worker.HandedOver?
    case ReleaseSlot => c.worker.Releasing?
  }

  /** A full queue would make `put_nowait` raise: the outcome would be lost. */
  function Offer(c: Call, o: Outcome): Call {
    if c.expired then c.(worker := HandedOver(Some(o)))
    else if c.queue.Some? then c.(worker := Releasing)
    else c.(queue := Some(o), worker := HandedOver(None))
  }

  function Move(c: Call, a: Action): Call
    requires IsPossible(c, a, 1)
  {
    match a
    case Deny => c.(caller := Raised)
    case Acquire => c.(caller := Admitted, acquires := c.acquires + 1)
    case Abandon => c.(caller := Raised, releases := c.releases + 1)
    case StartWorker => c.(caller := Started, worker := Running)
    case StartFails => c.(caller := Raised, releases := c.releases + 1)
    case WaitForOutcome => c.(caller := Waiting)
    case GiveUp => c.(caller := Expiring)
    case Take => c.(caller := Took(c.queue.value), queue := None)
    case Expire => c.(caller := Leaving(c.queue), queue := None, expired := true)
    case DiscardLate => c.(caller := Raised, discards := c.discards + Successes(c.caller.late))
    case Conclude(inTime) =>
      if !inTime then c.(caller := Raised, discards := c.discards + Successes(Some(c.caller.outcome)))
      else if c.caller.outcome.Success? then c.(caller := Returned(c.caller.outcome.value))
      else c.(caller := Raised)
    case Produce(o) => c.(worker := Finished(o), produced := Some(o))
    case HandOver => Offer(c, c.worker.outcome)
    case DiscardWorkers => c.(worker := Releasing, discards := c.discards + Successes(c.worker.late))
    case ReleaseSlot => c.(worker := Gone, releases := c.releases + 1)
  }

  // ----- all calls together -----

  datatype State = State(free: int, calls: seq<Call>)

  datatype Step = Begin | Act(call: nat, action: Action)

  function Apply(s: State, step: Step): State {
    match step
    case Begin => s.(calls := s.calls + [NEW_CALL])
    case Act(i, a) =>
      if i < |s.calls| && IsPossible(s.calls[i], a, Max(0, s.free)) then
        var c := Move(s.calls[i], a);
        State(s.free - (c.acquires - s.calls[i].acquires) + (c.releases - s.calls[i].releases), s.calls[i := c])
      else s
  }

  function Run(s: State, steps: seq<Step>): State
    decreases |steps|
  {
    if steps == [] then s else Run(Apply(s, steps[0]), steps[1..])
  }

  ghost predicate Reachable(cap: nat, s: State) {
    exists steps :: s == Run(State(cap, []), steps)
  }

  predicate IsLive(c: Call) {
    c.worker.Running? || c.worker.Finished? || c.worker.HandedOver? || c.worker.Releasing?
  }

  predicate HoldsSlot(c: Call) { c.caller.Admitted? || IsLive(c) }

  function Holders(calls: seq<Call>): nat {
    if calls == [] then 0 else Holders(calls[..|calls| - 1]) + if HoldsSlot(calls[|calls| - 1]) then 1 else 0
  }

  function LiveWorkers(calls: seq<Call>): nat {
    if calls == [] then 0 else LiveWorkers(calls[..|calls| - 1]) + if IsLive(calls[|calls| - 1]) then 1 else 0
  }

  // ----- one call -----

  /** The places where an outcome that was produced can be. */
  function Kept(c: Call): nat {
    Successes(c.queue)
    + (if c.worker.Finished? then Successes(Some(c.worker.outcome)) else 0)
    + (if c.worker.HandedOver? then Successes(c.worker.late) else 0)
    + (if c.caller.Took? then Successes(Some(c.caller.outcome)) else 0)
    + (if c.caller.Leaving? then Successes(c.caller.late) else 0)
    + (if c.caller.Returned? then 1 else 0)
  }

  predicate Is(o: Option<Outcome>, produced: Option<Outcome>) { o.Some? ==> o == produced }

  /** Nothing is invented: every place holds the worker's own outcome. */
  predicate KeepsOutcome(c: Call) {
    && Is(c.queue, c.produced)
    && (c.worker.Finished? ==> c.produced == Some(c.worker.outcome))
    && (c.worker.HandedOver? ==> Is(c.worker.late, c.produced))
    && (c.caller.Took? ==> c.produced == Some(c.caller.outcome))
    && (c.caller.Leaving? ==> Is(c.caller.late, c.produced))
    && (c.caller.Returned? ==> c.produced == Some(Success(c.caller.value)))
  }

  /** Where caller and worker can be at the same time. */
  predicate PhasesFit(c: Call) {
    && (c.caller.Arrived? || c.caller.Admitted? ==> c.worker.NoWorker?)
    && (c.worker.NoWorker? ==> c.caller.Arrived? || c.caller.Admitted? || c.caller.Raised?)
    && (c.worker.NoWorker? || c.worker.Running? ==> c.produced.None?)
    && (c.worker.NoWorker? || c.worker.Running? || c.worker.Finished? || c.expired ==> c.queue.None?)
    && (c.worker.Running? || c.worker.Finished? ==>
          c.expired || c.caller.Started? || c.caller.Waiting? || c.caller.Expiring?)
    && (c.caller.Raised? || c.caller.Returned? || c.caller.Took? || c.caller.Leaving? ==> c.queue.None?)
    && (c.expired ==> c.caller.Leaving? || c.caller.Raised?)
  }

  predicate SlotFits(c: Call) {
    && c.acquires <= 1 && c.acquires == c.releases + (if HoldsSlot(c) then 1 else 0)
    && (c.caller.Arrived? ==> c.acquires == 0)
  }

  predicate CallFits(c: Call) {
    KeepsOutcome(c) && PhasesFit(c) && SlotFits(c) && Kept(c) + c.discards == Successes(c.produced)
  }

  lemma MoveKeepsPhases(c: Call, a: Action)
    requires PhasesFit(c) && IsPossible(c, a, 1)
    ensures PhasesFit(Move(c, a))
  {}

  lemma MoveKeepsOutcome(c: Call, a: Action)
    requires PhasesFit(c) && KeepsOutcome(c) && IsPossible(c, a, 1)
    ensures KeepsOutcome(Move(c, a))
  {}

  lemma CallerKeepsBalance(c: Call, a: Action)
    requires PhasesFit(c) && IsPossible(c, a, 1) && !(a.Produce? || a.HandOver? || a.DiscardWorkers? || a.ReleaseSlot?)
    ensures var d := Move(c, a); Kept(d) + d.discards == Kept(c) + c.discards && d.produced == c.produced
  {}

  lemma WorkerKeepsBalance(c: Call, a: Action)
    requires PhasesFit(c) && IsPossible(c, a, 1) && (a.Produce? || a.HandOver? || a.DiscardWorkers? || a.ReleaseSlot?)
    ensures var d := Move(c, a);
      Kept(d) + d.discards - Successes(d.produced) == Kept(c) + c.discards - Successes(c.produced)
  {}

  lemma MoveKeepsSlot(c: Call, a: Action)
    requires PhasesFit(c) && SlotFits(c) && IsPossible(c, a, 1)
    ensures SlotFits(Move(c, a))
    ensures Move(c, a).acquires - c.acquires - (Move(c, a).releases - c.releases)
      == (if HoldsSlot(Move(c, a)) then 1 else 0) - (if HoldsSlot(c) then 1 else 0)
  {}

  lemma MoveKeepsFit(c: Call, a: Action)
    requires CallFits(c) && IsPossible(c, a, 1)
    ensures CallFits(Move(c, a))
  {
    hide Move, PhasesFit, KeepsOutcome, SlotFits, Kept, Successes;
    MoveKeepsPhases(c, a);
    MoveKeepsOutcome(c, a);
    MoveKeepsSlot(c, a);
    if a.Produce? || a.HandOver? || a.DiscardWorkers? || a.ReleaseSlot? { WorkerKeepsBalance(c, a); }
    else { CallerKeepsBalance(c, a); }
  }

  /** `put_nowait` never meets a full queue. */
  lemma OutcomesAreNeverLost(c: Call)
    requires CallFits(c) && c.worker.Finished?
    ensures c.queue.None?
  {}

  /** A success taken in time is returned and not discarded; one taken too late is discarded and not returned;
      a failure is raised. */
  lemma TimelySuccessIsReturned(c: Call, v: nat, inTime: bool)
    requires c.caller == Took(Success(v))
    ensures var d := Move(c, Conclude(inTime));
      if inTime then d.caller == Returned(v) && d.discards == c.discards
      else d.caller == Raised && d.discards == c.discards + 1
  {}

  lemma FailureIsRaised(c: Call, error: nat, inTime: bool)
    requires c.caller == Took(Failure(error))
    ensures Move(c, Conclude(inTime)).caller == Raised && Move(c, Conclude(inTime)).discards == c.discards
  {}

  /** What is in the queue when the caller looks is what it takes; what is there when it gives up, or comes
      later, is what is discarded. */
  lemma OutcomesReachTheirEnd(c: Call, o: Outcome)
    ensures c.caller.Waiting? && c.queue == Some(o) ==>
      Move(c, Take).caller == Took(o) && Move(c, Take).queue.None?
    ensures c.caller.Expiring? ==>
      Move(c, Expire).caller == Leaving(c.queue) && Move(c, Expire).expired && Move(c, Expire).queue.None?
    ensures c.caller == Leaving(Some(o)) && o.Success? ==> Move(c, DiscardLate).discards == c.discards + 1
    ensures CallFits(c) && c.worker == Finished(o) ==>
      (if c.expired then Move(c, HandOver).worker == HandedOver(Some(o)) && Move(c, HandOver).queue.None?
       else Move(c, HandOver).queue == Some(o))
    ensures c.worker == HandedOver(Some(o)) && o.Success? ==> Move(c, DiscardWorkers).discards == c.discards + 1
  {}

  // ----- slots -----

  lemma {:induction false} SetCall(calls: seq<Call>, i: nat, c: Call)
    requires i < |calls|
    ensures Holders(calls[i := c]) ==
      Holders(calls) - (if HoldsSlot(calls[i]) then 1 else 0) + (if HoldsSlot(c) then 1 else 0)
  {
    hide HoldsSlot;
    var m := |calls| - 1;
    if i == m {
      assert calls[i := c][..m] == calls[..m];
    } else {
      assert calls[i := c][..m] == calls[..m][i := c];
      SetCall(calls[..m], i, c);
    }
  }

  lemma {:induction false} LiveWorkersHoldSlots(calls: seq<Call>)
    ensures LiveWorkers(calls) <= Holders(calls)
  {
    if calls != [] { LiveWorkersHoldSlots(calls[..|calls| - 1]); }
  }

  ghost predicate Inv(cap: nat, s: State) {
    && (forall c :: c in s.calls ==> CallFits(c))
    && s.free + Holders(s.calls) == cap && s.free >= 0
  }

  lemma StepKeepsInv(cap: nat, s: State, step: Step)
    requires Inv(cap, s)
    ensures Inv(cap, Apply(s, step))
  {
    hide HoldsSlot, Holders, Move, PhasesFit, KeepsOutcome, SlotFits, Kept, Successes;
    match step
    case Begin =>
      assert CallFits(NEW_CALL) && !HoldsSlot(NEW_CALL) by { NewCallFits(); }
      assert Holders(s.calls + [NEW_CALL]) == Holders(s.calls) by { AppendNewCall(s.calls); }
    case Act(i, a) =>
      if i < |s.calls| && IsPossible(s.calls[i], a, s.free) {
        assert CallFits(s.calls[i]);
        MoveKeepsFit(s.calls[i], a);
        MoveKeepsSlot(s.calls[i], a);
        SetCall(s.calls, i, Move(s.calls[i], a));
        SlotIsThere(s.calls[i], a);
      }
  }

  lemma NewCallFits()
    ensures CallFits(NEW_CALL) && !HoldsSlot(NEW_CALL)
  {}

  lemma AppendNewCall(calls: seq<Call>)
    ensures Holders(calls + [NEW_CALL]) == Holders(calls)
  {
    assert (calls + [NEW_CALL])[..|calls|] == calls;
  }

  /** Only an admission takes a slot, and it needs a free one. */
  lemma SlotIsThere(c: Call, a: Action)
    requires IsPossible(c, a, 1)
    ensures Move(c, a).acquires - c.acquires == if a.Acquire? then 1 else 0
    ensures Move(c, a).releases >= c.releases
  {}

  lemma {:induction false} RunKeepsInv(cap: nat, s: State, steps: seq<Step>)
    requires Inv(cap, s)
    ensures Inv(cap, Run(s, steps))
    decreases |steps|
  {
    hide Apply, Inv;
    if steps != [] {
      StepKeepsInv(cap, s, steps[0]);
      RunKeepsInv(cap, Apply(s, steps[0]), steps[1..]);
    }
  }

  lemma ReachableIsSound(cap: nat, s: State)
    requires Reachable(cap, s)
    ensures Inv(cap, s)
  {
    hide Apply, Run;
    var steps :| s == Run(State(cap, []), steps);
    RunKeepsInv(cap, State(cap, []), steps);
  }

  // ----- what holds in every interleaving -----

  /** A successful outcome is returned or discarded, never both, and once the call has ended not neither;
      what is returned is what the operation produced. */
  lemma EachResultIsDisposedOnce(cap: nat, s: State, i: nat)
    requires Reachable(cap, s) && i < |s.calls|
    ensures var c := s.calls[i];
      && (if c.caller.Returned? then 1 else 0) + c.discards <= Successes(c.produced)
      && (HasEnded(c) ==> (if c.caller.Returned? then 1 else 0) + c.discards == Successes(c.produced))
      && (c.caller.Returned? ==> c.produced == Some(Success(c.caller.value)))
  {
    hide Holders;
    ReachableIsSound(cap, s);
    assert CallFits(s.calls[i]);
  }

  /** A slot is given back at most once, never before it was taken, and by the end of the call. */
  lemma EachSlotIsReleasedOnce(cap: nat, s: State, i: nat)
    requires Reachable(cap, s) && i < |s.calls|
    ensures var c := s.calls[i];
      && c.releases <= c.acquires <= 1
      && (HasEnded(c) ==> c.releases == c.acquires)
  {
    hide Holders;
    ReachableIsSound(cap, s);
    assert CallFits(s.calls[i]);
  }

  /** There are never more live workers than slots, and the free slots are those nobody holds. */
  lemma WorkersStayWithinTheCap(cap: nat, s: State)
    requires Reachable(cap, s)
    ensures LiveWorkers(s.calls) <= Holders(s.calls) == cap - s.free <= cap
  {
    hide CallFits, HoldsSlot;
    ReachableIsSound(cap, s);
    LiveWorkersHoldSlots(s.calls);
  }

  // ----- every call ends -----

  /** Steps left for a caller and its worker at most. */
  function StepsLeft(c: Call): nat {
    (match c.caller
     case Arrived => 10
     case Admitted => 9
     case Started => 4
     case Waiting => 3
     case Expiring => 2
     case Leaving(_) => 1
     case Took(_) => 1
     case _ => 0)
    + (match c.worker
       case Running => 4
       case Finished(_) => 3
       case HandedOver(_) => 2
       case Releasing => 1
       case _ => 0)
  }

  /** Every step of a call brings it nearer to its end. */
  lemma StepsAreBounded(c: Call, a: Action)
    requires IsPossible(c, a, 1)
    ensures StepsLeft(Move(c, a)) < StepsLeft(c)
  {}

  /** The next step of a call that needs neither a slot nor the operation's end; a wait can always end by
      its timeout. */
  function NextAction(c: Call): Action {
    match c.caller
    case Arrived => Deny
    case Admitted => Abandon
    case Started => GiveUp
    case Waiting => GiveUp
    case Expiring => Expire
    case Leaving(_) => DiscardLate
    case Took(_) => Conclude(true)
    case _ =>
      match c.worker
      case Finished(_) => HandOver
      case HandedOver(_) => DiscardWorkers
      case _ => ReleaseSlot
  }

  /** Only an operation that never returns can hold a call up: its caller always has a next step, and so has
      its worker once the operation is over. */
  lemma CallersAreNeverStuck(c: Call)
    requires !HasEnded(c)
    ensures IsPossible(c, NextAction(c), 0) || (c.worker.Running? && (c.caller.Returned? || c.caller.Raised?))
  {}

  // ----- the hand-off object -----

  /** The one-item queue and the flag that one lock guards. */
  class Handoff {
    var queue: Option<Outcome>
    var expired: bool

    constructor ()
      ensures queue.None? && !expired
    {
      queue, expired := None, false;
    }

    ghost predicate Shows(c: Call)
      reads this
    {
      queue == c.queue && expired == c.expired
    }

    /** The worker's critical section; the result is the outcome it has to discard. */
    method OfferOutcome(o: Outcome, ghost c: Call) returns (late: Option<Outcome>)
      requires Shows(c) && CallFits(c) && c.worker == Finished(o)
      modifies this
      ensures Shows(Move(c, HandOver)) && Move(c, HandOver).worker == HandedOver(late)
      ensures late.Some? <==> old(expired)
    {
      late := None;
      if expired { late := Some(o); } else { queue := Some(o); }
    }

    /** `expire_and_take_outcome`. */
    method ExpireAndTake(ghost c: Call) returns (late: Option<Outcome>)
      requires Shows(c) && c.caller.Expiring?
      modifies this
      ensures Shows(Move(c, Expire)) && Move(c, Expire).caller == Leaving(late)
      ensures expired && queue.None? && late == old(queue)
    {
      expired := true;
      late := queue;
      queue := None;
    }

    /** `outcomes.get`; None stands for a timeout. */
    method TakeInTime(ghost c: Call) returns (taken: Option<Outcome>)
      requires Shows(c) && c.caller.Waiting?
      modifies this
      ensures taken == old(queue) && expired == old(expired)
      ensures if taken.None? then Shows(Move(c, GiveUp))
              else Shows(Move(c, Take)) && Move(c, Take).caller == Took(taken.value)
    {
      taken := queue;
      queue := None;
    }
  }
}
