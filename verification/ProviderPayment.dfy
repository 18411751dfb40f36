/** Creating the provider payment of one invoice: browser tabs and the reconciler resume it, requests are lost,
    late or answered too late, and the provider forgets a key after a while (apps/billing/services.py). */
module ProviderPayment {
  import opened Common

  datatype Status = Pending | ManualReview | Final

  datatype Stage = IntentCreated | ProviderPending | ProviderCreated | StageManual

  /** The fields frozen with the entitlement snapshot. `item` is what description and metadata are built
      from; None when the snapshot lacks it. */
  datatype Intent = Intent(
    providerKey: Option<nat>, clientKey: Option<nat>, amount: nat, returnUrl: nat, item: Option<nat>, snapshot: bool)

  datatype Row = Row(
    intent: Intent, status: Status, stage: Stage, url: Option<nat>, paymentId: Option<nat>,
    attempts: nat, firstAt: Option<int>, nextAt: Option<int>)

  datatype Request = Request(key: nat, amount: nat, returnUrl: nat, item: nat)

  /** Settings and the outside world: `horizon` is 23 hours, `delay` bounds the time from a caller's clock
      reading to the arrival of its request, `window` is how long the provider remembers a key. */
  datatype Config = Config(limit: nat, base: nat, maxDelay: nat, horizon: nat, delay: nat, window: nat)

  // ----- the row -----

  /** `Invoice.save`: None is a validation error. */
  function Save(before: Row, after: Row): Option<Row> {
    if before.paymentId.Some? && after.paymentId != before.paymentId then None
    else if before.intent.snapshot && after.intent != before.intent then None
    else Some(after)
  }

  /** `reconciliation_delay_seconds`. */
  function RetryDelay(c: Config, attempt: nat): nat { Backoff(c.base, c.maxDelay, attempt) }

  datatype Answer = NeedsReview | Terminal | Url(url: nat) | Wait(seconds: int) | Send(request: Request, attempt: nat)

  function ToManual(r: Row): Row {
    r.(status := ManualReview, stage := StageManual, nextAt := None)
  }

  /** `_mark_invoice_manual_review_locked`. */
  function MarkManual(r: Row): Row {
    r.(status := ManualReview, stage := if r.intent.clientKey.Some? then StageManual else r.stage, nextAt := None)
  }

  predicate IsTooLate(c: Config, r: Row, now: int) {
    r.firstAt.Some? && r.firstAt.value < now - c.horizon
  }

  /** The first transaction of `_resume_checkout_intent`; `blocked` says that the subscription of a term
      purchase is missing or has become active, `patient` that the back-off is respected. */
  function Begin(c: Config, r: Row, now: int, blocked: bool, patient: bool): (Row, Answer) {
    if r.stage == StageManual || r.status == ManualReview then (r, NeedsReview)
    else if r.status != Pending then (r, Terminal)
    else if !blocked && r.url.Some? then (r, Url(r.url.value))
    else if blocked || r.intent.providerKey.None? || r.intent.clientKey.None? || r.attempts >= c.limit
            || IsTooLate(c, r, now) then (ToManual(r), NeedsReview)
    else if patient && r.nextAt.Some? && r.nextAt.value > now then (r, Wait(Max(1, r.nextAt.value - now)))
    else
      var started := r.(attempts := r.attempts + 1, firstAt := Some(r.firstAt.OrElse(now)), stage := ProviderPending,
                        nextAt := Some(now + RetryDelay(c, r.attempts + 1)));
      match r.intent.item
      case None => (ToManual(started), NeedsReview)
      case Some(item) =>
        (started, Send(Request(r.intent.providerKey.value, r.intent.amount, r.intent.returnUrl, item), r.attempts + 1))
  }

  /** The result of the call is unknown. */
  function RecordFailure(c: Config, r: Row, attempt: nat, now: int): Row {
    if r.url.Some? then r else r.(stage := ProviderPending, nextAt := Some(now + RetryDelay(c, attempt)))
  }

  /** The provider answered; false is a collision of payment identifiers, `taken` one with another invoice. */
  function RecordAnswer(c: Config, r: Row, id: nat, url: nat, taken: bool, now: int): (Row, bool) {
    if (r.paymentId.Some? && r.paymentId != Some(id)) || taken then (MarkManual(r), false)
    else (r.(paymentId := Some(id), url := Some(url), stage := ProviderCreated, nextAt := Some(now + c.base)), true)
  }

  // ----- callers, network and provider -----

  /** A caller that read the clock at `readAt`; `arrived` is the payment its request led to. */
  datatype Call = Call(readAt: int, request: Option<Request>, attempt: nat, arrived: Option<nat>, over: bool)

  /** A payment at the provider; its identifier is its position. */
  datatype Made = Made(request: Request, at: int)

  datatype State = State(row: Row, clock: int, calls: seq<Call>, made: seq<Made>)

  datatype Step =
    | Tick(seconds: nat)
    | Open
    | Enter(call: nat, blocked: bool, patient: bool)
    | Arrive(call: nat)
    | Fail(call: nat)
    | Answer(call: nat, url: nat, taken: bool)
    | Leave(status: Status, stage: Stage)
    | Edit(row: Row)

  predicate Remembers(c: Config, made: seq<Made>, k: nat, key: nat, clock: int) {
    k < |made| && made[k].request.key == key && clock < made[k].at + c.window
  }

  /** The payment the provider still knows under this key. */
  function FindMade(c: Config, made: seq<Made>, key: nat, clock: int): (r: Option<nat>)
    ensures r.Some? ==> Remembers(c, made, r.value, key, clock)
    ensures r.None? ==> forall k :: 0 <= k < |made| ==> !Remembers(c, made, k, key, clock)
  {
    if made == [] then None
    else if Remembers(c, made, |made| - 1, key, clock) then Some(|made| - 1)
    else
      var r := FindMade(c, made[..|made| - 1], key, clock);
      assert forall k :: 0 <= k < |made| - 1 ==>
        (Remembers(c, made, k, key, clock) <==> Remembers(c, made[..|made| - 1], k, key, clock));
      r
  }

  function Receive(c: Config, s: State, n: nat): State
    requires n < |s.calls| && s.calls[n].request.Some?
  {
    var q := s.calls[n].request.value;
    match FindMade(c, s.made, q.key, s.clock)
    case Some(k) => s.(calls := s.calls[n := s.calls[n].(arrived := Some(k))])
    case None =>
      s.(made := s.made + [Made(q, s.clock)], calls := s.calls[n := s.calls[n].(arrived := Some(|s.made|))])
  }

  function EnterRow(c: Config, s: State, n: nat, blocked: bool, patient: bool): State
    requires n < |s.calls|
  {
    var (row, answer) := Begin(c, s.row, s.calls[n].readAt, blocked, patient);
    var call := if answer.Send? then s.calls[n].(request := Some(answer.request), attempt := answer.attempt)
                else s.calls[n].(over := true);
    s.(row := row, calls := s.calls[n := call])
  }

  predicate IsEnabled(c: Config, s: State, step: Step) {
    match step
    case Tick(_) => true
    case Open => true
    case Enter(n, _, _) => n < |s.calls| && !s.calls[n].over && s.calls[n].request.None?
    case Arrive(n) =>
      && n < |s.calls| && s.calls[n].request.Some? && s.calls[n].arrived.None?
      && s.clock <= s.calls[n].readAt + c.delay
    case Fail(n) => n < |s.calls| && !s.calls[n].over && s.calls[n].request.Some?
    case Answer(n, _, _) => n < |s.calls| && !s.calls[n].over && s.calls[n].arrived.Some?
    case Leave(status, _) => status != Pending
    case Edit(row) => row == s.row.(intent := row.intent) && Save(s.row, row).Some?
  }

  function Apply(c: Config, s: State, step: Step): State {
    if !IsEnabled(c, s, step) then s
    else
      match step
      case Tick(seconds) => s.(clock := s.clock + seconds)
      case Open => s.(calls := s.calls + [Call(s.clock, None, 0, None, false)])
      case Enter(n, blocked, patient) => EnterRow(c, s, n, blocked, patient)
      case Arrive(n) => Receive(c, s, n)
      case Fail(n) =>
        s.(row := RecordFailure(c, s.row, s.calls[n].attempt, s.clock),
           calls := s.calls[n := s.calls[n].(over := true)])
      case Answer(n, url, taken) =>
        s.(row := RecordAnswer(c, s.row, s.calls[n].arrived.value, url, taken, s.clock).0,
           calls := s.calls[n := s.calls[n].(over := true)])
      case Leave(status, stage) => s.(row := s.row.(status := status, stage := stage))
      case Edit(row) => s.(row := row)
  }

  function Run(c: Config, s: State, steps: seq<Step>): State
    decreases |steps|
  {
    if steps == [] then s else Run(c, Apply(c, s, steps[0]), steps[1..])
  }

  /** A freshly written intent. */
  predicate IsNew(s: State) {
    && s.calls == [] && s.made == []
    && s.row.intent.snapshot && s.row.intent.providerKey.Some? && s.row.intent.clientKey.Some?
    && s.row.status == Pending && s.row.stage == IntentCreated && s.row.url.None? && s.row.paymentId.None?
    && s.row.attempts == 0 && s.row.firstAt.None? && s.row.nextAt.None?
  }

  ghost predicate Reachable(c: Config, s: State) {
    exists s0, steps :: IsNew(s0) && s == Run(c, s0, steps)
  }

  // ----- invariants -----

  /** The one request this invoice can send. */
  predicate IsRequestOf(intent: Intent, q: Request) {
    intent.providerKey == Some(q.key) && q.amount == intent.amount && q.returnUrl == intent.returnUrl
    && intent.item == Some(q.item)
  }

  function SentCount(calls: seq<Call>): nat {
    if calls == [] then 0
    else SentCount(calls[..|calls| - 1]) + if calls[|calls| - 1].request.Some? then 1 else 0
  }

  function ArrivedCount(calls: seq<Call>): nat {
    if calls == [] then 0
    else ArrivedCount(calls[..|calls| - 1]) + if calls[|calls| - 1].arrived.Some? then 1 else 0
  }

  ghost predicate CallFits(c: Config, s: State, v: Call) {
    && v.readAt <= s.clock
    && (v.arrived.Some? ==> v.request.Some? && v.arrived.value < |s.made|)
    && (v.request.Some? ==>
          && IsRequestOf(s.row.intent, v.request.value)
          && s.row.firstAt.Some? && s.row.firstAt.value <= s.clock
          && v.readAt <= s.row.firstAt.value + c.horizon)
  }

  ghost predicate MadeFits(c: Config, s: State, m: Made) {
    && s.row.firstAt.Some? && IsRequestOf(s.row.intent, m.request)
    && s.row.firstAt.value <= m.at <= s.clock
    && m.at <= s.row.firstAt.value + c.horizon + c.delay
  }

  ghost predicate Inv(c: Config, s: State) {
    && s.row.intent.snapshot
    && (forall v :: v in s.calls ==> CallFits(c, s, v))
    && (forall m :: m in s.made ==> MadeFits(c, s, m))
    && (s.row.paymentId.Some? ==> s.row.paymentId.value < |s.made|)
    && (s.row.firstAt.Some? ==> s.row.firstAt.value <= s.clock)
    && |s.made| <= ArrivedCount(s.calls) && SentCount(s.calls) <= s.row.attempts <= c.limit
  }

  lemma {:induction false} SetCall(calls: seq<Call>, n: nat, v: Call)
    requires n < |calls|
    ensures SentCount(calls[n := v]) ==
      SentCount(calls) - (if calls[n].request.Some? then 1 else 0) + (if v.request.Some? then 1 else 0)
    ensures ArrivedCount(calls[n := v]) ==
      ArrivedCount(calls) - (if calls[n].arrived.Some? then 1 else 0) + (if v.arrived.Some? then 1 else 0)
  {
    var m := |calls| - 1;
    if n == m {
      assert calls[n := v][..m] == calls[..m];
    } else {
      assert calls[n := v][..m] == calls[..m][n := v];
      SetCall(calls[..m], n, v);
    }
  }

  lemma AppendCall(calls: seq<Call>, v: Call)
    ensures SentCount(calls + [v]) == SentCount(calls) + if v.request.Some? then 1 else 0
    ensures ArrivedCount(calls + [v]) == ArrivedCount(calls) + if v.arrived.Some? then 1 else 0
  {
    assert (calls + [v])[..|calls|] == calls;
  }

  /** What the first transaction does to the counters, and when it sends. */
  lemma BeginStartsInTime(c: Config, r: Row, now: int, blocked: bool, patient: bool)
    ensures var (after, answer) := Begin(c, r, now, blocked, patient);
      && after.intent == r.intent && after.paymentId == r.paymentId && after.url == r.url
      && r.attempts <= after.attempts
      && (after.attempts != r.attempts ==> after.attempts == r.attempts + 1 <= c.limit)
      && (r.firstAt.Some? ==> after.firstAt == r.firstAt)
      && (r.firstAt.None? && after.firstAt.Some? ==> after.firstAt == Some(now))
      && (answer.Send? ==> after.attempts == r.attempts + 1 && IsRequestOf(r.intent, answer.request)
                           && after.firstAt.Some? && now <= after.firstAt.value + c.horizon)
  {
    hide RetryDelay;
  }

  lemma StepKeepsCounts(c: Config, s: State, step: Step)
    requires |s.made| <= ArrivedCount(s.calls) && SentCount(s.calls) <= s.row.attempts <= c.limit
    ensures var t := Apply(c, s, step);
      |t.made| <= ArrivedCount(t.calls) && SentCount(t.calls) <= t.row.attempts <= c.limit
  {
    hide SentCount, ArrivedCount, Begin, FindMade, RetryDelay;
    if IsEnabled(c, s, step) {
      var t := Apply(c, s, step);
      match step
      case Open => AppendCall(s.calls, Call(s.clock, None, 0, None, false));
      case Enter(n, blocked, patient) =>
        BeginStartsInTime(c, s.row, s.calls[n].readAt, blocked, patient);
        SetCall(s.calls, n, t.calls[n]);
      case Arrive(n) => SetCall(s.calls, n, t.calls[n]);
      case Fail(n) => SetCall(s.calls, n, t.calls[n]);
      case Answer(n, url, taken) => SetCall(s.calls, n, t.calls[n]);
      case _ =>
    }
  }

  lemma StepKeepsCalls(c: Config, s: State, step: Step)
    requires Inv(c, s)
    ensures var t := Apply(c, s, step);
      && t.row.intent.snapshot
      && (forall v :: v in t.calls ==> CallFits(c, t, v))
      && (forall m :: m in t.made ==> MadeFits(c, t, m))
      && (t.row.paymentId.Some? ==> t.row.paymentId.value < |t.made|)
      && (t.row.firstAt.Some? ==> t.row.firstAt.value <= t.clock)
  {
    hide SentCount, ArrivedCount, Begin, FindMade, RetryDelay;
    if IsEnabled(c, s, step) {
      match step {
        case Enter(n, blocked, patient) =>
          assert CallFits(c, s, s.calls[n]);
          BeginStartsInTime(c, s.row, s.calls[n].readAt, blocked, patient);
        case Arrive(n) => assert CallFits(c, s, s.calls[n]);
        case Fail(n) => assert CallFits(c, s, s.calls[n]);
        case Answer(n, url, taken) => assert CallFits(c, s, s.calls[n]);
        case _ =>
      }
      var t := Apply(c, s, step);
      forall v | v in t.calls ensures CallFits(c, t, v) {
        if v in s.calls { assert CallFits(c, s, v); }
      }
    }
  }

  lemma StepKeepsInv(c: Config, s: State, step: Step)
    requires Inv(c, s)
    ensures Inv(c, Apply(c, s, step))
  {
    hide Apply, CallFits, MadeFits, SentCount, ArrivedCount;
    StepKeepsCalls(c, s, step);
    StepKeepsCounts(c, s, step);
  }

  lemma {:induction false} ArrivalsWereSent(calls: seq<Call>)
    requires forall v :: v in calls ==> v.arrived.Some? ==> v.request.Some?
    ensures ArrivedCount(calls) <= SentCount(calls)
  {
    if calls != [] {
      assert calls == calls[..|calls| - 1] + [calls[|calls| - 1]];
      ArrivalsWereSent(calls[..|calls| - 1]);
    }
  }

  lemma {:induction false} RunKeepsInv(c: Config, s: State, steps: seq<Step>)
    requires Inv(c, s)
    ensures Inv(c, Run(c, s, steps))
    decreases |steps|
  {
    hide Apply, Inv;
    if steps != [] {
      StepKeepsInv(c, s, steps[0]);
      RunKeepsInv(c, Apply(c, s, steps[0]), steps[1..]);
    }
  }

  lemma NewFits(c: Config, s: State)
    requires IsNew(s)
    ensures Inv(c, s)
  {}

  lemma ReachableIsSound(c: Config, s: State)
    requires Reachable(c, s)
    ensures Inv(c, s)
  {
    hide Apply;
    var s0, steps :| IsNew(s0) && s == Run(c, s0, steps);
    NewFits(c, s0);
    RunKeepsInv(c, s0, steps);
  }

  // ----- at most one payment -----

  /** The provider outlives the last request, or there is only one request. */
  predicate OutlivesRequests(c: Config) {
    c.limit <= 1 || c.horizon + c.delay < c.window
  }

  /** A request that arrives finds the payment made before it. */
  lemma StepMakesAtMostOne(c: Config, s: State, step: Step)
    requires Inv(c, s) && |s.made| <= 1 && c.horizon + c.delay < c.window
    ensures |Apply(c, s, step).made| <= 1
  {
    hide SentCount, ArrivedCount, Begin, RetryDelay;
    if step.Arrive? && IsEnabled(c, s, step) && |s.made| == 1 {
      assert s.calls[step.call] in s.calls && s.made[0] in s.made;
      assert Remembers(c, s.made, 0, s.calls[step.call].request.value.key, s.clock);
    }
  }

  lemma {:induction false} RunMakesAtMostOne(c: Config, s: State, steps: seq<Step>)
    requires Inv(c, s) && |s.made| <= 1 && c.horizon + c.delay < c.window
    ensures |Run(c, s, steps).made| <= 1
    decreases |steps|
  {
    hide Apply, Inv;
    if steps != [] {
      StepKeepsInv(c, s, steps[0]);
      StepMakesAtMostOne(c, s, steps[0]);
      RunMakesAtMostOne(c, Apply(c, s, steps[0]), steps[1..]);
    }
  }

  /** Every request of an invoice is the same one under the same key, at most `limit` of them are sent, and
      all start within the horizon of the first. */
  lemma RequestsAreOne(c: Config, s: State, j: nat, k: nat)
    requires Reachable(c, s) && j < |s.calls| && k < |s.calls|
    requires s.calls[j].request.Some? && s.calls[k].request.Some?
    ensures s.calls[j].request == s.calls[k].request
    ensures SentCount(s.calls) <= c.limit
    ensures s.row.firstAt.Some? && s.calls[j].readAt <= s.row.firstAt.value + c.horizon
  {
    hide SentCount, ArrivedCount;
    ReachableIsSound(c, s);
    assert s.calls[j] in s.calls && s.calls[k] in s.calls;
  }

  /** Then at most one payment is made, and the row never meets a second payment identifier. */
  lemma AtMostOnePayment(c: Config, s: State, step: Step)
    requires Reachable(c, s) && OutlivesRequests(c)
    ensures |s.made| <= 1
    ensures step.Answer? && IsEnabled(c, s, step) && !step.taken ==>
      Apply(c, s, step).row.paymentId == Some(0)
  {
    hide SentCount, ArrivedCount, MadeFits, Begin, RetryDelay;
    ReachableIsSound(c, s);
    ArrivalsWereSent(s.calls);
    if c.limit > 1 {
      var s0, steps :| IsNew(s0) && s == Run(c, s0, steps);
      NewFits(c, s0);
      RunMakesAtMostOne(c, s0, steps);
    }
    if step.Answer? && IsEnabled(c, s, step) { assert s.calls[step.call] in s.calls; }
  }

  // ----- and otherwise not -----

  /** A run in which the first answer is lost and the last request starts at the horizon and arrives late. */
  function LateStates(c: Config): seq<State> {
    var intent := Intent(Some(0), Some(0), 1, 0, Some(0), true);
    var row := Row(intent, Pending, IntentCreated, None, None, 0, None, None);
    var q := Request(0, 1, 0, 0);
    var once := row.(attempts := 1, firstAt := Some(0), stage := ProviderPending, nextAt := Some(RetryDelay(c, 1)));
    var twice := once.(attempts := 2, nextAt := Some(c.horizon + RetryDelay(c, 2)));
    var lost := Call(0, Some(q), 1, Some(0), false);
    var made := [Made(q, 0)];
    [State(row, 0, [], []),
     State(row, 0, [Call(0, None, 0, None, false)], []),
     State(once, 0, [Call(0, Some(q), 1, None, false)], []),
     State(once, 0, [lost], made),
     State(once, c.horizon, [lost], made),
     State(once, c.horizon, [lost, Call(c.horizon, None, 0, None, false)], made),
     State(twice, c.horizon, [lost, Call(c.horizon, Some(q), 2, None, false)], made),
     State(twice, c.horizon + c.delay, [lost, Call(c.horizon, Some(q), 2, None, false)], made),
     State(twice, c.horizon + c.delay, [lost, Call(c.horizon, Some(q), 2, Some(1), false)],
           made + [Made(q, c.horizon + c.delay)])]
  }

  function LateSteps(c: Config): seq<Step> {
    [Open, Enter(0, false, false), Arrive(0), Tick(c.horizon), Open, Enter(1, false, false), Tick(c.delay), Arrive(1)]
  }

  lemma LateRunHappens(c: Config, k: nat)
    requires !OutlivesRequests(c) && k < 8
    ensures LateStates(c)[k + 1] == Apply(c, LateStates(c)[k], LateSteps(c)[k])
  {
    hide RetryDelay;
  }

  lemma {:induction false} StatesOfRun(c: Config, s: State, steps: seq<Step>, states: seq<State>)
    requires |states| == |steps| + 1 && states[0] == s
    requires forall k :: 0 <= k < |steps| ==> states[k + 1] == Apply(c, states[k], steps[k])
    ensures Run(c, s, steps) == states[|steps|]
    decreases |steps|
  {
    hide Apply;
    if steps != [] { StatesOfRun(c, states[1], steps[1..], states[1..]); }
  }

  lemma LatePaymentsDouble(c: Config)
    requires !OutlivesRequests(c)
    ensures exists s :: Reachable(c, s) && |s.made| == 2
  {
    hide Apply;
    forall k: nat | k < 8 ensures LateStates(c)[k + 1] == Apply(c, LateStates(c)[k], LateSteps(c)[k]) {
      LateRunHappens(c, k);
    }
    StatesOfRun(c, LateStates(c)[0], LateSteps(c), LateStates(c));
    assert IsNew(LateStates(c)[0]) && Reachable(c, LateStates(c)[8]);
  }

  /** No run makes two payments if and only if the provider remembers a key for longer than the horizon plus
      the delay of a request, or the attempts are limited to one. */
  lemma OnePaymentIff(c: Config)
    ensures (forall s :: Reachable(c, s) ==> |s.made| <= 1) <==> OutlivesRequests(c)
  {
    hide Reachable;
    if OutlivesRequests(c) {
      forall s | Reachable(c, s) ensures |s.made| <= 1 { AtMostOnePayment(c, s, Open); }
    } else {
      LatePaymentsDouble(c);
    }
  }

  // ----- the row in place -----

  /** The invoice row as the two transactions around the provider call change it. */
  class CheckoutRow {
    var row: Row

    constructor (r: Row)
      ensures row == r
    {
      row := r;
    }

    method BeginAttempt(c: Config, now: int, blocked: bool, patient: bool) returns (answer: Answer)
      modifies this
      ensures (row, answer) == Begin(c, old(row), now, blocked, patient)
    {
      if row.stage == StageManual || row.status == ManualReview { return NeedsReview; }
      if row.status != Pending { return Terminal; }
      var review := blocked;
      if !review && row.url.Some? { return Url(row.url.value); }
      if !review && (row.intent.providerKey.None? || row.intent.clientKey.None?) {
        review := true;
      } else if !review && row.attempts >= c.limit {
        review := true;
      } else if !review && row.firstAt.Some? && row.firstAt.value < now - c.horizon {
        review := true;
      } else if !review && patient && row.nextAt.Some? && row.nextAt.value > now {
        return Wait(Max(1, row.nextAt.value - now));
      }
      if !review {
        row := row.(attempts := row.attempts + 1, stage := ProviderPending);
        if row.firstAt.None? { row := row.(firstAt := Some(now)); }
        row := row.(nextAt := Some(now + RetryDelay(c, row.attempts)));
        if row.intent.item.Some? {
          return Send(Request(row.intent.providerKey.value, row.intent.amount, row.intent.returnUrl,
                              row.intent.item.value), row.attempts);
        }
      }
      row := row.(status := ManualReview, stage := StageManual, nextAt := None);
      answer := NeedsReview;
    }

    method StoreAnswer(c: Config, id: nat, url: nat, taken: bool, now: int) returns (stored: bool)
      modifies this
      ensures (row, stored) == RecordAnswer(c, old(row), id, url, taken, now)
      ensures old(row).paymentId.Some? ==> row.paymentId == old(row).paymentId
    {
      if (row.paymentId.Some? && row.paymentId != Some(id)) || taken {
        row := row.(status := ManualReview, nextAt := None);
        if row.intent.clientKey.Some? { row := row.(stage := StageManual); }
        return false;
      }
      row := row.(paymentId := Some(id), url := Some(url));
      row := row.(stage := ProviderCreated, nextAt := Some(now + c.base));
      stored := true;
    }
  }
}
