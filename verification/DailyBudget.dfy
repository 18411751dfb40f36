/** Daily budgets: a shared cache counter that requests add to, read and roll back without a lock, and the
    variant kept in the database (apps/core/throttling.py). */
module DailyBudget {
  import opened Common

  /** `midnight` ends the budget's day, `grace` is the minute added to the life of the counter, `delay`
      bounds the time from a request's reading of the date to its last cache operation. */
  datatype Config = Config(limit: int, midnight: int, grace: nat, delay: nat)

  datatype Refusal = BackendUnavailable | LimitReached | BadLimit

  /** Charged carries the total that `incr` returned. */
  datatype Phase = Opened | Added | Charged(total: int) | Granted(total: int) | Refused(reason: Refusal)

  datatype Request = Request(cost: int, readAt: int, phase: Phase)

  datatype Counter = Counter(value: int, expires: int)

  datatype State = State(clock: int, counter: Option<Counter>, requests: seq<Request>)

  /** `lost`: the operation happened but its reply did not arrive. */
  datatype Step =
    | Tick(seconds: nat)
    | Open(cost: int)
    | AddKey(request: nat, lost: bool)
    | Increment(request: nat, lost: bool)
    | CacheFails(request: nat)
    | Grant(request: nat)
    | RollBack(request: nat, reached: bool)

  /** The counter unless its time is over. */
  function Live(s: State): Option<Counter> {
    if s.counter.Some? && s.clock < s.counter.value.expires then s.counter else None
  }

  /** `_seconds_until_next_local_day` on whole seconds. */
  function WaitSeconds(c: Config, now: int): int { Max(1, c.midnight - now) }

  predicate IsEnabled(c: Config, s: State, step: Step) {
    match step
    case Tick(_) => true
    case Open(cost) => cost > 0 && c.limit > 0 && s.clock < c.midnight
    case AddKey(i, _) => IsAt(c, s, i) && s.requests[i].phase.Opened?
    case Increment(i, _) => IsAt(c, s, i) && s.requests[i].phase.Added?
    case CacheFails(i) => IsAt(c, s, i) && (s.requests[i].phase.Opened? || s.requests[i].phase.Added?)
    case Grant(i) => i < |s.requests| && s.requests[i].phase.Charged? && s.requests[i].phase.total <= c.limit
    case RollBack(i, _) => IsAt(c, s, i) && s.requests[i].phase.Charged? && s.requests[i].phase.total > c.limit
  }

  predicate IsAt(c: Config, s: State, i: nat) {
    i < |s.requests| && s.clock <= s.requests[i].readAt + c.delay
  }

  function SetPhase(s: State, i: nat, p: Phase): State
    requires i < |s.requests|
  {
    s.(requests := s.requests[i := s.requests[i].(phase := p)])
  }

  function Apply(c: Config, s: State, step: Step): State {
    if !IsEnabled(c, s, step) then s
    else
      match step
      case Tick(seconds) => s.(clock := s.clock + seconds)
      case Open(cost) => s.(requests := s.requests + [Request(cost, s.clock, Opened)])
      case AddKey(i, lost) =>
        var life := WaitSeconds(c, s.requests[i].readAt) + c.grace;
        var t := if Live(s).Some? then s else s.(counter := Some(Counter(0, s.clock + life)));
        SetPhase(t, i, if lost then Refused(BackendUnavailable) else Added)
      case Increment(i, lost) =>
        (match Live(s)
         case None => SetPhase(s, i, Refused(BackendUnavailable))
         case Some(k) =>
           var total := k.value + s.requests[i].cost;
           SetPhase(s.(counter := Some(k.(value := total))), i,
                    if lost then Refused(BackendUnavailable) else Charged(total)))
      case CacheFails(i) => SetPhase(s, i, Refused(BackendUnavailable))
      case Grant(i) => SetPhase(s, i, Granted(s.requests[i].phase.total))
      case RollBack(i, reached) =>
        var t := SetPhase(s, i, Refused(LimitReached));
        if reached && Live(s).Some?
        then t.(counter := Some(s.counter.value.(value := s.counter.value.value - s.requests[i].cost)))
        else t
  }

  function Run(c: Config, s: State, steps: seq<Step>): State
    decreases |steps|
  {
    if steps == [] then s else Run(c, Apply(c, s, steps[0]), steps[1..])
  }

  ghost predicate Reachable(c: Config, s: State) {
    exists start: int, steps :: s == Run(c, State(start, None, []), steps)
  }

  /** Costs of granted requests. */
  function GrantedCost(requests: seq<Request>): int {
    if requests == [] then 0
    else
      var r := requests[|requests| - 1];
      GrantedCost(requests[..|requests| - 1]) + if r.phase.Granted? then r.cost else 0
  }

  // ----- the invariant -----

  /** What a request contributes: to the grants, already made or certain, and to the counter. */
  function Won(c: Config, r: Request): int {
    if r.phase.Granted? || (r.phase.Charged? && r.phase.total <= c.limit) then r.cost else 0
  }

  function Owed(r: Request): int {
    if r.phase.Granted? || r.phase.Charged? then r.cost else 0
  }

  function WonCost(c: Config, requests: seq<Request>): int {
    if requests == [] then 0 else WonCost(c, requests[..|requests| - 1]) + Won(c, requests[|requests| - 1])
  }

  function OwedCost(requests: seq<Request>): int {
    if requests == [] then 0 else OwedCost(requests[..|requests| - 1]) + Owed(requests[|requests| - 1])
  }

  lemma {:induction false} SetRequest(c: Config, requests: seq<Request>, i: nat, r: Request)
    requires i < |requests|
    ensures WonCost(c, requests[i := r]) == WonCost(c, requests) - Won(c, requests[i]) + Won(c, r)
    ensures OwedCost(requests[i := r]) == OwedCost(requests) - Owed(requests[i]) + Owed(r)
  {
    hide Won, Owed;
    var m := |requests| - 1;
    if i == m {
      assert requests[i := r][..m] == requests[..m];
    } else {
      assert requests[i := r][..m] == requests[..m][i := r];
      SetRequest(c, requests[..m], i, r);
    }
  }

  lemma AppendRequest(c: Config, requests: seq<Request>, r: Request)
    ensures WonCost(c, requests + [r]) == WonCost(c, requests) + Won(c, r)
    ensures OwedCost(requests + [r]) == OwedCost(requests) + Owed(r)
  {
    assert (requests + [r])[..|requests|] == requests;
  }

  lemma {:induction false} CostsAreOrdered(c: Config, requests: seq<Request>)
    requires forall r :: r in requests ==> r.cost > 0
    ensures 0 <= GrantedCost(requests) <= WonCost(c, requests) <= OwedCost(requests)
  {
    if requests != [] {
      assert requests == requests[..|requests| - 1] + [requests[|requests| - 1]];
      CostsAreOrdered(c, requests[..|requests| - 1]);
    }
  }

  predicate RequestFits(c: Config, s: State, r: Request) {
    && r.cost > 0 && r.readAt < c.midnight && r.readAt <= s.clock
    && (r.phase.Added? || r.phase.Charged? || r.phase.Granted? ==> s.counter.Some?)
  }

  ghost predicate Inv(c: Config, s: State) {
    && (forall r :: r in s.requests ==> RequestFits(c, s, r))
    && (s.counter.Some? ==> s.counter.value.expires >= c.midnight + c.grace)
    && OwedCost(s.requests) <= (if s.counter.Some? then s.counter.value.value else 0)
    && WonCost(c, s.requests) <= Max(0, c.limit)
  }

  /** While requests are quick the counter of the day is never lost. */
  lemma CounterIsAlive(c: Config, s: State, i: nat)
    requires Inv(c, s) && c.delay <= c.grace && IsAt(c, s, i)
    ensures Live(s) == s.counter
  {
    assert s.requests[i] in s.requests && RequestFits(c, s, s.requests[i]);
  }

  lemma StepKeepsRequests(c: Config, s: State, step: Step)
    requires Inv(c, s) && c.delay <= c.grace
    ensures var t := Apply(c, s, step);
      && (forall r :: r in t.requests ==> RequestFits(c, t, r))
      && (t.counter.Some? ==> t.counter.value.expires >= c.midnight + c.grace)
  {
    hide OwedCost, WonCost;
    var t := Apply(c, s, step);
    if IsEnabled(c, s, step) && !step.Tick? && !step.Open? {
      assert RequestFits(c, s, s.requests[step.request]);
      if IsAt(c, s, step.request) { CounterIsAlive(c, s, step.request); }
    }
    forall r | r in t.requests ensures RequestFits(c, t, r) {
      if r in s.requests { assert RequestFits(c, s, r); }
    }
  }

  lemma StepKeepsCosts(c: Config, s: State, step: Step)
    requires Inv(c, s) && c.delay <= c.grace
    ensures var t := Apply(c, s, step);
      && OwedCost(t.requests) <= (if t.counter.Some? then t.counter.value.value else 0)
      && WonCost(c, t.requests) <= Max(0, c.limit)
  {
    hide OwedCost, WonCost, GrantedCost;
    if IsEnabled(c, s, step) && !step.Tick? {
      var t := Apply(c, s, step);
      if step.Open? {
        AppendRequest(c, s.requests, Request(step.cost, s.clock, Opened));
      } else {
        assert s.requests[step.request] in s.requests;
        if IsAt(c, s, step.request) { CounterIsAlive(c, s, step.request); }
        SetRequest(c, s.requests, step.request, t.requests[step.request]);
        CostsAreOrdered(c, s.requests);
      }
    }
  }

  lemma {:induction false} RunKeepsInv(c: Config, s: State, steps: seq<Step>)
    requires Inv(c, s) && c.delay <= c.grace
    ensures Inv(c, Run(c, s, steps))
    decreases |steps|
  {
    hide Apply, RequestFits, OwedCost, WonCost;
    if steps != [] {
      StepKeepsRequests(c, s, steps[0]);
      StepKeepsCosts(c, s, steps[0]);
      RunKeepsInv(c, Apply(c, s, steps[0]), steps[1..]);
    }
  }

  /** A refused charge is given back exactly when its rollback reaches the counter; a charge adds its cost and
      a grant or a failure leaves the counter alone. */
  lemma CounterMoves(c: Config, s: State, i: nat, flag: bool)
    requires i < |s.requests| && s.counter.Some? && Live(s) == s.counter
    ensures var n := s.counter.value.value; var r := s.requests[i];
      && (IsEnabled(c, s, Increment(i, flag)) ==>
            Apply(c, s, Increment(i, flag)).counter == Some(s.counter.value.(value := n + r.cost)))
      && (IsEnabled(c, s, RollBack(i, flag)) ==>
            Apply(c, s, RollBack(i, flag)).counter ==
              Some(s.counter.value.(value := if flag then n - r.cost else n))
            && Apply(c, s, RollBack(i, flag)).requests[i].phase == Refused(LimitReached))
      && Apply(c, s, Grant(i)).counter == s.counter && Apply(c, s, CacheFails(i)).counter == s.counter
      && Apply(c, s, AddKey(i, flag)).counter == s.counter
  {}

  /** A request is granted exactly when the total it was told is within the limit. */
  lemma GrantedIff(c: Config, s: State, i: nat, total: int)
    requires i < |s.requests| && s.requests[i].phase == Charged(total)
    ensures Apply(c, s, Grant(i)).requests[i].phase == (if total <= c.limit then Granted(total) else Charged(total))
  {}

  // ----- never oversold -----

  /** While no request outlasts the minute of grace, the counter covers every grant and the grants stay
      within the limit, whatever is interleaved, lost or not rolled back. */
  lemma BudgetIsNeverOversold(c: Config, s: State)
    requires Reachable(c, s) && c.delay <= c.grace
    ensures GrantedCost(s.requests) <= (if s.counter.Some? then s.counter.value.value else 0)
    ensures GrantedCost(s.requests) <= Max(0, c.limit)
  {
    hide Apply, RequestFits;
    var start: int, steps :| s == Run(c, State(start, None, []), steps);
    RunKeepsInv(c, State(start, None, []), steps);
    forall r | r in s.requests ensures r.cost > 0 { FitsOf(c, s, r); }
    CostsAreOrdered(c, s.requests);
  }

  lemma FitsOf(c: Config, s: State, r: Request)
    requires Inv(c, s) && r in s.requests
    ensures RequestFits(c, s, r) && r.cost > 0
  {
    hide OwedCost, WonCost;
  }

  /** A slow request that starts the counter of yesterday anew. */
  function SlowStates(c: Config): seq<State> {
    var now := c.midnight - 1;
    var later := now + c.grace + 1;
    var full := Counter(c.limit, later);
    var anew := Counter(0, later + 1 + c.grace);
    var done := Request(c.limit, now, Granted(c.limit));
    var slow := Request(c.limit, now, Opened);
    [State(now, None, []),
     State(now, None, [slow]),
     State(now, None, [slow, slow]),
     State(now, Some(full.(value := 0)), [slow.(phase := Added), slow]),
     State(now, Some(full), [slow.(phase := Charged(c.limit)), slow]),
     State(now, Some(full), [done, slow]),
     State(later, Some(full), [done, slow]),
     State(later, Some(anew), [done, slow.(phase := Added)]),
     State(later, Some(anew.(value := c.limit)), [done, slow.(phase := Charged(c.limit))]),
     State(later, Some(anew.(value := c.limit)), [done, done])]
  }

  function SlowSteps(c: Config): seq<Step> {
    [Open(c.limit), Open(c.limit), AddKey(0, false), Increment(0, false), Grant(0), Tick(c.grace + 1),
     AddKey(1, false), Increment(1, false), Grant(1)]
  }

  lemma SlowRunHappens(c: Config, k: nat)
    requires c.delay > c.grace && c.limit > 0 && k < 9
    ensures SlowStates(c)[k + 1] == Apply(c, SlowStates(c)[k], SlowSteps(c)[k])
  {}

  lemma {:induction false} StatesOfRun(c: Config, s: State, steps: seq<Step>, states: seq<State>)
    requires |states| == |steps| + 1 && states[0] == s
    requires forall k :: 0 <= k < |steps| ==> states[k + 1] == Apply(c, states[k], steps[k])
    ensures Run(c, s, steps) == states[|steps|]
    decreases |steps|
  {
    hide Apply;
    if steps != [] { StatesOfRun(c, states[1], steps[1..], states[1..]); }
  }

  lemma SlowRequestsOversell(c: Config)
    requires c.delay > c.grace && c.limit > 0
    ensures exists s :: Reachable(c, s) && GrantedCost(s.requests) == 2 * c.limit
  {
    hide Apply;
    forall k: nat | k < 9 ensures SlowStates(c)[k + 1] == Apply(c, SlowStates(c)[k], SlowSteps(c)[k]) {
      SlowRunHappens(c, k);
    }
    StatesOfRun(c, SlowStates(c)[0], SlowSteps(c), SlowStates(c));
    var s := SlowStates(c)[9];
    assert Reachable(c, s);
    var done := Request(c.limit, c.midnight - 1, Granted(c.limit));
    assert s.requests == [done, done] && s.requests[..1] == [done] && [done][..0] == [];
    assert GrantedCost([done]) == c.limit;
  }

  /** The budget of a day holds in every run if and only if no request can outlast the minute of grace. */
  lemma BudgetHoldsIff(c: Config)
    requires c.limit > 0
    ensures (forall s :: Reachable(c, s) ==> GrantedCost(s.requests) <= c.limit) <==> c.delay <= c.grace
  {
    hide Reachable, GrantedCost;
    if c.delay <= c.grace {
      forall s | Reachable(c, s) ensures GrantedCost(s.requests) <= c.limit { BudgetIsNeverOversold(c, s); }
    } else {
      SlowRequestsOversell(c);
    }
  }

  // ----- the variant kept in the database -----

  /** One charge inside the caller's transaction: the units afterwards, or a refusal that changes nothing. */
  function ChargeUnits(units: int, cost: int, limit: int): Result<int, Refusal> {
    if cost <= 0 then Ok(units)
    else if limit <= 0 then Err(BadLimit)
    else if units + cost > limit then Err(LimitReached)
    else Ok(units + cost)
  }

  /** The charges of one outer transaction; a refused one, like any other error, undoes it. */
  datatype Transaction = Transaction(costs: seq<int>, commits: bool)

  function ChargeAll(units: int, costs: seq<int>, limit: int): Result<int, Refusal>
    decreases |costs|
  {
    if costs == [] then Ok(units)
    else
      match ChargeUnits(units, costs[0], limit)
      case Err(e) => Err(e)
      case Ok(u) => ChargeAll(u, costs[1..], limit)
  }

  /** The tenant row is locked until a transaction ends, so that transactions follow one another. */
  function UnitsAfter(units: int, transactions: seq<Transaction>, limit: int): int
    decreases |transactions|
  {
    if transactions == [] then units
    else
      var t := transactions[0];
      var r := ChargeAll(units, t.costs, limit);
      UnitsAfter(if t.commits && r.Ok? then r.value else units, transactions[1..], limit)
  }

  function PaidCost(costs: seq<int>): nat
    decreases |costs|
  {
    if costs == [] then 0 else Max(0, costs[0]) + PaidCost(costs[1..])
  }

  /** The cost of the transactions that took effect. */
  function CommittedCost(units: int, transactions: seq<Transaction>, limit: int): nat
    decreases |transactions|
  {
    if transactions == [] then 0
    else
      var t := transactions[0];
      var r := ChargeAll(units, t.costs, limit);
      if t.commits && r.Ok? then PaidCost(t.costs) + CommittedCost(r.value, transactions[1..], limit)
      else CommittedCost(units, transactions[1..], limit)
  }

  lemma {:induction false} ChargesAddUp(units: int, costs: seq<int>, limit: int)
    ensures ChargeAll(units, costs, limit).Ok? <==>
      PaidCost(costs) == 0 || (limit > 0 && units + PaidCost(costs) <= limit)
    ensures ChargeAll(units, costs, limit).Ok? ==> ChargeAll(units, costs, limit).value == units + PaidCost(costs)
    decreases |costs|
  {
    if costs != [] && ChargeUnits(units, costs[0], limit).Ok? {
      ChargesAddUp(ChargeUnits(units, costs[0], limit).value, costs[1..], limit);
    }
  }

  /** Stored units are exactly what committed transactions paid, and never above the limit. */
  lemma {:induction false} TransactionsNeverOversell(units: int, transactions: seq<Transaction>, limit: int)
    requires 0 <= units <= Max(0, limit)
    ensures UnitsAfter(units, transactions, limit) == units + CommittedCost(units, transactions, limit) <= Max(0, limit)
    decreases |transactions|
  {
    if transactions != [] {
      var t := transactions[0];
      ChargesAddUp(units, t.costs, limit);
      var r := ChargeAll(units, t.costs, limit);
      TransactionsNeverOversell(if t.commits && r.Ok? then r.value else units, transactions[1..], limit);
    }
  }

  /** The locked usage row. */
  class DailyUsage {
    var units: int

    constructor ()
      ensures units == 0
    {
      units := 0;
    }

    /** The result is what the function returns: the new total, or 0 for a free request. */
    method Consume(cost: int, limit: int) returns (r: Result<int, Refusal>)
      modifies this
      ensures var charged := ChargeUnits(old(units), cost, limit);
        && units == (if charged.Ok? then charged.value else old(units))
        && r == (if cost <= 0 then Ok(0) else charged)
    {
      if cost <= 0 { return Ok(0); }
      if limit <= 0 { return Err(BadLimit); }
      var total := units + cost;
      if total > limit { return Err(LimitReached); }
      units := total;
      r := Ok(total);
    }
  }
}
