/** Paid provider operations over one wallet: worker, sweeper and operator racing
    (apps/ai_agent/reconciliation.py), and media jobs reserving on the same wallet. */
module Operations {
  import opened Common
  import opened Wallet

  datatype Status = Reserved | PendingReconciliation | Released | Settled

  datatype ApplyState = NotRequired | ApplyPending | Applied

  /** A domain stands for the triple of task type, domain type and domain reference. */
  datatype Kind = ProviderCall(domain: nat) | MediaJob

  /** `called` and `sweptUnstarted` record history: the provider was called; the sweep released the row. */
  datatype Op = Op(
    kind: Kind, key: nat, amount: int, status: Status, charged: Option<int>,
    networkStarted: Option<int>, createdAt: int, apply: ApplyState, called: bool, sweptUnstarted: bool)

  predicate Held(o: Op) { o.status == Reserved || o.status == PendingReconciliation }

  predicate Unresolved(o: Op) {
    o.kind.ProviderCall? && (Held(o) || (o.status == Settled && o.apply == ApplyPending))
  }

  // ----- the locked transitions; Err stands for a raised error, which undoes the transaction -----

  function MarkStarted(o: Op, now: int): Result<Op, ()> {
    if o.status != Reserved then Err(())
    else Ok(if o.networkStarted.None? then o.(networkStarted := Some(now)) else o)
  }

  function MarkUncertain(o: Op): Op {
    if o.status == Reserved then o.(status := PendingReconciliation) else o
  }

  function ReleaseLocked(o: Op, w: Wallet): (Op, Wallet) {
    (o.(status := Released, charged := Some(0), apply := NotRequired), Release(w, o.key, o.amount))
  }

  function SettleLocked(o: Op, w: Wallet, actual: int, applyRequired: bool): Result<(Op, Wallet), ()> {
    match Settle(w, o.key, o.amount, actual)
    case None => Err(())
    case Some((v, charge)) =>
      Ok((o.(status := Settled, charged := Some(charge),
             apply := if applyRequired then ApplyPending else NotRequired), v))
  }

  function ReleaseOp(o: Op, w: Wallet): Result<(Op, Wallet), ()> {
    if o.status == Released then Ok((o, w))
    else if o.status == Settled then Err(())
    else Ok(ReleaseLocked(o, w))
  }

  function SettleOp(o: Op, w: Wallet, actual: int, applyRequired: bool, hasResult: bool): Result<(Op, Wallet), ()> {
    if o.status == Settled then Ok((o, w))
    else if o.status == Released || (applyRequired && !hasResult) then Err(())
    else SettleLocked(o, w, actual, applyRequired)
  }

  /** The operator's decision; only an operation pending reconciliation is decided. */
  function ResolveOp(o: Op, w: Wallet, release: bool): Result<(Op, Wallet), ()> {
    if o.status == (if release then Released else Settled) then Ok((o, w))
    else if o.status != PendingReconciliation then Err(())
    else if release then Ok(ReleaseLocked(o, w))
    else SettleLocked(o, w, o.amount, false)
  }

  function ApplyOp(o: Op): Result<Op, ()> {
    if o.status != Settled then Err(())
    else if o.apply == Applied then Ok(o)
    else if o.apply != ApplyPending then Err(())
    else Ok(o.(apply := Applied))
  }

  predicate StaleStarted(o: Op, checkedAt: int, timeout: int) {
    o.kind.ProviderCall? && o.status == Reserved && o.networkStarted.Some?
    && o.networkStarted.value <= checkedAt - timeout
  }

  predicate StaleUnstarted(o: Op, checkedAt: int, timeout: int) {
    o.kind.ProviderCall? && o.status == Reserved && o.networkStarted.None? && o.createdAt <= checkedAt - timeout
  }

  // ----- one tenant: its wallet and every reservation ever made on it -----

  datatype State = State(wallet: Wallet, ops: seq<Op>)

  datatype Step =
    | Begin(domain: nat, amount: int, key: nat, now: int)
    | MediaReserve(amount: int, key: nat, now: int)
    | Start(op: nat, now: int)
    | Call(op: nat)
    | Doubt(op: nat)
    | WorkerRelease(op: nat)
    | WorkerSettle(op: nat, actual: int, applyRequired: bool, hasResult: bool)
    | Resolve(op: nat, release: bool)
    | ApplyResult(op: nat)
    | SweepStarted(op: nat, checkedAt: int, timeout: int)
    | SweepUnstarted(op: nat, checkedAt: int, timeout: int)
    | MediaRelease(op: nat)
    | MediaSettle(op: nat)
    | GrantPeriod(limit: Option<int>, expiresAt: Option<int>, grant: Package)
    | ChangeLimit(newLimit: int, n: nat)
    | BuyCredits(amount: int, topup: nat)
    | TakeBack(amount: int, chargeback: bool, ref: nat)

  predicate DomainIsFree(ops: seq<Op>, domain: nat) {
    forall i :: 0 <= i < |ops| && Unresolved(ops[i]) ==> ops[i].kind != ProviderCall(domain)
  }

  function NewOp(kind: Kind, key: nat, amount: int, now: int): Op {
    Op(kind, key, Max(0, amount), Reserved, None, None, now, NotRequired, false, false)
  }

  function Update(s: State, i: nat, r: Result<(Op, Wallet), ()>): State
    requires i < |s.ops|
  {
    if r.Err? then s else State(r.value.1, s.ops[i := r.value.0])
  }

  function UpdateOp(s: State, i: nat, o: Op): State
    requires i < |s.ops|
  {
    s.(ops := s.ops[i := o])
  }

  function AddOp(s: State, r: Reservation, o: Op): State {
    if r.Granted? then State(r.wallet, s.ops + [o]) else s
  }

  /** The step applied to operation i, which exists and is a provider call. */
  function ApplyToCall(s: State, step: Step, i: nat): State
    requires i < |s.ops|
  {
    var o, w := s.ops[i], s.wallet;
    match step
    case Start(_, now) => (match MarkStarted(o, now) case Ok(p) => UpdateOp(s, i, p) case Err(_) => s)
    case Call(_) => if o.networkStarted.Some? then UpdateOp(s, i, o.(called := true)) else s
    case Doubt(_) => UpdateOp(s, i, MarkUncertain(o))
    case WorkerRelease(_) => Update(s, i, ReleaseOp(o, w))
    case WorkerSettle(_, actual, applyRequired, hasResult) =>
      Update(s, i, SettleOp(o, w, actual, applyRequired, hasResult))
    case Resolve(_, release) => Update(s, i, ResolveOp(o, w, release))
    case ApplyResult(_) => (match ApplyOp(o) case Ok(p) => UpdateOp(s, i, p) case Err(_) => s)
    case SweepStarted(_, checkedAt, timeout) =>
      if StaleStarted(o, checkedAt, timeout) then UpdateOp(s, i, o.(status := PendingReconciliation)) else s
    case SweepUnstarted(_, checkedAt, timeout) =>
      if StaleUnstarted(o, checkedAt, timeout) then
        var (p, v) := ReleaseLocked(o, w);
        State(v, s.ops[i := p.(sweptUnstarted := true)])
      else s
    case _ => s
  }

  /** A media job's reservation is released or settled only while it is marked reserved. */
  function ApplyToJob(s: State, step: Step, i: nat): State
    requires i < |s.ops|
  {
    var o, w := s.ops[i], s.wallet;
    if o.status != Reserved then s
    else if step.MediaRelease? then
      State(Release(w, o.key, o.amount), s.ops[i := o.(status := Released)])
    else if step.MediaSettle? then Update(s, i, SettleLocked(o, w, o.amount, false))
    else s
  }

  predicate IsWalletStep(step: Step) {
    step.GrantPeriod? || step.ChangeLimit? || step.BuyCredits? || step.TakeBack?
  }

  function WalletAfter(w: Wallet, step: Step): Wallet
    requires IsWalletStep(step)
  {
    match step
    case GrantPeriod(limit, at, g) => Grant(w, limit, at, g).OrElse(w)
    case ChangeLimit(limit, n) => if HasKey(w.ledger, LimitSyncKey(n)) then w else SyncLimit(w, limit, n)
    case BuyCredits(amount, t) => Topup(w, amount, t)
    case TakeBack(amount, chargeback, ref) => ReversePurchased(w, amount, ReversalKey(chargeback, ref)).0
  }

  function Apply(s: State, step: Step): State {
    if step.Begin? then
      if DomainIsFree(s.ops, step.domain)
      then AddOp(s, Reserve(s.wallet, step.amount, step.key, step.now),
                 NewOp(ProviderCall(step.domain), step.key, step.amount, step.now))
      else s
    else if step.MediaReserve? then
      if step.amount > 0
      then AddOp(s, Reserve(s.wallet, step.amount, step.key, step.now),
                 NewOp(MediaJob, step.key, step.amount, step.now))
      else s
    else if IsWalletStep(step) then s.(wallet := WalletAfter(s.wallet, step))
    else if step.op >= |s.ops| then s
    else if s.ops[step.op].kind.ProviderCall? then ApplyToCall(s, step, step.op)
    else ApplyToJob(s, step, step.op)
  }

  function Run(s: State, steps: seq<Step>): State
    decreases |steps|
  {
    if steps == [] then s else Run(Apply(s, steps[0]), steps[1..])
  }

  ghost predicate IsNew(s: State) {
    s.ops == [] && exists limit, used, at :: s.wallet == NewWallet(limit, used, at)
  }

  ghost predicate Reachable(s: State) {
    exists s0, steps :: IsNew(s0) && s == Run(s0, steps)
  }

  // ----- reserved column = held operations; ledger keys follow the operations -----

  function HeldAmount(o: Op): int { if Held(o) then o.amount else 0 }

  function HeldTotal(ops: seq<Op>): int {
    if ops == [] then 0 else HeldTotal(ops[..|ops| - 1]) + HeldAmount(ops[|ops| - 1])
  }

  ghost predicate AmountsFit(ops: seq<Op>) {
    forall i :: 0 <= i < |ops| ==> 0 <= ops[i].amount
  }

  /** A key that only the operation holding reservation k ever writes. */
  predicate ClosingKey(key: Key, k: nat) {
    key == ReleaseKey(k) || key == SettledKey(k) || key == ChargeIncludedKey(k) || key == ChargePurchasedKey(k)
  }

  ghost predicate KeysFit(s: State) {
    var l := s.wallet.ledger;
    && (forall i :: 0 <= i < |s.ops| ==> HasKey(l, ReserveKey(s.ops[i].key)))
    && (forall i, j :: 0 <= i < j < |s.ops| ==> s.ops[i].key != s.ops[j].key)
    && (forall i, key :: 0 <= i < |s.ops| && Held(s.ops[i]) && ClosingKey(key, s.ops[i].key) ==> !HasKey(l, key))
    && (forall key, k: nat :: HasKey(l, key) && ClosingKey(key, k) ==> HasKey(l, ReserveKey(k)))
  }

  ghost predicate Inv(s: State) {
    && NonNegative(s.wallet) && Booking(s.wallet)
    && s.wallet.reserved == HeldTotal(s.ops)
    && AmountsFit(s.ops) && KeysFit(s)
  }

  lemma {:induction false} HeldTotalOfUpdate(ops: seq<Op>, i: nat, o: Op)
    requires i < |ops|
    ensures HeldTotal(ops[i := o]) == HeldTotal(ops) - HeldAmount(ops[i]) + HeldAmount(o)
  {
    var n := |ops| - 1;
    if i < n {
      HeldTotalOfUpdate(ops[..n], i, o);
      assert ops[i := o][..n] == ops[..n][i := o];
    } else {
      assert ops[i := o][..n] == ops[..n];
    }
  }

  lemma {:induction false} HeldTotalCovers(ops: seq<Op>, i: nat)
    requires AmountsFit(ops) && i < |ops|
    ensures 0 <= HeldAmount(ops[i]) <= HeldTotal(ops)
  {
    HeldTotalIsPositive(ops[..|ops| - 1]);
    if i < |ops| - 1 { HeldTotalCovers(ops[..|ops| - 1], i); }
  }

  lemma {:induction false} HeldTotalIsPositive(ops: seq<Op>)
    requires AmountsFit(ops)
    ensures 0 <= HeldTotal(ops)
  {
    if ops != [] { HeldTotalIsPositive(ops[..|ops| - 1]); }
  }

  /** Which keys the operations add to the ledger. */
  lemma ReleaseKeys(w: Wallet, k: nat, amount: int)
    ensures forall key :: HasKey(Release(w, k, amount).ledger, key) <==> HasKey(w.ledger, key) || key == ReleaseKey(k)
  {
    hide HasKey, Total, Booked;
  }

  lemma SettleKeys(w: Wallet, k: nat, amount: int, actual: int)
    requires Settle(w, k, amount, actual).Some?
    ensures forall key :: HasKey(w.ledger, key) ==> HasKey(Settle(w, k, amount, actual).value.0.ledger, key)
    ensures forall key :: HasKey(Settle(w, k, amount, actual).value.0.ledger, key) ==>
      HasKey(w.ledger, key) || ClosingKey(key, k)
  {
    hide HasKey, Total, Booked;
  }

  lemma ReserveKeys(w: Wallet, amount: int, k: nat, now: int)
    requires Reserve(w, amount, k, now).Granted?
    ensures !HasKey(w.ledger, ReserveKey(k))
    ensures forall key :: HasKey(w.ledger, key) || key == ReserveKey(k) ==>
      HasKey(Reserve(w, amount, k, now).wallet.ledger, key)
    ensures forall key :: HasKey(Reserve(w, amount, k, now).wallet.ledger, key) ==>
      HasKey(w.ledger, key) || key == ReserveKey(k) || key.ExpireKey?
  {
    hide HasKey, Total, Booked;
  }

  lemma WalletStepKeys(w: Wallet, step: Step)
    requires IsWalletStep(step)
    ensures forall key :: HasKey(w.ledger, key) ==> HasKey(WalletAfter(w, step).ledger, key)
    ensures forall key :: HasKey(WalletAfter(w, step).ledger, key) ==>
      HasKey(w.ledger, key) || key.GrantKey? || key.GrantExpireKey? || key.LimitSyncKey? || key.TopupKey?
      || key.ReversalKey?
  {
    hide HasKey, Total, Booked;
  }

  lemma OtherKeysKeepFit(s: State, w: Wallet)
    requires KeysFit(s)
    requires forall key :: HasKey(s.wallet.ledger, key) ==> HasKey(w.ledger, key)
    requires forall key, k: nat :: HasKey(w.ledger, key) && ClosingKey(key, k) ==> HasKey(s.wallet.ledger, key)
    ensures KeysFit(s.(wallet := w))
  {
    hide HasKey;
  }

  lemma WalletStepKeepsInv(s: State, step: Step)
    requires Inv(s) && IsWalletStep(step)
    ensures Inv(s.(wallet := WalletAfter(s.wallet, step)))
  {
    hide WalletAfter, HasKey, Booking, NonNegative, KeysFit;
    WalletStepKeys(s.wallet, step);
    OtherKeysKeepFit(s, WalletAfter(s.wallet, step));
    WalletStepAmounts(s.wallet, step);
  }

  lemma WalletStepAmounts(w: Wallet, step: Step)
    requires IsWalletStep(step) && Booking(w) && NonNegative(w)
    ensures Booking(WalletAfter(w, step)) && NonNegative(WalletAfter(w, step))
    ensures WalletAfter(w, step).reserved == w.reserved
  {
    hide HasKey, Total, Booked;
    match step
    case GrantPeriod(limit, at, g) => if Grant(w, limit, at, g).Some? { GrantBooks(w, limit, at, g); }
    case ChangeLimit(limit, n) => OthersBook(w, limit, n, BootstrapKey);
    case BuyCredits(amount, t) => OthersBook(w, amount, t, BootstrapKey);
    case TakeBack(amount, chargeback, ref) => OthersBook(w, amount, 0, ReversalKey(chargeback, ref));
  }

  lemma AddOpKeepsKeys(s: State, o: Op, w: Wallet, k: nat)
    requires KeysFit(s) && o.key == k && !HasKey(s.wallet.ledger, ReserveKey(k))
    requires forall key :: HasKey(s.wallet.ledger, key) || key == ReserveKey(k) ==> HasKey(w.ledger, key)
    requires forall key :: HasKey(w.ledger, key) ==>
      HasKey(s.wallet.ledger, key) || key == ReserveKey(k) || key.ExpireKey?
    ensures KeysFit(State(w, s.ops + [o]))
  {
    hide HasKey;
  }

  lemma ReservingKeepsKeys(s: State, o: Op, amount: int, k: nat, now: int)
    requires KeysFit(s) && o.key == k && Reserve(s.wallet, amount, k, now).Granted?
    ensures KeysFit(State(Reserve(s.wallet, amount, k, now).wallet, s.ops + [o]))
  {
    hide HasKey, Reserve;
    ReserveKeys(s.wallet, amount, k, now);
    AddOpKeepsKeys(s, o, Reserve(s.wallet, amount, k, now).wallet, k);
  }

  lemma ReserveAmounts(w: Wallet, amount: int, k: nat, now: int)
    requires NonNegative(w) && Reserve(w, amount, k, now).Granted?
    ensures NonNegative(Reserve(w, amount, k, now).wallet)
    ensures Reserve(w, amount, k, now).wallet.reserved == w.reserved + Max(0, amount)
  {
    hide HasKey, Total, Booked;
  }

  lemma AddOpKeepsInv(s: State, kind: Kind, amount: int, k: nat, now: int)
    requires Inv(s)
    ensures Inv(AddOp(s, Reserve(s.wallet, amount, k, now), NewOp(kind, k, amount, now)))
  {
    hide HasKey, KeysFit, Booking, NonNegative, Reserve;
    var r := Reserve(s.wallet, amount, k, now);
    if r.Granted? {
      var o := NewOp(kind, k, amount, now);
      ReservingKeepsKeys(s, o, amount, k, now);
      ReserveBooks(s.wallet, amount, k, now);
      ReserveAmounts(s.wallet, amount, k, now);
      assert (s.ops + [o])[..|s.ops|] == s.ops;
    }
  }

  /** Status, charge and markers may change freely while the reservation stays held, or stays closed. */
  lemma OpChangeKeepsInv(s: State, i: nat, o: Op)
    requires Inv(s) && i < |s.ops| && o.key == s.ops[i].key && o.amount == s.ops[i].amount && Held(o) == Held(s.ops[i])
    ensures Inv(UpdateOp(s, i, o))
  {
    hide HasKey, Booking, NonNegative;
    HeldTotalOfUpdate(s.ops, i, o);
  }

  /** Releasing a held operation takes exactly its amount off the reserved column: the clamp never binds. */
  lemma ReleaseTakesTheAmount(s: State, i: nat)
    requires Inv(s) && i < |s.ops| && Held(s.ops[i])
    ensures var w := Release(s.wallet, s.ops[i].key, s.ops[i].amount);
            w == s.wallet.(reserved := s.wallet.reserved - s.ops[i].amount, ledger := w.ledger)
            && w.ledger == Post(s.wallet.ledger, Entry(ReleaseKey(s.ops[i].key), ReservedColumn, -s.ops[i].amount))
  {
    HeldTotalCovers(s.ops, i);
    assert ClosingKey(ReleaseKey(s.ops[i].key), s.ops[i].key);
  }

  /** Settling one never collides, takes exactly its amount off and charges what the wallet covers. */
  lemma SettleTakesTheAmount(s: State, i: nat, actual: int)
    requires Inv(s) && i < |s.ops| && Held(s.ops[i])
    ensures var o := s.ops[i]; var r := Settle(s.wallet, o.key, o.amount, actual);
            && r.Some? && r.value.0.reserved == s.wallet.reserved - o.amount
            && Balance(r.value.0) == Balance(s.wallet) - r.value.1
            && r.value.1 == Min(Max(0, actual), Max(0, Balance(s.wallet) - (s.wallet.reserved - o.amount)))
  {
    hide HasKey, Booking;
    var k := s.ops[i].key;
    HeldTotalCovers(s.ops, i);
    assert ClosingKey(SettledKey(k), k) && ClosingKey(ChargeIncludedKey(k), k) && ClosingKey(ChargePurchasedKey(k), k);
  }

  lemma CloseKeepsKeys(s: State, i: nat, o: Op, w: Wallet)
    requires KeysFit(s) && i < |s.ops| && !Held(o) && o.key == s.ops[i].key
    requires forall key :: HasKey(s.wallet.ledger, key) ==> HasKey(w.ledger, key)
    requires forall key :: HasKey(w.ledger, key) ==> HasKey(s.wallet.ledger, key) || ClosingKey(key, o.key)
    ensures KeysFit(State(w, s.ops[i := o]))
  {
    hide HasKey;
  }

  lemma CloseKeepsInv(s: State, i: nat, o: Op, w: Wallet)
    requires Inv(s) && i < |s.ops| && Held(s.ops[i]) && !Held(o) && o.key == s.ops[i].key && o.amount == s.ops[i].amount
    requires NonNegative(w) && Booking(w) && w.reserved == s.wallet.reserved - o.amount
    requires forall key :: HasKey(s.wallet.ledger, key) ==> HasKey(w.ledger, key)
    requires forall key :: HasKey(w.ledger, key) ==> HasKey(s.wallet.ledger, key) || ClosingKey(key, o.key)
    ensures Inv(State(w, s.ops[i := o]))
  {
    hide HasKey, Booking, NonNegative, KeysFit;
    CloseKeepsKeys(s, i, o, w);
    HeldTotalOfUpdate(s.ops, i, o);
  }

  lemma ReleaseKeepsInv(s: State, i: nat, o: Op)
    requires Inv(s) && i < |s.ops| && Held(s.ops[i]) && !Held(o) && o.key == s.ops[i].key && o.amount == s.ops[i].amount
    ensures Inv(State(Release(s.wallet, o.key, o.amount), s.ops[i := o]))
  {
    hide HasKey;
    ReleaseTakesTheAmount(s, i);
    HeldTotalCovers(s.ops, i);
    ReleaseKeys(s.wallet, o.key, o.amount);
    assert ClosingKey(ReleaseKey(o.key), o.key);
    ReleaseBooksIff(s.wallet, o.key, o.amount);
    CloseKeepsInv(s, i, o, Release(s.wallet, o.key, o.amount));
  }

  lemma SettleKeepsInv(s: State, i: nat, actual: int, applyRequired: bool)
    requires Inv(s) && i < |s.ops| && Held(s.ops[i])
    ensures Inv(Update(s, i, SettleLocked(s.ops[i], s.wallet, actual, applyRequired)))
  {
    hide HasKey;
    var o := s.ops[i];
    SettleTakesTheAmount(s, i, actual);
    HeldTotalCovers(s.ops, i);
    SettleKeys(s.wallet, o.key, o.amount, actual);
    assert ClosingKey(SettledKey(o.key), o.key);
    SettleBooksIff(s.wallet, o.key, o.amount, actual);
    var (p, v) := SettleLocked(o, s.wallet, actual, applyRequired).value;
    CloseKeepsInv(s, i, p, v);
  }

  lemma CallStepKeepsInv(s: State, step: Step, i: nat)
    requires Inv(s) && i < |s.ops|
    ensures Inv(ApplyToCall(s, step, i))
  {
    hide Inv, Settle, Release;
    var o := s.ops[i];
    match step
    case Start(_, now) => if o.status == Reserved { OpChangeKeepsInv(s, i, MarkStarted(o, now).value); }
    case Call(_) => OpChangeKeepsInv(s, i, o.(called := true));
    case Doubt(_) => OpChangeKeepsInv(s, i, MarkUncertain(o));
    case WorkerRelease(_) => if Held(o) { ReleaseKeepsInv(s, i, ReleaseLocked(o, s.wallet).0); }
      assert o.status == Released ==> s.ops[i := o] == s.ops;
    case WorkerSettle(_, actual, applyRequired, hasResult) =>
      if Held(o) { SettleKeepsInv(s, i, actual, applyRequired); }
      assert o.status == Settled ==> s.ops[i := o] == s.ops;
    case Resolve(_, release) =>
      if Held(o) {
        ReleaseKeepsInv(s, i, ReleaseLocked(o, s.wallet).0);
        SettleKeepsInv(s, i, o.amount, false);
      }
      assert !Held(o) ==> s.ops[i := o] == s.ops;
    case ApplyResult(_) => if ApplyOp(o).Ok? { OpChangeKeepsInv(s, i, ApplyOp(o).value); }
    case SweepStarted(_, checkedAt, timeout) =>
      if o.status == Reserved { OpChangeKeepsInv(s, i, o.(status := PendingReconciliation)); }
    case SweepUnstarted(_, checkedAt, timeout) =>
      if Held(o) { ReleaseKeepsInv(s, i, ReleaseLocked(o, s.wallet).0.(sweptUnstarted := true)); }
    case _ =>
  }

  lemma StepKeepsInv(s: State, step: Step)
    requires Inv(s)
    ensures Inv(Apply(s, step))
  {
    hide Inv, Settle, Release, Reserve, WalletAfter, ApplyToCall;
    if step.Begin? {
      AddOpKeepsInv(s, ProviderCall(step.domain), step.amount, step.key, step.now);
    } else if step.MediaReserve? {
      AddOpKeepsInv(s, MediaJob, step.amount, step.key, step.now);
    } else if IsWalletStep(step) {
      WalletStepKeepsInv(s, step);
    } else if step.op < |s.ops| {
      var o := s.ops[step.op];
      CallStepKeepsInv(s, step, step.op);
      if o.status == Reserved {
        ReleaseKeepsInv(s, step.op, o.(status := Released));
        SettleKeepsInv(s, step.op, o.amount, false);
      }
    }
  }

  lemma {:induction false} RunKeepsInv(s: State, steps: seq<Step>)
    requires Inv(s)
    ensures Inv(Run(s, steps))
    decreases |steps|
  {
    hide Inv, Apply;
    if steps != [] {
      StepKeepsInv(s, steps[0]);
      RunKeepsInv(Apply(s, steps[0]), steps[1..]);
    }
  }

  lemma NewWalletKeys(limit: int, used: int, at: Option<int>)
    ensures forall key :: HasKey(NewWallet(limit, used, at).ledger, key) ==> key == BootstrapKey
  {}

  lemma NewStateIsSound(s: State)
    requires IsNew(s)
    ensures Inv(s)
  {
    hide HasKey, Booking, NewWallet;
    var limit, used, at :| s.wallet == NewWallet(limit, used, at);
    NewWalletBooks(limit, used, at);
    NewWalletKeys(limit, used, at);
    assert s.wallet.reserved == 0 by { NewWalletHoldsNothing(limit, used, at); }
  }

  lemma NewWalletHoldsNothing(limit: int, used: int, at: Option<int>)
    ensures NewWallet(limit, used, at).reserved == 0
  {}

  /** In every reachable state the reserved column is what is held, and every column is what its ledger says. */
  lemma ReachableIsSound(s: State)
    requires Reachable(s)
    ensures Inv(s)
  {
    var s0, steps :| IsNew(s0) && s == Run(s0, steps);
    NewStateIsSound(s0);
    RunKeepsInv(s0, steps);
  }

  /** The clamp of a release and the clamp of a settlement never bind on a held operation. */
  lemma ClampsNeverBind(s: State, i: nat)
    requires Reachable(s) && i < |s.ops| && Held(s.ops[i])
    ensures s.wallet.reserved == HeldTotal(s.ops)
    ensures Min(s.wallet.reserved, s.ops[i].amount) == s.ops[i].amount
    ensures Max(0, s.wallet.reserved - s.ops[i].amount) == s.wallet.reserved - s.ops[i].amount
  {
    ReachableIsSound(s);
    HeldTotalCovers(s.ops, i);
  }

  // ----- each outcome is decided once -----

  ghost predicate Closed(o: Op) { !Held(o) }

  /** A closed operation keeps its status and its charge for ever. */
  lemma {:induction false} ClosedStaysClosed(s: State, steps: seq<Step>, i: nat)
    requires i < |s.ops| && Closed(s.ops[i])
    ensures i < |Run(s, steps).ops|
    ensures Run(s, steps).ops[i].status == s.ops[i].status && Run(s, steps).ops[i].charged == s.ops[i].charged
    decreases |steps|
  {
    if steps != [] {
      ClosedIsKept(s, steps[0], i);
      ClosedStaysClosed(Apply(s, steps[0]), steps[1..], i);
    }
  }

  lemma ClosedIsKept(s: State, step: Step, i: nat)
    requires i < |s.ops| && Closed(s.ops[i])
    ensures i < |Apply(s, step).ops|
    ensures var o := Apply(s, step).ops[i];
            Closed(o) && o.status == s.ops[i].status && o.charged == s.ops[i].charged
  {
    hide Settle, Release, Reserve, WalletAfter;
  }

  /** History facts of one operation. */
  ghost predicate History(o: Op) {
    && (o.kind.ProviderCall? && o.status == Released ==> o.charged == Some(0))
    && (o.kind.ProviderCall? && o.status == Settled ==> o.charged.Some?)
    && (Held(o) ==> o.charged == None)
    && (o.called ==> o.networkStarted.Some?)
    && (o.sweptUnstarted ==> o.status == Released && o.networkStarted == None)
    && (o.apply == ApplyPending ==> o.status == Settled)
  }

  ghost predicate Histories(s: State) {
    forall i :: 0 <= i < |s.ops| ==> History(s.ops[i])
  }

  /** No two unresolved operations of one domain. */
  ghost predicate OnePerDomain(s: State) {
    forall i, j :: 0 <= i < j < |s.ops| && Unresolved(s.ops[i]) && Unresolved(s.ops[j]) ==>
      s.ops[i].kind != s.ops[j].kind
  }

  lemma StepKeepsHistories(s: State, step: Step)
    requires Histories(s)
    ensures Histories(Apply(s, step))
  {
    hide Settle, Release, Reserve, WalletAfter, DomainIsFree;
  }

  lemma StepKeepsOnePerDomain(s: State, step: Step)
    requires OnePerDomain(s)
    ensures OnePerDomain(Apply(s, step))
  {
    hide Settle, Release, Reserve, WalletAfter;
  }

  lemma {:induction false} RunKeepsHistories(s: State, steps: seq<Step>)
    requires Histories(s) && OnePerDomain(s)
    ensures Histories(Run(s, steps)) && OnePerDomain(Run(s, steps))
    decreases |steps|
  {
    hide Histories, OnePerDomain, Apply;
    if steps != [] {
      StepKeepsHistories(s, steps[0]);
      StepKeepsOnePerDomain(s, steps[0]);
      RunKeepsHistories(Apply(s, steps[0]), steps[1..]);
    }
  }

  /** The sweep never releases an operation whose provider was called, and a released call costs nothing. */
  lemma PaidCallIsSafe(s: State, i: nat)
    requires Reachable(s) && i < |s.ops|
    ensures s.ops[i].sweptUnstarted ==> !s.ops[i].called && s.ops[i].networkStarted == None
    ensures s.ops[i].kind.ProviderCall? && s.ops[i].status == Released ==> s.ops[i].charged == Some(0)
    ensures s.ops[i].kind.ProviderCall? && s.ops[i].status == Settled ==> s.ops[i].charged.Some?
    ensures Held(s.ops[i]) ==> s.ops[i].charged == None
  {
    var s0, steps :| IsNew(s0) && s == Run(s0, steps);
    RunKeepsHistories(s0, steps);
  }

  /** A domain has at most one unresolved operation. */
  lemma OneUnresolvedPerDomain(s: State, i: nat, j: nat)
    requires Reachable(s) && i < j < |s.ops| && s.ops[i].kind == s.ops[j].kind
    ensures !Unresolved(s.ops[i]) || !Unresolved(s.ops[j])
  {
    var s0, steps :| IsNew(s0) && s == Run(s0, steps);
    RunKeepsHistories(s0, steps);
  }

  /** The network boundary is written only while the reservation is held by an undecided operation. */
  lemma BoundaryNeedsReservation(s: State, step: Step, i: nat)
    requires i < |s.ops| && Apply(s, step).ops[i].networkStarted != s.ops[i].networkStarted
    ensures step.Start? && step.op == i && s.ops[i].status == Reserved && s.ops[i].networkStarted == None
  {
    hide Settle, Release, Reserve, WalletAfter;
  }

  // ----- backed runs settle in full -----

  /** Neither a new period nor a zero reservation that expires the package. */
  predicate KeepsPackages(s: State, step: Step) {
    && !step.GrantPeriod?
    && (step.Begin? && step.amount <= 0 ==> !Expired(s.wallet, step.now))
  }

  predicate AllKeepPackages(s: State, steps: seq<Step>)
    decreases |steps|
  {
    steps == [] || (KeepsPackages(s, steps[0]) && AllKeepPackages(Apply(s, steps[0]), steps[1..]))
  }

  lemma StepKeepsBacking(s: State, step: Step)
    requires Inv(s) && Backed(s.wallet) && KeepsPackages(s, step)
    ensures Backed(Apply(s, step).wallet)
  {
    hide HasKey, Total, Booked, KeysFit;
    if step.Begin? || step.MediaReserve? {
      if Reserve(s.wallet, step.amount, step.key, step.now).Granted? {
        ReserveBacks(s.wallet, step.amount, step.key, step.now);
      }
    } else if IsWalletStep(step) {
      match step
      case ChangeLimit(limit, n) => SyncBacks(s.wallet, limit, n);
      case BuyCredits(amount, t) => OthersKeepBacking(s.wallet, t, amount, BootstrapKey);
      case TakeBack(amount, chargeback, ref) => OthersKeepBacking(s.wallet, 0, amount, ReversalKey(chargeback, ref));
    } else if step.op < |s.ops| {
      CloseKeepsBacking(s, step.op);
    }
  }

  lemma CloseKeepsBacking(s: State, i: nat)
    requires Inv(s) && Backed(s.wallet) && i < |s.ops|
    ensures var o := s.ops[i];
            && Backed(Release(s.wallet, o.key, o.amount))
            && forall actual :: Settle(s.wallet, o.key, o.amount, actual).Some? ==>
                 Backed(Settle(s.wallet, o.key, o.amount, actual).value.0)
  {
    var o := s.ops[i];
    OthersKeepBacking(s.wallet, o.key, o.amount, BootstrapKey);
    forall actual | Settle(s.wallet, o.key, o.amount, actual).Some?
      ensures Backed(Settle(s.wallet, o.key, o.amount, actual).value.0)
    {
      SettleKeepsBacking(s.wallet, o.key, o.amount, actual);
    }
  }

  /** On runs without package expiry or period grant every price within its reservation is charged in full. */
  lemma {:induction false} BackedRunsSettleInFull(s: State, steps: seq<Step>, i: nat, actual: int)
    requires Inv(s) && Backed(s.wallet) && AllKeepPackages(s, steps)
    requires i < |Run(s, steps).ops| && Held(Run(s, steps).ops[i]) && 0 <= actual <= Run(s, steps).ops[i].amount
    ensures Backed(Run(s, steps).wallet)
    ensures var t := Run(s, steps); var o := t.ops[i];
            Settle(t.wallet, o.key, o.amount, actual).Some?
            && Settle(t.wallet, o.key, o.amount, actual).value.1 == actual
    decreases |steps|
  {
    hide Apply, Settle;
    if steps == [] {
      SettleTakesTheAmount(s, i, actual);
      HeldTotalCovers(s.ops, i);
    } else {
      StepKeepsInv(s, steps[0]);
      StepKeepsBacking(s, steps[0]);
      BackedRunsSettleInFull(Apply(s, steps[0]), steps[1..], i, actual);
    }
  }

  // ----- a package that was expired once -----

  predicate NoNewPeriod(steps: seq<Step>) {
    forall k :: 0 <= k < |steps| ==> !steps[k].GrantPeriod?
  }

  ghost predicate KeepsExpiry(w: Wallet, v: Wallet, key: Key) {
    v.expiresAt == w.expiresAt && (HasKey(w.ledger, key) ==> HasKey(v.ledger, key))
  }

  lemma OperationsKeepExpiry(w: Wallet, k: nat, amount: int, actual: int, now: int, key: Key)
    ensures KeepsExpiry(w, Release(w, k, amount), key)
    ensures Settle(w, k, amount, actual).Some? ==> KeepsExpiry(w, Settle(w, k, amount, actual).value.0, key)
    ensures Reserve(w, amount, k, now).Granted? ==> KeepsExpiry(w, Reserve(w, amount, k, now).wallet, key)
  {
    hide HasKey, Booked, Total;
  }

  lemma WalletStepKeepsExpiry(w: Wallet, step: Step, key: Key)
    requires IsWalletStep(step) && !step.GrantPeriod?
    ensures KeepsExpiry(w, WalletAfter(w, step), key)
  {
    hide HasKey, Booked, Total;
  }

  lemma StepKeepsExpiry(s: State, step: Step, key: Key)
    requires !step.GrantPeriod?
    ensures KeepsExpiry(s.wallet, Apply(s, step).wallet, key)
  {
    hide HasKey, Release, Settle, Reserve, WalletAfter, DomainIsFree;
    if step.Begin? || step.MediaReserve? {
      OperationsKeepExpiry(s.wallet, step.key, step.amount, 0, step.now, key);
    } else if IsWalletStep(step) {
      WalletStepKeepsExpiry(s.wallet, step, key);
    } else if step.op < |s.ops| {
      var o := s.ops[step.op];
      OperationsKeepExpiry(s.wallet, o.key, o.amount, if step.WorkerSettle? then step.actual else o.amount, 0, key);
    }
  }

  lemma {:induction false} RunKeepsExpiry(s: State, steps: seq<Step>, key: Key)
    requires NoNewPeriod(steps) && HasKey(s.wallet.ledger, key)
    ensures Run(s, steps).wallet.expiresAt == s.wallet.expiresAt
    ensures HasKey(Run(s, steps).wallet.ledger, key)
    decreases |steps|
  {
    hide Apply, HasKey;
    if steps != [] {
      StepKeepsExpiry(s, steps[0], key);
      RunKeepsExpiry(Apply(s, steps[0]), steps[1..], key);
    }
  }

  /** Once a package's expiry is booked, until a new period is granted and whatever else happens, a later
      reservation aborts exactly while included credits are left, from a limit raise for instance. */
  lemma ExpiredPackageBlocksWhileIncluded(s: State, steps: seq<Step>, requested: int, k: nat, now: int)
    requires s.wallet.expiresAt.Some? && HasKey(s.wallet.ledger, ExpireKey(s.wallet.expiresAt.value))
    requires NoNewPeriod(steps) && s.wallet.expiresAt.value < now
    requires !HasKey(Run(s, steps).wallet.ledger, ReserveKey(k))
    ensures Reserve(Run(s, steps).wallet, requested, k, now) == KeyCollision <==> Run(s, steps).wallet.included > 0
  {
    hide Run, HasKey;
    RunKeepsExpiry(s, steps, ExpireKey(s.wallet.expiresAt.value));
    ReserveAbortsIffExpiredTwice(Run(s, steps).wallet, requested, k, now);
  }

  // ----- the sweep over stale operations -----

  predicate Stale(o: Op, started: bool, checkedAt: int, timeout: int) {
    if started then StaleStarted(o, checkedAt, timeout) else StaleUnstarted(o, checkedAt, timeout)
  }

  function SweepStep(i: nat, started: bool, checkedAt: int, timeout: int): Step {
    if started then SweepStarted(i, checkedAt, timeout) else SweepUnstarted(i, checkedAt, timeout)
  }

  /** One pass over the rows the database offers, in its order, up to a limit. */
  function SweepPass(s: State, rows: seq<nat>, started: bool, checkedAt: int, timeout: int, limit: nat): (State, nat) {
    if rows == [] then (s, 0)
    else
      var (t, count) := SweepPass(s, rows[..|rows| - 1], started, checkedAt, timeout, limit);
      var i := rows[|rows| - 1];
      if count < limit && i < |t.ops| && Stale(t.ops[i], started, checkedAt, timeout)
      then (Apply(t, SweepStep(i, started, checkedAt, timeout)), count + 1)
      else (t, count)
  }

  /** `reconcile_stale_ai_provider_operations`: started rows become uncertain, unstarted ones are released. */
  method ReconcileStale(s: State, startedRows: seq<nat>, unstartedRows: seq<nat>, checkedAt: int,
                        startedTimeout: int, unstartedTimeout: int, limit: int)
    returns (r: Result<(State, nat, nat), string>)
    ensures r.Err? <==> !(1 <= limit <= 1000) || startedTimeout < 1 || unstartedTimeout < 1
    ensures r.Ok? ==>
      var (t, pending) := SweepPass(s, startedRows, true, checkedAt, startedTimeout, limit);
      pending <= limit
      && (r.value.0, r.value.2) == SweepPass(t, unstartedRows, false, checkedAt, unstartedTimeout, limit - pending)
      && r.value.1 == pending
  {
    hide Apply, StaleStarted, StaleUnstarted;
    if !(1 <= limit <= 1000) {
      return Err("limit must be between 1 and 1000");
    }
    if startedTimeout < 1 || unstartedTimeout < 1 {
      return Err("stale timeouts must be positive");
    }
    var t, pending, released := s, 0, 0;
    for k := 0 to |startedRows|
      invariant (t, pending) == SweepPass(s, startedRows[..k], true, checkedAt, startedTimeout, limit)
      invariant pending <= limit
    {
      assert startedRows[..k + 1][..k] == startedRows[..k];
      var i := startedRows[k];
      if pending < limit && i < |t.ops| && StaleStarted(t.ops[i], checkedAt, startedTimeout) {
        t := Apply(t, SweepStarted(i, checkedAt, startedTimeout));
        pending := pending + 1;
      }
    }
    assert startedRows[..|startedRows|] == startedRows;
    ghost var marked := t;
    for k := 0 to |unstartedRows|
      invariant (t, released) ==
        SweepPass(marked, unstartedRows[..k], false, checkedAt, unstartedTimeout, limit - pending)
    {
      assert unstartedRows[..k + 1][..k] == unstartedRows[..k];
      var i := unstartedRows[k];
      if released < limit - pending && i < |t.ops| && StaleUnstarted(t.ops[i], checkedAt, unstartedTimeout) {
        t := Apply(t, SweepUnstarted(i, checkedAt, unstartedTimeout));
        released := released + 1;
      }
    }
    assert unstartedRows[..|unstartedRows|] == unstartedRows;
    return Ok((t, pending, released));
  }

  /** A pass keeps all invariants and, unless it met its limit, leaves no stale row of its kind behind. */
  lemma {:induction false} SweepPassIsComplete(
      s: State, rows: seq<nat>, started: bool, checkedAt: int, timeout: int, limit: nat)
    requires Inv(s) && Histories(s) && OnePerDomain(s)
    ensures var (t, count) := SweepPass(s, rows, started, checkedAt, timeout, limit);
            && Inv(t) && Histories(t) && OnePerDomain(t) && |t.ops| == |s.ops|
            && count <= limit
            && (count < limit ==> forall k :: 0 <= k < |rows| && rows[k] < |t.ops| ==>
                  !Stale(t.ops[rows[k]], started, checkedAt, timeout))
            && (forall i :: 0 <= i < |t.ops| && t.ops[i] != s.ops[i] ==>
                  Stale(s.ops[i], started, checkedAt, timeout) && i in rows
                  && t.ops[i].status == if started then PendingReconciliation else Released)
  {
    hide Inv, Histories, OnePerDomain, Settle, Release, Reserve, WalletAfter, ApplyToJob;
    if rows != [] {
      var n := |rows| - 1;
      SweepPassIsComplete(s, rows[..n], started, checkedAt, timeout, limit);
      var t := SweepPass(s, rows[..n], started, checkedAt, timeout, limit).0;
      var step := SweepStep(rows[n], started, checkedAt, timeout);
      StepKeepsInv(t, step);
      StepKeepsHistories(t, step);
      StepKeepsOnePerDomain(t, step);
    }
  }
}
