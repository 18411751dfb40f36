/** Checkout intents and the registry of client keys of one tenant (apps/billing/services.py,
    apps/billing/models.py). Transactions that hold different row locks interleave here: the intent
    transaction holds the subscription row, a binding transaction holds its invoice row. */
module CheckoutKeys {
  import opened Common

  datatype Kind = Term | Credits

  /** What a payload hash stands for; the hash covers the purchase type. */
  datatype Payload = Payload(kind: Kind, digest: nat)

  /** Active: pending with a provider checkout; Unresolved: a legacy or manual-review payment that may
      still charge; Settled: everything else. */
  datatype Progress = Active | Unresolved | Settled

  /** `canonical` is missing on legacy invoices. */
  datatype Intent = Intent(canonical: Option<nat>, payload: Payload, progress: Progress)

  datatype KeyRecord = KeyRecord(key: nat, intent: nat, payload: Payload)

  datatype Refusal = Conflict(intent: nat) | ManualReview | TermIsActive | InProgress(intent: nat)

  datatype Decision = Create | Use(intent: nat) | Refuse(reason: Refusal)

  // ----- lookups -----

  function FindRecord(records: seq<KeyRecord>, key: nat): (r: Option<KeyRecord>)
    ensures r.Some? ==> r.value in records && r.value.key == key
    ensures r.None? ==> forall x :: x in records ==> x.key != key
  {
    if records == [] then None
    else
      var n := |records| - 1;
      assert records == records[..n] + [records[n]];
      if records[n].key == key then Some(records[n]) else FindRecord(records[..n], key)
  }

  function FindCanonical(intents: seq<Intent>, key: nat): (r: Option<nat>)
    ensures r.Some? ==> r.value < |intents| && intents[r.value].canonical == Some(key)
    ensures r.None? ==> forall i :: 0 <= i < |intents| ==> intents[i].canonical != Some(key)
  {
    if intents == [] then None
    else
      var n := |intents| - 1;
      if intents[n].canonical == Some(key) then Some(n) else FindCanonical(intents[..n], key)
  }

  predicate IsActive(v: Intent, kind: Kind, payload: Option<Payload>) {
    v.progress == Active && v.payload.kind == kind && payload.OrElse(v.payload) == v.payload
  }

  /** The oldest active intent of this kind, or with this payload when one is given. */
  function FirstActive(intents: seq<Intent>, kind: Kind, payload: Option<Payload>): (r: Option<nat>)
    ensures r.Some? ==> r.value < |intents| && IsActive(intents[r.value], kind, payload)
    ensures forall i :: 0 <= i < r.OrElse(|intents|) && i < |intents| ==> !IsActive(intents[i], kind, payload)
  {
    if intents == [] then None
    else
      var n := |intents| - 1;
      match FirstActive(intents[..n], kind, payload)
      case Some(i) => Some(i)
      case None =>
        if IsActive(intents[n], kind, payload) then Some(n) else None
  }

  predicate HasUnresolvedTerm(intents: seq<Intent>) {
    exists i :: 0 <= i < |intents| && intents[i].payload.kind == Term && intents[i].progress == Unresolved
  }

  // ----- the intent transaction -----

  /** `_checkout_intent_for_client_key`: Use, Refuse(Conflict) or, for an unknown key, Create. */
  function Known(intents: seq<Intent>, records: seq<KeyRecord>, key: nat, payload: Payload): Decision
    requires forall r :: r in records ==> r.intent < |intents|
  {
    match FindRecord(records, key)
    case Some(r) =>
      if r.payload != payload || intents[r.intent].payload != payload then Refuse(Conflict(r.intent)) else Use(r.intent)
    case None =>
      match FindCanonical(intents, key)
      case Some(i) => if intents[i].payload != payload then Refuse(Conflict(i)) else Use(i)
      case None => Create
  }

  /** `_subscription_checkout_intent` and `_ai_checkout_intent` under the subscription lock. */
  function Decide(intents: seq<Intent>, records: seq<KeyRecord>, key: nat, payload: Payload, termActive: bool): Decision
    requires forall r :: r in records ==> r.intent < |intents|
  {
    var known := Known(intents, records, key, payload);
    if known.Refuse? then known
    else if payload.kind == Credits then
      if known.Use? then known
      else
        match FirstActive(intents, Credits, Some(payload))
        case Some(i) => Use(i)
        case None => Create
    else if HasUnresolvedTerm(intents) then Refuse(ManualReview)
    else if known.Create? && termActive then Refuse(TermIsActive)
    else if known.Use? then known
    else
      match FirstActive(intents, Term, None)
      case Some(i) => if intents[i].payload == payload then Use(i) else Refuse(InProgress(i))
      case None => Create
  }

  // ----- the binding transaction -----

  datatype BindAnswer = Bound | Clash(intent: nat) | KeyLimit

  function KeysOf(records: seq<KeyRecord>, intent: nat): nat {
    if records == [] then 0
    else
      var n := |records| - 1;
      KeysOf(records[..n], intent) + if records[n].intent == intent then 1 else 0
  }

  /** The canonical key is spoken for but has no row of its own yet. */
  predicate IsReserved(intents: seq<Intent>, records: seq<KeyRecord>, i: nat)
    requires i < |intents|
  {
    intents[i].canonical.Some?
    && forall r :: r in records ==> !(r.key == intents[i].canonical.value && r.intent == i)
  }

  function AcceptedKeys(intents: seq<Intent>, records: seq<KeyRecord>, i: nat): nat
    requires i < |intents|
  {
    KeysOf(records, i) + if IsReserved(intents, records, i) then 1 else 0
  }

  /** `_bind_checkout_client_key` after its look for a foreign canonical key. */
  function BindKey(intents: seq<Intent>, records: seq<KeyRecord>, i: nat, key: nat, payload: Payload, limit: nat)
    : (seq<KeyRecord>, BindAnswer)
    requires i < |intents|
  {
    match FindRecord(records, key)
    case Some(r) => (records, if r.intent != i || r.payload != payload then Clash(r.intent) else Bound)
    case None =>
      if intents[i].canonical != Some(key) && AcceptedKeys(intents, records, i) >= limit then (records, KeyLimit)
      else (records + [KeyRecord(key, i, payload)], Bound)
  }

  // ----- interleaved transactions -----

  /** A decided intent transaction that has not written yet. */
  datatype Lookup = Lookup(key: nat, payload: Payload, decision: Decision)

  datatype Phase = Waiting | Checked | Over

  datatype Bind = Bind(intent: nat, key: nat, payload: Payload, phase: Phase)

  /** `lookup` is the holder of the subscription row. */
  datatype State = State(intents: seq<Intent>, records: seq<KeyRecord>, lookup: Option<Lookup>, binds: seq<Bind>)

  datatype Step =
    | Look(key: nat, payload: Payload, termActive: bool)
    | Finish
    | Rollback
    | Shortcut(key: nat, payload: Payload)
    | CheckCanonical(bind: nat)
    | CommitBind(bind: nat)
    | Settle(intent: nat, progress: Progress)

  /** Foreign keys: every row named by a record or by a running transaction exists. */
  ghost predicate RowsExist(s: State) {
    && (forall r :: r in s.records ==> r.intent < |s.intents|)
    && (forall b :: b in s.binds ==> b.intent < |s.intents|)
  }

  ghost predicate RecordsPoint(s: State) {
    forall r :: r in s.records ==> r.intent < |s.intents| && r.payload == s.intents[r.intent].payload
  }

  ghost predicate BindsPoint(s: State) {
    forall b :: b in s.binds ==> b.intent < |s.intents| && b.payload == s.intents[b.intent].payload
  }

  predicate RowIsFree(binds: seq<Bind>, intent: nat) {
    forall b :: b in binds ==> !(b.intent == intent && b.phase == Checked)
  }

  function AskBind(s: State, intent: nat, key: nat, payload: Payload): State {
    s.(binds := s.binds + [Bind(intent, key, payload, Waiting)])
  }

  /** The intent row is written, or an existing one used, and its key is then to be bound. */
  function FinishLookup(s: State, k: Lookup): State {
    match k.decision
    case Create => AskBind(s.(intents := s.intents + [Intent(Some(k.key), k.payload, Active)], lookup := None),
                           |s.intents|, k.key, k.payload)
    case Use(i) => AskBind(s.(lookup := None), i, k.key, k.payload)
    case Refuse(_) => s.(lookup := None)
  }

  function CheckBind(s: State, n: nat): State
    requires n < |s.binds|
  {
    var b := s.binds[n];
    var found := FindCanonical(s.intents, b.key);
    s.(binds := s.binds[n := b.(phase := if found.Some? && found.value != b.intent then Over else Checked)])
  }

  function FinishBind(s: State, n: nat, limit: nat): State
    requires n < |s.binds| && s.binds[n].intent < |s.intents|
  {
    var b := s.binds[n];
    s.(records := BindKey(s.intents, s.records, b.intent, b.key, b.payload, limit).0,
       binds := s.binds[n := b.(phase := Over)])
  }

  ghost predicate IsEnabled(s: State, step: Step) {
    && RowsExist(s)
    && match step
       case Look(key, payload, termActive) => s.lookup.None?
       case Finish => s.lookup.Some?
       case Rollback => s.lookup.Some?
       case Shortcut(key, payload) => payload.kind == Credits && Known(s.intents, s.records, key, payload).Use?
       case CheckCanonical(n) => n < |s.binds| && s.binds[n].phase == Waiting && RowIsFree(s.binds, s.binds[n].intent)
       case CommitBind(n) => n < |s.binds| && s.binds[n].phase == Checked
       case Settle(i, progress) => i < |s.intents| && progress != Active && RowIsFree(s.binds, i)
  }

  ghost function Apply(s: State, step: Step, limit: nat): State {
    if !IsEnabled(s, step) then s
    else
      match step
      case Look(key, payload, termActive) =>
        s.(lookup := Some(Lookup(key, payload, Decide(s.intents, s.records, key, payload, termActive))))
      case Finish => FinishLookup(s, s.lookup.value)
      case Rollback => s.(lookup := None)
      case Shortcut(key, payload) => AskBind(s, Known(s.intents, s.records, key, payload).intent, key, payload)
      case CheckCanonical(n) => CheckBind(s, n)
      case CommitBind(n) => FinishBind(s, n, limit)
      case Settle(i, progress) => s.(intents := s.intents[i := s.intents[i].(progress := progress)])
  }

  ghost function Run(s: State, steps: seq<Step>, limit: nat): State
    decreases |steps|
  {
    if steps == [] then s else Run(Apply(s, steps[0], limit), steps[1..], limit)
  }

  /** Rows of legacy invoices may exist from the start; they have no key. */
  ghost predicate IsNew(s: State) {
    && s.records == [] && s.lookup.None? && s.binds == []
    && forall i :: 0 <= i < |s.intents| ==> s.intents[i].canonical.None? && s.intents[i].progress != Active
  }

  ghost predicate Reachable(s: State, limit: nat) {
    exists s0, steps :: IsNew(s0) && s == Run(s0, steps, limit)
  }

  // ----- invariants -----

  ghost predicate KeysAreUnique(s: State) {
    && (forall j, k :: 0 <= j < k < |s.records| ==> s.records[j].key != s.records[k].key)
    && (forall i, j :: 0 <= i < j < |s.intents| && s.intents[i].canonical.Some? ==>
          s.intents[i].canonical != s.intents[j].canonical)
  }

  ghost predicate KeysAreBounded(s: State, limit: nat) {
    forall i :: 0 <= i < |s.intents| ==> AcceptedKeys(s.intents, s.records, i) <= limit
  }

  /** The two partial uniqueness constraints on active checkouts. */
  ghost predicate ActiveIsUnique(intents: seq<Intent>) {
    forall i, j :: 0 <= i < j < |intents| && intents[i].progress == Active && intents[j].progress == Active ==>
      intents[i].payload != intents[j].payload
      && !(intents[i].payload.kind == Term && intents[j].payload.kind == Term)
  }

  /** What the holder of the subscription row has seen stays true until it writes. */
  ghost predicate LookupHolds(s: State) {
    s.lookup.Some? ==>
      var k := s.lookup.value;
      && (k.decision.Use? ==> k.decision.intent < |s.intents| && s.intents[k.decision.intent].payload == k.payload)
      && (k.decision.Create? ==>
            forall i :: 0 <= i < |s.intents| ==>
              && s.intents[i].canonical != Some(k.key)
              && (s.intents[i].progress == Active ==>
                    s.intents[i].payload != k.payload
                    && !(s.intents[i].payload.kind == Term && k.payload.kind == Term)))
  }

  ghost predicate Inv(s: State, limit: nat) {
    && RecordsPoint(s) && BindsPoint(s) && KeysAreUnique(s) && KeysAreBounded(s, limit)
    && ActiveIsUnique(s.intents) && LookupHolds(s)
  }

  lemma AppendKey(records: seq<KeyRecord>, r: KeyRecord, i: nat)
    ensures KeysOf(records + [r], i) == KeysOf(records, i) + if r.intent == i then 1 else 0
  {
    assert (records + [r])[..|records|] == records;
  }

  lemma {:induction false} NoKeysBeyond(records: seq<KeyRecord>, i: nat)
    requires forall r :: r in records ==> r.intent < i
    ensures KeysOf(records, i) == 0
  {
    if records != [] { NoKeysBeyond(records[..|records| - 1], i); }
  }

  /** A binding never moves a key, and takes a new one only below the limit. */
  lemma BindingIsBounded(intents: seq<Intent>, records: seq<KeyRecord>, i: nat, key: nat, payload: Payload,
                         limit: nat, j: nat)
    requires i < |intents| && j < |intents| && AcceptedKeys(intents, records, j) <= limit
    ensures AcceptedKeys(intents, BindKey(intents, records, i, key, payload, limit).0, j) <= limit
  {
    hide KeysOf;
    var r := KeyRecord(key, i, payload);
    AppendKey(records, r, j);
    assert forall x :: x in records + [r] <==> x in records || x == r;
    if FindRecord(records, key).None? && intents[i].canonical == Some(key) && i == j {
      assert IsReserved(intents, records, i);
      assert r in records + [r];
    }
  }

  /** The answer of a binding tells who owns the key from now on. */
  lemma BindingTellsTheOwner(intents: seq<Intent>, records: seq<KeyRecord>, i: nat, key: nat, payload: Payload,
                             limit: nat)
    requires i < |intents|
    ensures var (after, answer) := BindKey(intents, records, i, key, payload, limit);
      && (answer.Bound? <==> FindRecord(after, key) == Some(KeyRecord(key, i, payload)))
      && (answer.Clash? ==> after == records && FindRecord(after, key).Some?)
      && (answer.KeyLimit? ==> after == records && FindRecord(after, key).None?)
  {
    assert (records + [KeyRecord(key, i, payload)])[..|records|] == records;
  }

  lemma StepKeepsPointers(s: State, step: Step, limit: nat)
    requires RecordsPoint(s) && BindsPoint(s) && LookupHolds(s)
    ensures RecordsPoint(Apply(s, step, limit)) && BindsPoint(Apply(s, step, limit))
  {
    hide FindRecord, FindCanonical, FirstActive, KeysOf;
  }

  lemma StepKeepsUniqueness(s: State, step: Step, limit: nat)
    requires KeysAreUnique(s) && ActiveIsUnique(s.intents) && LookupHolds(s)
    ensures KeysAreUnique(Apply(s, step, limit)) && ActiveIsUnique(Apply(s, step, limit).intents)
  {
    hide FindRecord, FindCanonical, FirstActive, KeysOf;
  }

  lemma StepKeepsBounds(s: State, step: Step, limit: nat)
    requires KeysAreBounded(s, limit) && limit >= 1
    ensures KeysAreBounded(Apply(s, step, limit), limit)
  {
    hide FindRecord, FindCanonical, FirstActive, KeysOf;
    var t := Apply(s, step, limit);
    forall i: nat | i < |t.intents| ensures AcceptedKeys(t.intents, t.records, i) <= limit {
      if i < |s.intents| {
        assert AcceptedKeys(s.intents, s.records, i) <= limit;
        if step.CommitBind? && IsEnabled(s, step) {
          var b := s.binds[step.bind];
          BindingIsBounded(s.intents, s.records, b.intent, b.key, b.payload, limit, i);
        }
      } else {
        NoKeysBeyond(s.records, |s.intents|);
      }
    }
  }

  lemma StepKeepsLookup(s: State, step: Step, limit: nat)
    requires RecordsPoint(s) && LookupHolds(s)
    ensures LookupHolds(Apply(s, step, limit))
  {
    hide KeysOf;
  }

  lemma {:induction false} RunKeepsInv(s: State, steps: seq<Step>, limit: nat)
    requires Inv(s, limit) && limit >= 1
    ensures Inv(Run(s, steps, limit), limit)
    decreases |steps|
  {
    hide Apply, RecordsPoint, BindsPoint, KeysAreUnique, KeysAreBounded, ActiveIsUnique, LookupHolds;
    if steps != [] {
      StepKeepsPointers(s, steps[0], limit);
      StepKeepsUniqueness(s, steps[0], limit);
      StepKeepsBounds(s, steps[0], limit);
      StepKeepsLookup(s, steps[0], limit);
      RunKeepsInv(Apply(s, steps[0], limit), steps[1..], limit);
    }
  }

  lemma ReachableIsSound(s: State, limit: nat)
    requires Reachable(s, limit) && limit >= 1
    ensures Inv(s, limit)
  {
    var s0, steps :| IsNew(s0) && s == Run(s0, steps, limit);
    assert Inv(s0, limit);
    RunKeepsInv(s0, steps, limit);
  }

  // ----- what holds in every run -----

  /** Canonical and further keys of an invoice stay within the limit, the unrecorded canonical key included. */
  lemma KeysStayBounded(s: State, limit: nat, i: nat)
    requires Reachable(s, limit) && limit >= 1 && i < |s.intents|
    ensures AcceptedKeys(s.intents, s.records, i) <= limit
  {
    hide RecordsPoint, BindsPoint, KeysAreUnique, ActiveIsUnique, LookupHolds, AcceptedKeys;
    ReachableIsSound(s, limit);
  }

  /** A tenant has at most one active subscription checkout and one per payload. */
  lemma OneActiveCheckout(s: State, limit: nat, i: nat, j: nat)
    requires Reachable(s, limit) && limit >= 1 && i < j < |s.intents|
    requires s.intents[i].progress == Active && s.intents[j].progress == Active
    ensures s.intents[i].payload != s.intents[j].payload
    ensures s.intents[i].payload.kind == Credits || s.intents[j].payload.kind == Credits
  {
    hide RecordsPoint, BindsPoint, KeysAreUnique, KeysAreBounded, LookupHolds;
    ReachableIsSound(s, limit);
  }

  lemma StepExtends(s: State, step: Step, limit: nat)
    ensures var t := Apply(s, step, limit);
      && s.records <= t.records
      && |s.intents| <= |t.intents|
      && forall i :: 0 <= i < |s.intents| ==>
           t.intents[i].canonical == s.intents[i].canonical && t.intents[i].payload == s.intents[i].payload
           && (t.intents[i].progress == Active ==> s.intents[i].progress == Active)
  {
    hide FindRecord, FindCanonical, FirstActive, KeysOf;
  }

  lemma {:induction false} RunExtends(s: State, steps: seq<Step>, limit: nat)
    ensures s.records <= Run(s, steps, limit).records
    decreases |steps|
  {
    hide Apply;
    if steps != [] {
      StepExtends(s, steps[0], limit);
      RunExtends(Apply(s, steps[0], limit), steps[1..], limit);
    }
  }

  lemma {:induction false} FoundIffRecorded(records: seq<KeyRecord>, r: KeyRecord)
    requires forall j, k :: 0 <= j < k < |records| ==> records[j].key != records[k].key
    ensures FindRecord(records, r.key) == Some(r) <==> r in records
  {}

  /** A recorded client key stands for one invoice and one payload, whatever happens later. */
  lemma ClientKeysAreForever(s: State, steps: seq<Step>, limit: nat, r: KeyRecord)
    requires Reachable(s, limit) && limit >= 1 && FindRecord(s.records, r.key) == Some(r)
    ensures var t := Run(s, steps, limit);
      && FindRecord(t.records, r.key) == Some(r)
      && r.intent < |t.intents| && t.intents[r.intent].payload == r.payload
  {
    hide Apply, KeysAreBounded, ActiveIsUnique, LookupHolds;
    ReachableIsSound(s, limit);
    RunKeepsInv(s, steps, limit);
    RunExtends(s, steps, limit);
    var t := Run(s, steps, limit);
    assert r in t.records by {
      var k :| 0 <= k < |s.records| && s.records[k] == r;
      assert t.records[k] == r;
    }
    FoundIffRecorded(t.records, r);
  }

  /** While a subscription payment is unresolved no subscription checkout goes on, known key or not. */
  lemma UnresolvedPaymentBlocks(s: State, key: nat, payload: Payload, termActive: bool, i: nat)
    requires RowsExist(s) && payload.kind == Term && i < |s.intents|
    requires s.intents[i].payload.kind == Term && s.intents[i].progress == Unresolved
    ensures Decide(s.intents, s.records, key, payload, termActive).Refuse?
  {}

  /** A new subscription checkout is written only for an unknown key, without a running paid term, and
      when no other subscription checkout was active or unresolved. */
  lemma NewCheckoutNeedsASettledPast(s: State, key: nat, payload: Payload, termActive: bool, i: nat)
    requires RowsExist(s) && payload.kind == Term && i < |s.intents|
    requires Decide(s.intents, s.records, key, payload, termActive).Create?
    ensures !termActive && s.intents[i].canonical != Some(key)
    ensures s.intents[i].payload.kind == Term ==> s.intents[i].progress.Settled?
    ensures FindRecord(s.records, key).None?
  {}

  // ----- canonical keys and the registry -----

  /** A key reserved by one invoice is never recorded for another one. */
  ghost predicate Agrees(s: State) {
    forall r, i :: r in s.records && 0 <= i < |s.intents| && s.intents[i].canonical == Some(r.key) ==> i == r.intent
  }

  /** The lookup of a transaction, repeated at the moment it writes, would still let it write. */
  ghost predicate WouldStillWrite(s: State, step: Step, limit: nat) {
    && (step.Finish? && IsEnabled(s, step) && s.lookup.value.decision.Create? ==>
          FindRecord(s.records, s.lookup.value.key).None?)
    && (step.CommitBind? && IsEnabled(s, step) && Apply(s, step, limit).records != s.records ==>
          var b := s.binds[step.bind]; FindCanonical(s.intents, b.key).OrElse(b.intent) == b.intent)
  }

  ghost predicate AllStillWrite(s: State, steps: seq<Step>, limit: nat)
    decreases |steps|
  {
    steps == [] || (WouldStillWrite(s, steps[0], limit) && AllStillWrite(Apply(s, steps[0], limit), steps[1..], limit))
  }

  lemma StepAgreesIff(s: State, step: Step, limit: nat)
    requires Inv(s, limit) && Agrees(s)
    ensures Agrees(Apply(s, step, limit)) <==> WouldStillWrite(s, step, limit)
  {
    hide FirstActive, KeysOf, KeysAreBounded, ActiveIsUnique;
    var t := Apply(s, step, limit);
    if step.CommitBind? && IsEnabled(s, step) && t.records != s.records {
      var b := s.binds[step.bind];
      assert KeyRecord(b.key, b.intent, b.payload) in t.records;
    }
    if step.Finish? && IsEnabled(s, step) && s.lookup.value.decision.Create? {
      assert t.intents[|s.intents|].canonical == Some(s.lookup.value.key);
    }
  }

  lemma SplitStaysSplit(s: State, step: Step, limit: nat)
    requires Agrees(Apply(s, step, limit))
    ensures Agrees(s)
  {
    hide Apply;
    StepExtends(s, step, limit);
    var t := Apply(s, step, limit);
    forall r, i | r in s.records && 0 <= i < |s.intents| && s.intents[i].canonical == Some(r.key)
      ensures i == r.intent
    {
      assert r in t.records && t.intents[i].canonical == Some(r.key);
    }
  }

  lemma {:induction false} RunAgreesIff(s: State, steps: seq<Step>, limit: nat)
    requires Inv(s, limit) && limit >= 1
    ensures Agrees(Run(s, steps, limit)) <==> Agrees(s) && AllStillWrite(s, steps, limit)
    decreases |steps|
  {
    hide Apply, Agrees, WouldStillWrite, Inv;
    if steps != [] {
      var t := Apply(s, steps[0], limit);
      assert Run(s, steps[..1], limit) == t by { assert steps[..1][1..] == []; }
      RunKeepsInv(s, steps[..1], limit);
      if Agrees(s) { StepAgreesIff(s, steps[0], limit); }
      if Agrees(t) { SplitStaysSplit(s, steps[0], limit); }
      RunAgreesIff(t, steps[1..], limit);
    }
  }

  /** Registry and canonical keys agree after a run if and only if every transaction of the run would still
      have written had it repeated its lookup at the moment of writing. */
  lemma KeysAgreeIff(s: State, steps: seq<Step>, limit: nat)
    requires IsNew(s) && limit >= 1
    ensures Agrees(Run(s, steps, limit)) <==> AllStillWrite(s, steps, limit)
  {
    hide Apply, WouldStillWrite, AllStillWrite, Run;
    assert Inv(s, limit);
    RunAgreesIff(s, steps, limit);
  }

  /** A transaction that no other one interrupts always would. */
  lemma UninterruptedTransactionsStillWrite(s: State, n: nat, key: nat, payload: Payload, termActive: bool, limit: nat)
    requires RowsExist(s)
    ensures IsEnabled(s, CheckCanonical(n)) ==>
      WouldStillWrite(Apply(s, CheckCanonical(n), limit), CommitBind(n), limit)
    ensures s.lookup.None? ==> WouldStillWrite(Apply(s, Look(key, payload, termActive), limit), Finish, limit)
  {
    hide FirstActive, KeysOf;
  }

  /** The invoice a client key stands for: its record, or the invoice that reserved it. */
  function Owner(s: State, key: nat): Option<nat> {
    match FindRecord(s.records, key)
    case Some(r) => Some(r.intent)
    case None => FindCanonical(s.intents, key)
  }

  lemma StepKeepsOwner(s: State, step: Step, limit: nat, key: nat)
    requires Inv(s, limit) && Agrees(Apply(s, step, limit)) && Owner(s, key).Some?
    ensures Owner(Apply(s, step, limit), key) == Owner(s, key)
  {
    hide Apply, FirstActive, KeysOf, KeysAreBounded, ActiveIsUnique;
    StepKeepsPointers(s, step, limit);
    StepKeepsUniqueness(s, step, limit);
    StepExtends(s, step, limit);
    var t := Apply(s, step, limit);
    match FindRecord(s.records, key)
    case Some(r) =>
      var k :| 0 <= k < |s.records| && s.records[k] == r;
      assert t.records[k] == r;
      FoundIffRecorded(t.records, r);
    case None =>
      var i := FindCanonical(s.intents, key).value;
      assert t.intents[i].canonical == Some(key);
  }

  /** As long as they agree, a key that stands for an invoice stands for it ever after. */
  lemma {:induction false} OwnersNeverChange(s: State, steps: seq<Step>, limit: nat, key: nat)
    requires Inv(s, limit) && limit >= 1 && Owner(s, key).Some? && Agrees(Run(s, steps, limit))
    ensures Owner(Run(s, steps, limit), key) == Owner(s, key)
    decreases |steps|
  {
    hide Apply, Agrees, WouldStillWrite, Inv, Owner;
    if steps != [] {
      var t := Apply(s, steps[0], limit);
      assert Run(s, steps[..1], limit) == t by { assert steps[..1][1..] == []; }
      RunKeepsInv(s, steps[..1], limit);
      RunAgreesIff(t, steps[1..], limit);
      StepKeepsOwner(s, steps[0], limit, key);
      OwnersNeverChange(t, steps[1..], limit, key);
    }
  }

  /** The states of a run in which one key is sent at once with two payloads, and its steps. */
  function SplitStates(): seq<State> {
    var a, b := Payload(Credits, 0), Payload(Credits, 1);
    var one, two := [Intent(Some(0), a, Active)], [Intent(Some(0), a, Active), Intent(Some(1), b, Active)];
    var first, second, third := Bind(0, 0, a, Waiting), Bind(0, 1, a, Waiting), Bind(1, 1, b, Waiting);
    [State([], [], None, []),
     State([], [], Some(Lookup(0, a, Create)), []),
     State(one, [], None, [first]),
     State(one, [], Some(Lookup(1, a, Use(0))), [first]),
     State(one, [], None, [first, second]),
     State(one, [], None, [first, second.(phase := Checked)]),
     State(one, [], Some(Lookup(1, b, Create)), [first, second.(phase := Checked)]),
     State(two, [], None, [first, second.(phase := Checked), third]),
     State(two, [KeyRecord(1, 0, a)], None, [first, second.(phase := Over), third])]
  }

  function SplitSteps(): seq<Step> {
    [Look(0, Payload(Credits, 0), false), Finish, Look(1, Payload(Credits, 0), false), Finish,
     CheckCanonical(1), Look(1, Payload(Credits, 1), false), Finish, CommitBind(1)]
  }

  lemma SplitRunLooks(k: nat, limit: nat)
    requires k == 0 || k == 2 || k == 5
    ensures SplitStates()[k + 1] == Apply(SplitStates()[k], SplitSteps()[k], limit)
  {
    hide FindRecord, FindCanonical, FirstActive;
    if k == 2 { assert IsActive(SplitStates()[2].intents[0], Credits, Some(Payload(Credits, 0))); }
  }

  lemma SplitRunWrites(k: nat, limit: nat)
    requires k == 1 || k == 3 || k == 6
    ensures SplitStates()[k + 1] == Apply(SplitStates()[k], SplitSteps()[k], limit)
  {
    hide Decide, BindKey, FindRecord, FindCanonical, FirstActive;
  }

  lemma SplitRunBinds(k: nat, limit: nat)
    requires limit >= 2 && (k == 4 || k == 7)
    ensures SplitStates()[k + 1] == Apply(SplitStates()[k], SplitSteps()[k], limit)
  {
    hide Decide, FindRecord, FindCanonical;
  }

  /** Interrupted ones need not: a key sent at once with two payloads ends up reserved by one invoice and
      recorded for another. */
  lemma KeyCanBeSplit(limit: nat)
    requires limit >= 2
    ensures exists s :: Reachable(s, limit) && !Agrees(s)
  {
    hide Apply;
    forall k: nat | k < 8 ensures SplitStates()[k + 1] == Apply(SplitStates()[k], SplitSteps()[k], limit) {
      if k == 0 || k == 2 || k == 5 { SplitRunLooks(k, limit); }
      else if k == 4 || k == 7 { SplitRunBinds(k, limit); }
      else { SplitRunWrites(k, limit); }
    }
    StatesOfRun(SplitStates()[0], SplitSteps(), SplitStates(), limit);
    var s := SplitStates()[8];
    assert IsNew(SplitStates()[0]) && Reachable(s, limit);
    assert s.records[0] in s.records && s.intents[1].canonical == Some(1);
  }

  /** One payload is enough: the invoice is settled before the binding takes its row, and the same request,
      sent again between the check and the record, gets a new invoice. */
  function RepeatStates(): seq<State> {
    var a := Payload(Credits, 0);
    var settled := [Intent(Some(0), a, Settled)];
    var two := settled + [Intent(Some(1), a, Active)];
    var first, second, third := Bind(0, 0, a, Waiting), Bind(0, 1, a, Checked), Bind(1, 1, a, Waiting);
    [SplitStates()[4],
     State(settled, [], None, [first, second.(phase := Waiting)]),
     State(settled, [], None, [first, second]),
     State(settled, [], Some(Lookup(1, a, Create)), [first, second]),
     State(two, [], None, [first, second, third]),
     State(two, [KeyRecord(1, 0, a)], None, [first, second.(phase := Over), third])]
  }

  function RepeatSteps(): seq<Step> {
    [Settle(0, Settled), CheckCanonical(1), Look(1, Payload(Credits, 0), false), Finish, CommitBind(1)]
  }

  lemma RepeatRunHappens(k: nat, limit: nat)
    requires k == 0 || k == 2 || k == 3
    ensures RepeatStates()[k + 1] == Apply(RepeatStates()[k], RepeatSteps()[k], limit)
  {
    hide FindRecord, FindCanonical, FirstActive, BindKey;
  }

  lemma RepeatRunBinds(k: nat, limit: nat)
    requires limit >= 2 && (k == 1 || k == 4)
    ensures RepeatStates()[k + 1] == Apply(RepeatStates()[k], RepeatSteps()[k], limit)
  {
    hide Decide, FindRecord, FindCanonical;
  }

  lemma RepeatedRequestCanBeSplit(limit: nat)
    requires limit >= 2
    ensures exists s :: Reachable(s, limit) && !Agrees(s) && (forall v :: v in s.intents ==> v.payload.digest == 0)
  {
    hide Apply;
    forall k: nat | k < 4 ensures SplitStates()[k + 1] == Apply(SplitStates()[k], SplitSteps()[k], limit) {
      if k == 0 || k == 2 { SplitRunLooks(k, limit); } else { SplitRunWrites(k, limit); }
    }
    StatesOfRun(SplitStates()[0], SplitSteps()[..4], SplitStates()[..5], limit);
    forall k: nat | k < 5 ensures RepeatStates()[k + 1] == Apply(RepeatStates()[k], RepeatSteps()[k], limit) {
      if k == 1 || k == 4 { RepeatRunBinds(k, limit); } else { RepeatRunHappens(k, limit); }
    }
    StatesOfRun(RepeatStates()[0], RepeatSteps(), RepeatStates(), limit);
    RunsContinue(SplitStates()[0], SplitSteps()[..4], RepeatSteps(), limit);
    var s := RepeatStates()[5];
    assert IsNew(SplitStates()[0]) && Reachable(s, limit);
    assert s.records[0] in s.records && s.intents[1].canonical == Some(1);
  }

  lemma {:induction false} RunsContinue(s: State, a: seq<Step>, b: seq<Step>, limit: nat)
    ensures Run(s, a + b, limit) == Run(Run(s, a, limit), b, limit)
    decreases |a|
  {
    hide Apply;
    if a == [] {
      assert a + b == b;
    } else {
      assert (a + b)[1..] == a[1..] + b;
      RunsContinue(Apply(s, a[0], limit), a[1..], b, limit);
    }
  }

  // ----- one key an invoice -----

  /** With a limit of one, only canonical keys are ever recorded; legacy invoices without one are never used. */
  ghost predicate CanonicalOnly(s: State) {
    && (forall r :: r in s.records ==> r.intent < |s.intents| && s.intents[r.intent].canonical == Some(r.key))
    && (forall b :: b in s.binds ==> b.intent < |s.intents| && s.intents[b.intent].canonical.Some?)
    && (s.lookup.Some? && s.lookup.value.decision.Use? ==>
          s.lookup.value.decision.intent < |s.intents| && s.intents[s.lookup.value.decision.intent].canonical.Some?)
    && (forall v :: v in s.intents ==> v.progress == Active ==> v.canonical.Some?)
  }

  lemma {:induction false} RecordedKeyCounts(records: seq<KeyRecord>, r: KeyRecord)
    requires r in records
    ensures KeysOf(records, r.intent) >= 1
  {
    var n := |records| - 1;
    assert records == records[..n] + [records[n]];
    if r in records[..n] { RecordedKeyCounts(records[..n], r); }
  }

  /** An invoice with a canonical key has accepted a key. */
  lemma CanonicalKeyCounts(intents: seq<Intent>, records: seq<KeyRecord>, i: nat)
    requires i < |intents| && intents[i].canonical.Some?
    ensures AcceptedKeys(intents, records, i) >= 1
  {
    if !IsReserved(intents, records, i) {
      var r :| r in records && r.key == intents[i].canonical.value && r.intent == i;
      RecordedKeyCounts(records, r);
    }
  }

  lemma StepKeepsCanonical(s: State, step: Step)
    requires CanonicalOnly(s)
    ensures CanonicalOnly(Apply(s, step, 1))
  {
    hide FindRecord, FindCanonical, FirstActive, KeysOf, IsReserved;
    if step.CommitBind? && IsEnabled(s, step) {
      CanonicalKeyCounts(s.intents, s.records, s.binds[step.bind].intent);
    }
  }

  lemma {:induction false} RunKeepsCanonical(s: State, steps: seq<Step>)
    requires CanonicalOnly(s)
    ensures CanonicalOnly(Run(s, steps, 1))
    decreases |steps|
  {
    hide Apply, CanonicalOnly;
    if steps != [] {
      StepKeepsCanonical(s, steps[0]);
      RunKeepsCanonical(Apply(s, steps[0], 1), steps[1..]);
    }
  }

  lemma OneKeyNeverSplits(s: State)
    requires Reachable(s, 1)
    ensures Agrees(s)
  {
    hide RecordsPoint, BindsPoint, KeysAreBounded, ActiveIsUnique, LookupHolds, Apply;
    ReachableIsSound(s, 1);
    var s0, steps :| IsNew(s0) && s == Run(s0, steps, 1);
    RunKeepsCanonical(s0, steps);
  }

  /** Registry and canonical keys agree in every run if and only if an invoice accepts a single key. */
  lemma KeysAlwaysAgreeIffOneKey(limit: nat)
    requires limit >= 1
    ensures (forall s :: Reachable(s, limit) ==> Agrees(s)) <==> limit == 1
  {
    hide Reachable, Agrees;
    if limit == 1 {
      forall s | Reachable(s, limit) ensures Agrees(s) { OneKeyNeverSplits(s); }
    } else {
      KeyCanBeSplit(limit);
    }
  }

  lemma {:induction false} StatesOfRun(s: State, steps: seq<Step>, states: seq<State>, limit: nat)
    requires |states| == |steps| + 1 && states[0] == s
    requires forall k :: 0 <= k < |steps| ==> states[k + 1] == Apply(states[k], steps[k], limit)
    ensures Run(s, steps, limit) == states[|steps|]
    decreases |steps|
  {
    hide Apply;
    if steps != [] { StatesOfRun(states[1], steps[1..], states[1..], limit); }
  }

  // ----- the registry row by row -----

  /** The tenant's key table as the binding transaction changes it. */
  class KeyRegistry {
    var records: seq<KeyRecord>

    constructor ()
      ensures records == []
    {
      records := [];
    }

    /** `count()` of the rows of one invoice. */
    method CountKeys(intent: nat) returns (n: nat)
      ensures n == KeysOf(records, intent)
    {
      n := 0;
      for k := 0 to |records|
        invariant n == KeysOf(records[..k], intent)
      {
        assert records[..k + 1][..k] == records[..k];
        if records[k].intent == intent { n := n + 1; }
      }
      assert records[..|records|] == records;
    }

    /** `_bind_checkout_client_key`: a foreign canonical key, a full invoice or a foreign record refuse the key. */
    method BindClientKey(intents: seq<Intent>, i: nat, key: nat, payload: Payload, limit: nat)
        returns (answer: BindAnswer)
      requires i < |intents|
      modifies this
      ensures var foreign := FindCanonical(intents, key);
        if foreign.OrElse(i) != i then records == old(records) && answer == Clash(foreign.value)
        else (records, answer) == BindKey(intents, old(records), i, key, payload, limit)
    {
      var canonical := FindCanonical(intents, key);
      if canonical.Some? && canonical.value != i { return Clash(canonical.value); }
      var record := FindRecord(records, key);
      if record.None? {
        var accepted := CountKeys(i);
        if IsReserved(intents, records, i) { accepted := accepted + 1; }
        if intents[i].canonical != Some(key) && accepted >= limit { return KeyLimit; }
        record := Some(KeyRecord(key, i, payload));
        records := records + [record.value];
      }
      if record.value.intent != i || record.value.payload != payload { return Clash(record.value.intent); }
      answer := Bound;
    }
  }
}
