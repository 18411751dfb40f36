/** Which checkout a client gets, and what binding its key makes of the registry (apps/billing/services.py). */
module CheckoutOutcomes {
  import opened Common
  import opened CheckoutKeys

  /** The key is recorded for this intent or, unrecorded, reserved by it. */
  ghost predicate IsHeldBy(s: State, key: nat, i: nat) {
    && i < |s.intents|
    && ((exists r :: r in s.records && r.key == key && r.intent == i)
        || ((forall r :: r in s.records ==> r.key != key) && s.intents[i].canonical == Some(key)))
  }

  ghost predicate IsUnknown(s: State, key: nat) { forall i: nat :: !IsHeldBy(s, key, i) }

  predicate IsTerm(v: Intent, progress: Progress) { v.payload.kind == Term && v.progress == progress }

  /** A known key leads to its own intent, or conflicts exactly when the payload is another one. */
  lemma KnownOutcome(s: State, key: nat, payload: Payload, limit: nat, i: nat)
    requires Inv(s, limit) && RowsExist(s)
    ensures var known := Known(s.intents, s.records, key, payload);
      && (known.Create? <==> IsUnknown(s, key)) && (known.Refuse? ==> known.reason.Conflict?)
      && (IsHeldBy(s, key, i) ==>
            known == (if s.intents[i].payload == payload then Use(i) else Refuse(Conflict(i))))
  {
    hide FindRecord, FindCanonical, KeysAreBounded, ActiveIsUnique, LookupHolds;
    match FindRecord(s.records, key)
    case Some(r) =>
      assert IsHeldBy(s, key, r.intent);
      forall x | x in s.records && x.key == key ensures x == r { UniqueRecord(s, r, x); }
    case None =>
      match FindCanonical(s.intents, key)
      case Some(j) => assert IsHeldBy(s, key, j);
      case None =>
  }

  lemma UniqueRecord(s: State, r: KeyRecord, x: KeyRecord)
    requires KeysAreUnique(s) && r in s.records && x in s.records && r.key == x.key
    ensures r == x
  {
    var j :| 0 <= j < |s.records| && s.records[j] == r;
    var k :| 0 <= k < |s.records| && s.records[k] == x;
  }

  /** A subscription checkout: another payload under the key conflicts; then an unresolved payment stops
      everything; then a known key goes on; an unknown one is stopped by a running paid term or another
      payload's checkout, joins the checkout with its payload, and otherwise starts one. */
  lemma TermCheckoutOutcome(s: State, key: nat, payload: Payload, termActive: bool, limit: nat, i: nat, j: nat)
    requires Inv(s, limit) && RowsExist(s) && payload.kind == Term && j < |s.intents|
    ensures var d := Decide(s.intents, s.records, key, payload, termActive);
      var conflicts := exists k: nat :: IsHeldBy(s, key, k) && s.intents[k].payload != payload;
      var blocked := exists k :: 0 <= k < |s.intents| && IsTerm(s.intents[k], Unresolved);
      && (IsHeldBy(s, key, i) && s.intents[i].payload != payload ==> d == Refuse(Conflict(i)))
      && (!conflicts && blocked ==> d == Refuse(ManualReview))
      && (!conflicts && !blocked && IsHeldBy(s, key, i) ==> d == Use(i))
      && (!blocked && IsUnknown(s, key) ==>
            && (termActive ==> d == Refuse(TermIsActive))
            && (!termActive && IsTerm(s.intents[j], Active) ==>
                  d == (if s.intents[j].payload == payload then Use(j) else Refuse(InProgress(j))))
            && (d == Create <==>
                  !termActive && forall k :: 0 <= k < |s.intents| ==> !IsTerm(s.intents[k], Active)))
  {
    hide Known, FirstActive, IsUnknown, IsHeldBy, KeysAreBounded, LookupHolds, KeysAreUnique;
    KnownOutcome(s, key, payload, limit, i);
    if Known(s.intents, s.records, key, payload).Refuse? { ConflictHasAHolder(s, key, payload, limit); }
    assert IsTerm(s.intents[j], Active) <==> CheckoutKeys.IsActive(s.intents[j], Term, None);
    forall k | 0 <= k < |s.intents|
      ensures IsTerm(s.intents[k], Active) <==> CheckoutKeys.IsActive(s.intents[k], Term, None) {}
    if IsUnknown(s, key) { assert forall k: nat :: !IsHeldBy(s, key, k) by { UnknownIsNotHeld(s, key); } }
  }

  lemma UnknownIsNotHeld(s: State, key: nat)
    requires IsUnknown(s, key)
    ensures forall k: nat :: !IsHeldBy(s, key, k)
  {
    hide IsHeldBy;
  }

  lemma ConflictHasAHolder(s: State, key: nat, payload: Payload, limit: nat)
    requires Inv(s, limit) && RowsExist(s) && Known(s.intents, s.records, key, payload).Refuse?
    ensures exists k: nat :: IsHeldBy(s, key, k) && s.intents[k].payload != payload
  {
    hide Known, IsHeldBy;
    KnownOutcome(s, key, payload, limit, 0);
    assert !IsUnknown(s, key);
    var k: nat :| IsHeldBy(s, key, k);
    KnownOutcome(s, key, payload, limit, k);
  }

  /** A credit checkout: another payload under the key conflicts, a known key goes on, an unknown one joins the
      active checkout with its payload or else starts one. */
  lemma CreditCheckoutOutcome(s: State, key: nat, payload: Payload, termActive: bool, limit: nat, i: nat, j: nat)
    requires Inv(s, limit) && RowsExist(s) && payload.kind == Credits && j < |s.intents|
    ensures var d := Decide(s.intents, s.records, key, payload, termActive);
      && (IsHeldBy(s, key, i) ==> d == (if s.intents[i].payload == payload then Use(i) else Refuse(Conflict(i))))
      && (IsUnknown(s, key) && s.intents[j].progress == Active && s.intents[j].payload == payload ==> d == Use(j))
      && (d == Create <==>
            IsUnknown(s, key)
            && forall k :: 0 <= k < |s.intents| ==> s.intents[k].progress != Active || s.intents[k].payload != payload)
  {
    hide Known, FirstActive, IsUnknown, IsHeldBy, KeysAreBounded, LookupHolds, KeysAreUnique;
    KnownOutcome(s, key, payload, limit, i);
    forall k | 0 <= k < |s.intents|
      ensures s.intents[k].progress == Active && s.intents[k].payload == payload <==>
        CheckoutKeys.IsActive(s.intents[k], Credits, Some(payload)) {}
  }

  // ----- bindings -----

  ghost function RowsOf(records: seq<KeyRecord>, i: nat): set<nat> {
    set k: nat | k < |records| && records[k].intent == i
  }

  /** The keys of an intent are counted row by row. */
  lemma {:induction false} KeysAreRows(records: seq<KeyRecord>, i: nat)
    ensures KeysOf(records, i) == |RowsOf(records, i)|
  {
    if records != [] {
      var n := |records| - 1;
      KeysAreRows(records[..n], i);
      if records[n].intent == i {
        assert RowsOf(records, i) == RowsOf(records[..n], i) + {n};
      } else {
        assert RowsOf(records, i) == RowsOf(records[..n], i);
      }
    }
  }

  /** An unrecorded key is bound, unless it is a further key of an intent that has as many as it may, its own
      reserved one counted whether recorded or not; a recorded one stays with its intent and payload. */
  lemma BindingOutcome(intents: seq<Intent>, records: seq<KeyRecord>, i: nat, key: nat, payload: Payload, limit: nat)
    requires i < |intents|
    ensures var (after, answer) := BindKey(intents, records, i, key, payload, limit);
      var isNew := forall r :: r in records ==> r.key != key;
      var waiting := intents[i].canonical.Some?
        && forall r :: r in records && r.intent == i ==> r.key != intents[i].canonical.value;
      var taken := |RowsOf(records, i)| + (if waiting then 1 else 0);
      && (answer == KeyLimit <==> isNew && intents[i].canonical != Some(key) && taken >= limit)
      && (after == (if isNew && answer != KeyLimit then records + [KeyRecord(key, i, payload)] else records))
      && (isNew && answer != KeyLimit ==> answer == Bound)
      && (!isNew && answer == Bound ==> KeyRecord(key, i, payload) in records)
      && (answer.Clash? ==> exists r :: r in records && r.key == key && (r.intent != i || r.payload != payload))
  {
    hide KeysOf, FindRecord;
    KeysAreRows(records, i);
  }
}
