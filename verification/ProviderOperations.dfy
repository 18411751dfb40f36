/** The operation row in place, together with its wallet (apps/ai_agent/reconciliation.py). */
module ProviderOperations {
  import opened Common
  import opened Wallet
  import opened Operations

  class ProviderOperation {
    const wallet: AIWallet
    const kind: Kind
    const key: nat
    const amount: int
    const createdAt: int
    var status: Status
    var charged: Option<int>
    var networkStarted: Option<int>
    var apply: ApplyState
    ghost var called: bool
    ghost var sweptUnstarted: bool

    ghost function Value(): Op
      reads this
    {
      Op(kind, key, amount, status, charged, networkStarted, createdAt, apply, called, sweptUnstarted)
    }

    /** Row and wallet are the result of a transition, or both are as before. */
    twostate predicate Became(r: Result<(Op, Wallet), ()>)
      reads this, wallet
    {
      if r.Ok? then (Value(), wallet.Value()) == r.value
      else (Value(), wallet.Value()) == (old(Value()), old(wallet.Value()))
    }

    constructor (w: AIWallet, k: Kind, reservation: nat, reserved: int, now: int)
      ensures Value() == NewOp(k, reservation, reserved, now) && wallet == w
    {
      wallet, kind, key, amount, createdAt := w, k, reservation, Max(0, reserved), now;
      status, charged, networkStarted, apply := Reserved, None, None, NotRequired;
      called, sweptUnstarted := false, false;
    }

    method MarkNetworkStarted(now: int) returns (ok: bool)
      modifies this
      ensures ok == MarkStarted(old(Value()), now).Ok?
      ensures Value() == if ok then MarkStarted(old(Value()), now).value else old(Value())
    {
      if status != Reserved {
        return false;
      }
      if networkStarted.None? {
        networkStarted := Some(now);
      }
      return true;
    }

    method MarkOutcomeUncertain()
      modifies this
      ensures Value() == MarkUncertain(old(Value()))
    {
      if status == Reserved {
        status := PendingReconciliation;
      }
    }

    method ReleaseHeld()
      modifies this, wallet
      ensures (Value(), wallet.Value()) == ReleaseLocked(old(Value()), old(wallet.Value()))
    {
      wallet.ReleaseCredits(key, amount);
      status := Released;
      charged := Some(0);
      apply := NotRequired;
    }

    method SettleHeld(actual: int, applyRequired: bool) returns (ok: bool)
      modifies this, wallet
      ensures ok == SettleLocked(old(Value()), old(wallet.Value()), actual, applyRequired).Ok?
      ensures Became(SettleLocked(old(Value()), old(wallet.Value()), actual, applyRequired))
    {
      var charge := wallet.SettleCredits(key, amount, actual);
      if charge.None? {
        return false;
      }
      status := Settled;
      charged := charge;
      apply := if applyRequired then ApplyPending else NotRequired;
      return true;
    }

    method ReleaseOperation() returns (ok: bool)
      modifies this, wallet
      ensures ok == ReleaseOp(old(Value()), old(wallet.Value())).Ok?
      ensures Became(ReleaseOp(old(Value()), old(wallet.Value())))
    {
      if status == Released {
        return true;
      }
      if status == Settled {
        return false;
      }
      ReleaseHeld();
      return true;
    }

    method SettleOperation(actual: int, applyRequired: bool, hasResult: bool) returns (ok: bool)
      modifies this, wallet
      ensures ok == SettleOp(old(Value()), old(wallet.Value()), actual, applyRequired, hasResult).Ok?
      ensures Became(SettleOp(old(Value()), old(wallet.Value()), actual, applyRequired, hasResult))
    {
      if status == Settled {
        return true;
      }
      if status == Released {
        return false;
      }
      if applyRequired && !hasResult {
        return false;
      }
      ok := SettleHeld(actual, applyRequired);
    }

    method ResolveUncertain(release: bool) returns (ok: bool)
      modifies this, wallet
      ensures ok == ResolveOp(old(Value()), old(wallet.Value()), release).Ok?
      ensures Became(ResolveOp(old(Value()), old(wallet.Value()), release))
    {
      var target := if release then Released else Settled;
      if status == target {
        return true;
      }
      if status == Released || status == Settled {
        return false;
      }
      if status != PendingReconciliation {
        return false;
      }
      if release {
        ReleaseHeld();
        ok := true;
      } else {
        ok := SettleHeld(amount, false);
      }
    }

    method ApplyResultOnce() returns (ok: bool)
      modifies this
      ensures ok == ApplyOp(old(Value())).Ok?
      ensures Value() == if ok then ApplyOp(old(Value())).value else old(Value())
    {
      if status != Settled {
        return false;
      }
      if apply == Applied {
        return true;
      }
      if apply != ApplyPending {
        return false;
      }
      apply := Applied;
      return true;
    }
  }
}
