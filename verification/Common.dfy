/** Small datatypes shared by the other modules. */
module Common {
  datatype Option<+T> = None | Some(value: T) {
    function OrElse(other: T): T { if Some? then value else other }
  }

  datatype Result<+T, +E> = Ok(value: T) | Err(error: E)

  function Max(a: int, b: int): int { if a < b then b else a }

  function Min(a: int, b: int): int { if a < b then a else b }

  function Power2(n: nat): nat { if n == 0 then 1 else 2 * Power2(n - 1) }

  /** Exponential back-off, the exponent capped at 16 and the delay at `maxDelay`. */
  function Backoff(base: nat, maxDelay: nat, attempt: int): nat {
    var delay := base * Power2(Min(Max(0, attempt - 1), 16));
    if maxDelay < delay then maxDelay else delay
  }

  /** The first delay is the base, each next one twice as long, sixteen times, and all are cut at `maxDelay`. */
  lemma BackoffDoubles(base: nat, maxDelay: nat, attempt: int)
    ensures attempt <= 1 ==> Backoff(base, maxDelay, attempt) == Min(base, maxDelay)
    ensures 1 <= attempt < 17 ==>
      Backoff(base, maxDelay, attempt + 1) == Min(2 * Backoff(base, maxDelay, attempt), maxDelay)
    ensures attempt >= 17 ==> Backoff(base, maxDelay, attempt) == Backoff(base, maxDelay, 17)
  {
    if 1 <= attempt < 17 {
      assert base * Power2(attempt) == 2 * (base * Power2(attempt - 1));
    }
  }
}
