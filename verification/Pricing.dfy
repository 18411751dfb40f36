/** The price of a model call in credit units (apps/ai_agent/models.py). */
module Pricing {
  import opened Common

  /** Rates and the minimum in units of 0.0001 credit, rates per million tokens. */
  datatype Model = Model(inputRate: nat, cachedRate: nat, outputRate: nat, minimum: nat, maxOutput: nat)

  const MILLION := 1_000_000

  /** The price times a million, before rounding. */
  function Metered(m: Model, input: nat, output: nat, cached: nat): nat {
    var uncached := Max(0, input - cached);
    uncached * m.inputRate + cached * m.cachedRate + output * m.outputRate
  }

  function RoundedUp(x: nat): nat { (x + MILLION - 1) / MILLION }

  function CalculateCredits(m: Model, input: nat, output: nat, cached: nat): nat {
    RoundedUp(Max(Metered(m, input, output, cached), m.minimum * MILLION))
  }

  /** The estimate knows no cache; an output count of zero means the model's limit. */
  function EstimateCredits(m: Model, input: nat, output: nat): nat {
    CalculateCredits(m, input, if output == 0 then m.maxOutput else output, 0)
  }

  /** Rounding up gives the least whole number of units that covers the metered price and the minimum. */
  lemma PriceIsLeastCover(m: Model, input: nat, output: nat, cached: nat, units: nat)
    ensures CalculateCredits(m, input, output, cached) <= units
      <==> m.minimum <= units && Metered(m, input, output, cached) <= units * MILLION
  {}

  /** Nothing costs nothing; every output token adds its rate, every cached one its own in place of that of an
      input token it replaces, and every input token beyond the cached ones the input rate. */
  lemma EachTokenIsCharged(m: Model, input: nat, output: nat, cached: nat)
    ensures Metered(m, 0, 0, 0) == 0
    ensures Metered(m, input, output + 1, cached) == Metered(m, input, output, cached) + m.outputRate
    ensures Metered(m, input, output, cached + 1) ==
      Metered(m, input, output, cached) + m.cachedRate - (if cached < input then m.inputRate else 0)
    ensures Metered(m, input + 1, output, cached) ==
      Metered(m, input, output, cached) + (if cached <= input then m.inputRate else 0)
  {
    var uncached := Max(0, input - cached);
    assert (cached + 1) * m.cachedRate == cached * m.cachedRate + m.cachedRate;
    assert (output + 1) * m.outputRate == output * m.outputRate + m.outputRate;
    assert (uncached + 1) * m.inputRate == uncached * m.inputRate + m.inputRate;
    if uncached > 0 { assert (uncached - 1) * m.inputRate == uncached * m.inputRate - m.inputRate; }
  }

  /** The estimate is the price of the call without a cache, of the model's full output where none is given. */
  lemma EstimateIsAttained(m: Model, input: nat, output: nat)
    ensures EstimateCredits(m, input, output) ==
      CalculateCredits(m, input, if output > 0 then output else m.maxOutput, 0)
  {}

  lemma MoreCostsMore(a: nat, b: nat, rate: nat)
    requires a <= b
    ensures a * rate <= b * rate
  {}

  lemma CheaperRate(tokens: nat, low: nat, high: nat)
    requires low <= high
    ensures tokens * low <= tokens * high
  {}

  /** A call within its estimated token counts costs at most the estimate, rounding and minimum included.
      Cached tokens may be part of the input or, as some providers report them, come on top of it. */
  lemma ActualWithinEstimate(m: Model, input: nat, output: nat, cached: nat, maxInput: nat, maxOutput: nat)
    requires input <= maxInput && cached <= maxInput && m.cachedRate <= m.inputRate
    requires output <= if maxOutput == 0 then m.maxOutput else maxOutput
    ensures CalculateCredits(m, input, output, cached) <= EstimateCredits(m, maxInput, maxOutput)
  {
    var estimated := if maxOutput == 0 then m.maxOutput else maxOutput;
    var uncached := Max(0, input - cached);
    CheaperRate(cached, m.cachedRate, m.inputRate);
    assert uncached * m.inputRate + cached * m.inputRate == (uncached + cached) * m.inputRate;
    MoreCostsMore(uncached + cached, maxInput, m.inputRate);
    MoreCostsMore(output, estimated, m.outputRate);
    var units := EstimateCredits(m, maxInput, maxOutput);
    PriceIsLeastCover(m, maxInput, estimated, 0, units);
    PriceIsLeastCover(m, input, output, cached, units);
  }

  /** The estimate bounds every call whose three token counts stay within it. */
  ghost predicate EstimateHolds(m: Model) {
    forall input: nat, output: nat, cached: nat, maxInput: nat, maxOutput: nat ::
      input <= maxInput && output <= maxOutput && cached <= maxInput ==>
      CalculateCredits(m, input, output, cached) <= EstimateCredits(m, maxInput, maxOutput)
  }

  /** A fully cached call of enough tokens costs more than its estimate when the cache is dearer. */
  lemma DearCacheExceedsEstimate(m: Model, tokens: nat)
    requires m.cachedRate > m.inputRate && tokens == MILLION * (m.minimum + 1)
    ensures CalculateCredits(m, tokens, 1, tokens) > EstimateCredits(m, tokens, 1)
  {
    CheaperRate(tokens, m.inputRate + 1, m.cachedRate);
    assert tokens * (m.inputRate + 1) == tokens * m.inputRate + tokens;
    var low, high := Metered(m, tokens, 1, 0), Metered(m, tokens, 1, tokens);
    assert high >= low + tokens;
    PriceIsLeastCover(m, tokens, 1, tokens, EstimateCredits(m, tokens, 1));
  }

  /** The estimate is safe for a model exactly when its cached rate is no higher than its input rate. */
  lemma EstimateHoldsIffCacheIsCheap(m: Model)
    ensures EstimateHolds(m) <==> m.cachedRate <= m.inputRate
  {
    if m.cachedRate <= m.inputRate {
      forall input: nat, output: nat, cached: nat, maxInput: nat, maxOutput: nat
        | input <= maxInput && output <= maxOutput && cached <= maxInput
        ensures CalculateCredits(m, input, output, cached) <= EstimateCredits(m, maxInput, maxOutput)
      {
        ActualWithinEstimate(m, input, output, cached, maxInput, maxOutput);
      }
    } else {
      DearCacheExceedsEstimate(m, MILLION * (m.minimum + 1));
    }
  }

  // ----- cached tokens beyond the estimated input -----

  /** The estimate bounds every call within its input and output, however many tokens come from the cache. */
  ghost predicate EstimateHoldsForAnyCache(m: Model) {
    forall input: nat, output: nat, cached: nat, maxInput: nat, maxOutput: nat ::
      input <= maxInput && output <= maxOutput ==>
      CalculateCredits(m, input, output, cached) <= EstimateCredits(m, maxInput, maxOutput)
  }

  /** Unless cached tokens are free, enough of them exceed any estimate. */
  lemma ManyCachedTokensExceedEstimate(m: Model, input: nat, output: nat, maxInput: nat, maxOutput: nat)
    requires m.cachedRate > 0
    ensures var cached := MILLION * (EstimateCredits(m, maxInput, maxOutput) + 1);
      CalculateCredits(m, input, output, cached) > EstimateCredits(m, maxInput, maxOutput)
  {
    var units := EstimateCredits(m, maxInput, maxOutput);
    CheaperRate(MILLION * (units + 1), 1, m.cachedRate);
    PriceIsLeastCover(m, input, output, MILLION * (units + 1), units);
  }

  /** With the cached count unbounded the estimate is safe exactly for models that do not charge for the cache. */
  lemma EstimateHoldsForAnyCacheIffCacheIsFree(m: Model)
    ensures EstimateHoldsForAnyCache(m) <==> m.cachedRate == 0
  {
    if m.cachedRate == 0 {
      forall input: nat, output: nat, cached: nat, maxInput: nat, maxOutput: nat
        | input <= maxInput && output <= maxOutput
        ensures CalculateCredits(m, input, output, cached) <= EstimateCredits(m, maxInput, maxOutput)
      {
        ActualWithinEstimate(m, input, output, Min(cached, maxInput), maxInput, maxOutput);
        FreeCacheCostsNothing(m, input, output, cached, maxInput);
      }
    } else {
      ManyCachedTokensExceedEstimate(m, 0, 0, 0, 0);
    }
  }

  lemma FreeCacheCostsNothing(m: Model, input: nat, output: nat, cached: nat, maxInput: nat)
    requires m.cachedRate == 0 && input <= maxInput
    ensures CalculateCredits(m, input, output, cached) == CalculateCredits(m, input, output, Min(cached, maxInput))
  {}
}
