/** How a request is checked and cut to size before it is routed: its input and all output tokens but
    the last must fit the cache, and all of them the model's context. */
module RequestLimits {
  import opened Common

  /** A floating-point parameter: a number, or an infinity or NaN. */
  datatype Float = Finite(value: real) | NotFinite

  datatype Sampling = Sampling(temperature: Float, variationBudget: Float, repeatPenalty: Float)

  datatype Rejection =
    | EmptyInput | InputExceedsCache | InputExceedsContext | NoOutputWanted
    | InvalidTemperature | InvalidVariationBudget | InvalidRepeatPenalty

  datatype Normalized = Accepted(maxNew: nat) | Rejected(why: Rejection)

  function Normalize(inputCount: nat, wanted: nat, sampling: Sampling, capacity: nat, context: nat): Normalized {
    if inputCount == 0 then Rejected(EmptyInput)
    else if inputCount > capacity then Rejected(InputExceedsCache)
    else if inputCount >= context then Rejected(InputExceedsContext)
    else if wanted == 0 then Rejected(NoOutputWanted)
    else if !(sampling.temperature.Finite? && sampling.temperature.value >= 0.0) then Rejected(InvalidTemperature)
    else if !(sampling.variationBudget.Finite? && 0.0 <= sampling.variationBudget.value <= 1.0) then Rejected(InvalidVariationBudget)
    else if !(sampling.repeatPenalty.Finite? && sampling.repeatPenalty.value > 0.0) then Rejected(InvalidRepeatPenalty)
    else Accepted(Min(wanted, Min(capacity - inputCount + 1, context - inputCount)))
  }

  /** n output tokens fit: everything but the last in the cache, everything in the context. */
  predicate Fits(inputCount: nat, n: nat, wanted: nat, capacity: nat, context: nat) {
    1 <= n <= wanted && inputCount + n - 1 <= capacity && inputCount + n <= context
  }

  /** The sampling laws are defined for these parameters: a temperature to divide by or zero for greedy
      decoding, a budget that is a distance between distributions, and a penalty to divide by. */
  predicate Usable(s: Sampling) {
    && s.temperature.Finite? && s.temperature.value >= 0.0
    && s.variationBudget.Finite? && 0.0 <= s.variationBudget.value <= 1.0
    && s.repeatPenalty.Finite? && s.repeatPenalty.value > 0.0
  }

  /** A request is accepted exactly when some output fits and its sampling parameters are usable, and then
      keeps as much of the wanted output as possible: the most tokens that fit, and at least one. */
  lemma NormalizeExact(inputCount: nat, wanted: nat, sampling: Sampling, capacity: nat, context: nat)
    ensures var r := Normalize(inputCount, wanted, sampling, capacity, context);
            && (r.Accepted? <==> inputCount > 0 && Usable(sampling) && exists n: nat :: Fits(inputCount, n, wanted, capacity, context))
            && (r.Accepted? ==>
                  && Fits(inputCount, r.maxNew, wanted, capacity, context)
                  && forall n: nat :: Fits(inputCount, n, wanted, capacity, context) ==> n <= r.maxNew)
  {
    if inputCount <= capacity && inputCount < context && wanted > 0 {
      assert Fits(inputCount, 1, wanted, capacity, context);
    }
  }
}
