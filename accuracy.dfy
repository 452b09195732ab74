/** The accuracy formulas and the dispatch every backend shares: plain
    accuracy is the mean of the equality mask, weighted accuracy is the dot
    product of the mask with the sample weights, and the weighted formula is
    used exactly when sample weights are supplied. */
module Accuracy {
  import opened Wrappers
  import opened Numerics
  import opened Equality
  import opened Conditions
  import RootValidators
  import Utils

  /** `_base_accuracy`: `np.average(y_observed == y_predicted)`. */
  function BaseAccuracy(observed: seq<real>, predicted: seq<real>): Float
    requires |observed| == |predicted|
  {
    Average(EqualityMask(observed, predicted))
  }

  /** `_weighted_accuracy`: `np.dot(y_observed == y_predicted, sample_weights)`. */
  function WeightedAccuracy(observed: seq<real>, predicted: seq<real>, weights: seq<real>): real
    requires |observed| == |predicted| == |weights|
  {
    Dot(EqualityMask(observed, predicted), weights)
  }

  /** Reference definition: the total weight of the positions where the labels agree. */
  function MatchedWeight(observed: seq<real>, predicted: seq<real>, weights: seq<real>): real
    requires |observed| == |predicted| == |weights|
  {
    if |observed| == 0 then 0.0
    else
      var head := if observed[0] == predicted[0] then weights[0] else 0.0;
      head + MatchedWeight(observed[1..], predicted[1..], weights[1..])
  }

  /** The backend's failure when the operands of `==` or of the dot product do not line up. */
  datatype BackendError = OperandsNotAligned(left: nat, right: nat) | NoWeights

  /** The plain formula of a backend: `==` fails on operands of different lengths. */
  function BaseFormula(inputs: Inputs): (r: Result<Float, BackendError>)
    ensures r.Err? <==> |inputs.yObserved| != |inputs.yPredicted|
    ensures r.Err? ==> r.error == OperandsNotAligned(|inputs.yObserved|, |inputs.yPredicted|)
  {
    if |inputs.yObserved| != |inputs.yPredicted| then
      Err(OperandsNotAligned(|inputs.yObserved|, |inputs.yPredicted|))
    else Ok(BaseAccuracy(inputs.yObserved, inputs.yPredicted))
  }

  /** The weighted formula of a backend: `==` and the dot product fail on
      operands of different lengths; it is only called with weights. */
  function WeightedFormula(inputs: Inputs): (r: Result<Float, BackendError>)
    ensures r.Ok? <==> inputs.sampleWeights.Some? && |inputs.yObserved| == |inputs.yPredicted| == |inputs.sampleWeights.value|
    ensures inputs.sampleWeights.None? ==> r == Err(NoWeights)
    ensures r.Ok? ==> r.value.Finite?
  {
    match inputs.sampleWeights
    case None => Err(NoWeights)
    case Some(w) =>
      if |inputs.yObserved| != |inputs.yPredicted| then
        Err(OperandsNotAligned(|inputs.yObserved|, |inputs.yPredicted|))
      else if |w| != |inputs.yObserved| then Err(OperandsNotAligned(|inputs.yObserved|, |w|))
      else Ok(Finite(WeightedAccuracy(inputs.yObserved, inputs.yPredicted, w)))
  }

  /** The body of every accuracy `compute`/`update`: the weighted formula
      exactly when sample weights are supplied. */
  function Compute(inputs: Inputs): (r: Result<Float, BackendError>)
    ensures inputs.sampleWeights.None? && |inputs.yObserved| == |inputs.yPredicted| ==>
      r == Ok(BaseAccuracy(inputs.yObserved, inputs.yPredicted))
    ensures inputs.sampleWeights.Some? && |inputs.yObserved| == |inputs.yPredicted| == |inputs.sampleWeights.value| ==>
      r == Ok(Finite(WeightedAccuracy(inputs.yObserved, inputs.yPredicted, inputs.sampleWeights.value)))
    ensures r.Err? <==> |inputs.yObserved| != |inputs.yPredicted|
                        || (inputs.sampleWeights.Some? && |inputs.sampleWeights.value| != |inputs.yObserved|)
  {
    if inputs.sampleWeights.None? then BaseFormula(inputs) else WeightedFormula(inputs)
  }

  /** Plain accuracy is the fraction of agreeing positions (NaN on empty input). */
  lemma BaseAccuracyIsMatchRatio(observed: seq<real>, predicted: seq<real>)
    requires |observed| == |predicted|
    ensures |observed| == 0 ==> BaseAccuracy(observed, predicted) == NaN
    ensures |observed| > 0 ==>
      BaseAccuracy(observed, predicted) == Finite(Matches(observed, predicted) as real / |observed| as real)
  {
    MaskSumIsMatchCount(observed, predicted);
  }

  /** Plain accuracy lies in [0, 1]. */
  lemma BaseAccuracyInUnitInterval(observed: seq<real>, predicted: seq<real>)
    requires |observed| == |predicted| > 0
    ensures 0.0 <= BaseAccuracy(observed, predicted).value <= 1.0
  {
    BaseAccuracyIsMatchRatio(observed, predicted);
    MatchesAtMostLength(observed, predicted);
  }

  /** Identical labels score 1. */
  lemma IdenticalLabelsScoreOne(labels: seq<real>)
    requires |labels| > 0
    ensures BaseAccuracy(labels, labels) == Finite(1.0)
  {
    BaseAccuracyIsMatchRatio(labels, labels);
    MatchesOfIdentical(labels);
    assert |labels| as real / |labels| as real == 1.0;
  }

  /** Labels that differ at every position score 0. */
  lemma DisjointLabelsScoreZero(observed: seq<real>, predicted: seq<real>)
    requires |observed| == |predicted| > 0
    requires forall i :: 0 <= i < |observed| ==> observed[i] != predicted[i]
    ensures BaseAccuracy(observed, predicted) == Finite(0.0)
  {
    BaseAccuracyIsMatchRatio(observed, predicted);
    MatchesOfDisjoint(observed, predicted);
  }

  /** Neither formula depends on which array is the observed one. */
  lemma AccuracySymmetric(observed: seq<real>, predicted: seq<real>, weights: seq<real>)
    requires |observed| == |predicted| == |weights|
    ensures BaseAccuracy(observed, predicted) == BaseAccuracy(predicted, observed)
    ensures WeightedAccuracy(observed, predicted, weights) == WeightedAccuracy(predicted, observed, weights)
  {
    MaskSymmetric(observed, predicted);
  }

  /** Weighted accuracy is the total weight of the agreeing positions. */
  lemma {:induction false} WeightedIsMatchedWeight(observed: seq<real>, predicted: seq<real>, weights: seq<real>)
    requires |observed| == |predicted| == |weights|
    ensures WeightedAccuracy(observed, predicted, weights) == MatchedWeight(observed, predicted, weights)
  {
    if |observed| > 0 {
      MaskTail(observed, predicted);
      WeightedIsMatchedWeight(observed[1..], predicted[1..], weights[1..]);
    }
  }

  /** With non-negative weights the weighted accuracy lies between 0 and the weight total. */
  lemma {:induction false} MatchedWeightBounds(observed: seq<real>, predicted: seq<real>, weights: seq<real>)
    requires |observed| == |predicted| == |weights|
    requires forall i :: 0 <= i < |weights| ==> weights[i] >= 0.0
    ensures 0.0 <= MatchedWeight(observed, predicted, weights) <= Sum(weights)
  {
    if |observed| > 0 {
      MatchedWeightBounds(observed[1..], predicted[1..], weights[1..]);
    }
  }

  lemma {:induction false} DotWithConstant(mask: seq<real>, weights: seq<real>, c: real)
    requires |mask| == |weights|
    requires forall i :: 0 <= i < |weights| ==> weights[i] == c
    ensures Dot(mask, weights) == c * Sum(mask)
  {
    if |mask| > 0 {
      DotWithConstant(mask[1..], weights[1..], c);
    }
  }

  /** Uniform weights 1/n turn weighted accuracy into plain accuracy. */
  lemma UniformWeightsGiveBaseAccuracy(observed: seq<real>, predicted: seq<real>, weights: seq<real>)
    requires |observed| == |predicted| == |weights| > 0
    requires forall i :: 0 <= i < |weights| ==> weights[i] == 1.0 / |weights| as real
    ensures Finite(WeightedAccuracy(observed, predicted, weights)) == BaseAccuracy(observed, predicted)
  {
    var mask := EqualityMask(observed, predicted);
    DotWithConstant(mask, weights, 1.0 / |weights| as real);
    assert (1.0 / |weights| as real) * Sum(mask) == Sum(mask) / |mask| as real;
  }

  /** Inputs the validator accepts never make the backend fail, and with
      non-negative weights the score lies in [0, 1 + 1e-7]. */
  lemma ValidatedInputsScoreInRange(inputs: Inputs)
    requires ValidateFields(inputs).Ok?
    ensures Compute(inputs).Ok?
    ensures inputs.sampleWeights.None? && |inputs.yObserved| > 0 ==>
      Compute(inputs).value.Finite? && 0.0 <= Compute(inputs).value.value <= 1.0
    ensures inputs.sampleWeights.Some? && (forall i :: 0 <= i < |inputs.sampleWeights.value| ==> inputs.sampleWeights.value[i] >= 0.0) ==>
      0.0 <= Compute(inputs).value.value <= 1.0 + AbsTolerance
  {
    ValidateFieldsAccepts(inputs);
    match inputs.sampleWeights
    case None =>
      if |inputs.yObserved| > 0 {
        BaseAccuracyInUnitInterval(inputs.yObserved, inputs.yPredicted);
      }
    case Some(w) =>
      if forall i :: 0 <= i < |w| ==> w[i] >= 0.0 {
        WeightedIsMatchedWeight(inputs.yObserved, inputs.yPredicted, w);
        MatchedWeightBounds(inputs.yObserved, inputs.yPredicted, w);
        SumNonNegative(w);
        SumsToOneIsAbsoluteTolerance(w);
      }
  }

  /** Observed [0, 0, 0, 0] against predicted [1, 1, 1, 1] scores 0. */
  lemma AllMismatchedScoresZero()
    ensures Compute(Inputs([0.0, 0.0, 0.0, 0.0], [1.0, 1.0, 1.0, 1.0], None)) == Ok(Finite(0.0))
  {
    DisjointLabelsScoreZero([0.0, 0.0, 0.0, 0.0], [1.0, 1.0, 1.0, 1.0]);
  }

  /** Observed [1, 1, 0, 1] against predicted [1, 0, 0, 1] scores 0.75, and
      so does the same pair weighted 0.25 each. */
  lemma ThreeOfFourScoresThreeQuarters()
    ensures Compute(Inputs([1.0, 1.0, 0.0, 1.0], [1.0, 0.0, 0.0, 1.0], None)) == Ok(Finite(0.75))
    ensures Compute(Inputs([1.0, 1.0, 0.0, 1.0], [1.0, 0.0, 0.0, 1.0], Some([0.25, 0.25, 0.25, 0.25]))) == Ok(Finite(0.75))
  {
    var observed, predicted := [1.0, 1.0, 0.0, 1.0], [1.0, 0.0, 0.0, 1.0];
    assert EqualityMask(observed, predicted) == [1.0, 0.0, 1.0, 1.0];
    assert Sum([1.0, 0.0, 1.0, 1.0]) == 3.0;
    assert Dot([1.0, 0.0, 1.0, 1.0], [0.25, 0.25, 0.25, 0.25]) == 0.75;
  }

  /** Why an accuracy call failed: the validator rejected its arguments, or the backend failed. */
  datatype AccuracyError = Invalid(errors: seq<ValidationError>) | Backend(error: BackendError)

  function Lift(r: Result<Float, BackendError>): Result<Float, AccuracyError>
  {
    match r
    case Ok(v) => Ok(v)
    case Err(e) => Err(Backend(e))
  }

  /** `compute` decorated with `argument_validator(validator)`. */
  function ValidatedCompute(validator: Inputs -> Result<Inputs, seq<ValidationError>>, inputs: Inputs): (r: Result<Float, AccuracyError>)
    ensures validator(inputs).Err? ==> r == Err(Invalid(validator(inputs).error))
    ensures validator(inputs).Ok? ==> r == Lift(Compute(validator(inputs).value))
  {
    match Utils.ArgumentValidator(validator, (_: (), k: Inputs) => Compute(k), (), inputs)
    case Err(errors) => Err(Invalid(errors))
    case Ok(result) => Lift(result)
  }

  /** The numpy accuracy `compute` guarded by the union root validators: it
      fails only through validation, and what it accepts it scores with the
      dispatching formula. */
  lemma RootValidatedComputeFailsOnlyInValidation(inputs: Inputs)
    ensures ValidatedCompute(RootValidators.Validate, inputs).Err? ==>
      ValidatedCompute(RootValidators.Validate, inputs).error.Invalid?
    ensures RootValidators.Validate(inputs).Ok? ==>
      Compute(inputs).Ok? && ValidatedCompute(RootValidators.Validate, inputs) == Ok(Compute(inputs).value)
  {
    RootValidators.RootAndFieldValidatorsAgree(inputs);
    if RootValidators.Validate(inputs).Ok? {
      ValidatedInputsScoreInRange(inputs);
    }
  }

  /** The validators the module-level accuracy functions attach to their two
      formulas (`BaseAccuracyValidator`, `WeightedAccuracyValidator`). */
  datatype FormulaValidators = FormulaValidators(
    base: Inputs -> Result<Inputs, seq<ValidationError>>,
    weighted: Inputs -> Result<Inputs, seq<ValidationError>>)

  /** `accuracy_score(y_observed, y_predicted, sample_weights, parse_input)`:
      the weighted formula exactly when weights are supplied, each behind its
      own validator when `parse_input` is set; the plain formula is given the
      two label arrays only. */
  function AccuracyScore(inputs: Inputs, parseInput: bool, validators: FormulaValidators): (r: Result<Float, AccuracyError>)
    ensures !parseInput ==> r == Lift(Compute(inputs))
    ensures parseInput && inputs.sampleWeights.Some? ==>
      r == (match validators.weighted(inputs)
            case Err(errors) => Err(Invalid(errors))
            case Ok(validated) => Lift(WeightedFormula(validated)))
    ensures parseInput && inputs.sampleWeights.None? ==>
      r == (match validators.base(inputs)
            case Err(errors) => Err(Invalid(errors))
            case Ok(validated) => Lift(BaseFormula(validated)))
  {
    if inputs.sampleWeights.Some? then
      match Utils.CallMetric(parseInput, validators.weighted, WeightedFormula, inputs)
      case Err(errors) => Err(Invalid(errors))
      case Ok(result) => Lift(result)
    else
      var labels := Inputs(inputs.yObserved, inputs.yPredicted, None);
      match Utils.CallMetric(parseInput, validators.base, (k: Inputs) => BaseFormula(k), labels)
      case Err(errors) => Err(Invalid(errors))
      case Ok(result) => Lift(result)
  }

  /** With validators that hand back what they accept, as every rule of the
      library does, turning `parse_input` on can only reject a call, never
      change the score of one it lets through. */
  lemma AccuracyScoreValidationOnlyRejects(inputs: Inputs, validators: FormulaValidators)
    requires validators.weighted(inputs).Ok? ==> validators.weighted(inputs).value == inputs
    requires validators.base(inputs).Ok? ==> validators.base(inputs).value == inputs
    ensures AccuracyScore(inputs, true, validators).Err? && AccuracyScore(inputs, true, validators).error.Invalid? <==>
      (if inputs.sampleWeights.Some? then validators.weighted(inputs).Err? else validators.base(inputs).Err?)
    ensures AccuracyScore(inputs, true, validators).Ok? ==>
      AccuracyScore(inputs, true, validators) == AccuracyScore(inputs, false, validators)
  {
  }
}
