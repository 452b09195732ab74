/** The input-validation rules of the accuracy family, in the form the
    metrics attach them to a pydantic model as field validators: two rules on
    `y_predicted` (same shape as `y_observed`, at most two classes across both
    arrays) and two on the optional sample weights (same length as
    `y_observed`, sum within 1e-7 of one). Labels are flat arrays. */
module Conditions {
  import opened Wrappers
  import opened Numerics
  import Sets

  /** The keyword arguments of an accuracy call. */
  datatype Inputs = Inputs(yObserved: seq<real>, yPredicted: seq<real>, sampleWeights: Option<seq<real>>)

  datatype LabelField = YObserved | YPredicted

  /** What each rule's error message reports. */
  datatype ValidationError =
    | ShapeMismatch(observed: nat, predicted: nat)
    | NotBinary(classes: nat)
    | NotBinaryIn(field: LabelField, classes: nat)
    | WeightsLengthMismatch(weights: nat, input: nat)
    | WeightsDoNotSumToOne(sum: real)

  /** The distinct values of an array (`np.unique`, `set(...)`). */
  function Classes(s: seq<real>): set<real>
  {
    set x | x in s
  }

  /** The `abs_tol` the weight-sum rule passes to `math.isclose`. */
  const AbsTolerance: real := 0.0000001

  predicate SumsToOne(weights: seq<real>)
  {
    IsClose(Sum(weights), 1.0, DefaultRelTol, AbsTolerance)
  }

  /** `labels_must_be_same_shape`, validating `y_predicted`. */
  function LabelsMustBeSameShape(predicted: seq<real>, observed: seq<real>): (r: Result<seq<real>, ValidationError>)
    ensures r.Ok? <==> |predicted| == |observed|
    ensures r.Ok? ==> r.value == predicted
    ensures r.Err? ==> r.error == ShapeMismatch(|observed|, |predicted|)
  {
    if |predicted| != |observed| then Err(ShapeMismatch(|observed|, |predicted|)) else Ok(predicted)
  }

  /** `labels_must_be_binary`, validating `y_predicted`: counts the distinct
      values of the concatenation of both arrays. */
  function LabelsMustBeBinary(predicted: seq<real>, observed: seq<real>): (r: Result<seq<real>, ValidationError>)
    ensures r.Ok? <==> |Classes(predicted + observed)| <= 2
    ensures r.Ok? ==> r.value == predicted
    ensures r.Err? ==> r.error == NotBinary(|Classes(predicted + observed)|)
  {
    var found := Classes(predicted + observed);
    if |found| > 2 then Err(NotBinary(|found|)) else Ok(predicted)
  }

  /** `sample_weight(s)_must_be_same_len`: skipped when no weights are given. */
  function WeightsMustBeSameLen(weights: Option<seq<real>>, observed: seq<real>): (r: Result<Option<seq<real>>, ValidationError>)
    ensures r.Ok? <==> (weights.Some? ==> |weights.value| == |observed|)
    ensures r.Ok? ==> r.value == weights
    ensures r.Err? ==> r.error == WeightsLengthMismatch(|weights.value|, |observed|)
  {
    match weights
    case None => Ok(weights)
    case Some(w) => if |w| != |observed| then Err(WeightsLengthMismatch(|w|, |observed|)) else Ok(weights)
  }

  /** `sample_weight(s)_must_sum_to_one`: skipped when no weights are given. */
  function WeightsMustSumToOne(weights: Option<seq<real>>): (r: Result<Option<seq<real>>, ValidationError>)
    ensures r.Ok? <==> (weights.Some? ==> SumsToOne(weights.value))
    ensures r.Ok? ==> r.value == weights
    ensures r.Err? ==> r.error == WeightsDoNotSumToOne(Sum(weights.value))
  {
    match weights
    case None => Ok(weights)
    case Some(w) => if !SumsToOne(w) then Err(WeightsDoNotSumToOne(Sum(w))) else Ok(weights)
  }

  /** The validators of one field run in declaration order and the first one
      that fails ends that field's validation; fields are validated
      independently and their errors are all reported. */
  function FieldErrors(inputs: Inputs): (errors: seq<ValidationError>)
    ensures |errors| <= 2
  {
    var predictedErrors :=
      match LabelsMustBeSameShape(inputs.yPredicted, inputs.yObserved)
      case Err(e) => [e]
      case Ok(_) =>
        match LabelsMustBeBinary(inputs.yPredicted, inputs.yObserved)
        case Err(e) => [e]
        case Ok(_) => [];
    var weightErrors :=
      match WeightsMustBeSameLen(inputs.sampleWeights, inputs.yObserved)
      case Err(e) => [e]
      case Ok(_) =>
        match WeightsMustSumToOne(inputs.sampleWeights)
        case Err(e) => [e]
        case Ok(_) => [];
    predictedErrors + weightErrors
  }

  /** The validator model built from the four rules: the inputs unchanged, or every error. */
  function ValidateFields(inputs: Inputs): Result<Inputs, seq<ValidationError>>
  {
    var errors := FieldErrors(inputs);
    if errors == [] then Ok(inputs) else Err(errors)
  }

  /** Accepted inputs are exactly those meeting all four rules. */
  lemma ValidateFieldsAccepts(inputs: Inputs)
    ensures ValidateFields(inputs).Ok? <==>
      && |inputs.yPredicted| == |inputs.yObserved|
      && |Classes(inputs.yPredicted + inputs.yObserved)| <= 2
      && (inputs.sampleWeights.Some? ==>
            |inputs.sampleWeights.value| == |inputs.yObserved| && SumsToOne(inputs.sampleWeights.value))
    ensures ValidateFields(inputs).Ok? ==> ValidateFields(inputs).value == inputs
  {
  }

  /** A length mismatch between the labels is reported once, as the shape
      error, and the class-count rule is not consulted. */
  lemma ShapeMismatchIsSoleError(observed: seq<real>, predicted: seq<real>)
    requires |observed| != |predicted|
    ensures FieldErrors(Inputs(observed, predicted, None)) == [ShapeMismatch(|observed|, |predicted|)]
  {
  }

  /** Whether `labels` only take the values `a` and `b`. */
  predicate OnlyValues(labels: seq<real>, a: real, b: real)
  {
    forall i :: 0 <= i < |labels| ==> labels[i] == a || labels[i] == b
  }

  /** The class-count check accepts exactly the label arrays that take at most
      two distinct values. */
  lemma BinaryIffAtMostTwoValues(labels: seq<real>)
    ensures |Classes(labels)| <= 2 <==> exists a, b :: OnlyValues(labels, a, b)
  {
    var found := Classes(labels);
    if |found| <= 2 {
      if |labels| > 0 && !OnlyValues(labels, labels[0], labels[0]) {
        var a := labels[0];
        var j :| 0 <= j < |labels| && labels[j] != a;
        var b := labels[j];
        forall i | 0 <= i < |labels| ensures labels[i] == a || labels[i] == b {
          if labels[i] != a && labels[i] != b {
            assert {a, b, labels[i]} <= found;
            Sets.SubsetCardinality({a, b, labels[i]}, found);
          }
        }
        assert OnlyValues(labels, a, b);
      } else if |labels| > 0 {
        assert OnlyValues(labels, labels[0], labels[0]);
      } else {
        assert OnlyValues(labels, 0.0, 0.0);
      }
    } else {
      if a, b :| OnlyValues(labels, a, b) {
        assert found <= {a, b};
        Sets.SubsetCardinality(found, {a, b});
      }
    }
  }

  /** For weight sums of magnitude at most 100 the relative tolerance never
      dominates: the rule is exactly |sum - 1| <= 1e-7. */
  lemma SumsToOneIsAbsoluteTolerance(weights: seq<real>)
    requires Abs(Sum(weights)) <= 100.0
    ensures SumsToOne(weights) <==> Abs(Sum(weights) - 1.0) <= AbsTolerance
  {
    var s := Sum(weights);
    assert DefaultRelTol * Max(Abs(s), Abs(1.0)) <= AbsTolerance;
  }

  /** Weights summing to 1 ± 1e-7 pass; a deviation of 2e-7 or more fails and
      the error reports the actual sum. */
  lemma WeightSumBoundary(weights: seq<real>)
    ensures Abs(Sum(weights) - 1.0) <= AbsTolerance ==> WeightsMustSumToOne(Some(weights)).Ok?
    ensures Abs(Sum(weights) - 1.0) >= 2.0 * AbsTolerance && Abs(Sum(weights)) <= 100.0 ==>
      WeightsMustSumToOne(Some(weights)) == Err(WeightsDoNotSumToOne(Sum(weights)))
  {
    if Abs(Sum(weights)) <= 100.0 {
      SumsToOneIsAbsoluteTolerance(weights);
    }
  }

  /** Observed [1, 2, 3] against predicted [0, 1, 1]: four classes, reported
      by the class-count rule alone. */
  lemma FourClassesRejected()
    ensures FieldErrors(Inputs([1.0, 2.0, 3.0], [0.0, 1.0, 1.0], None)) == [NotBinary(4)]
  {
    var both := [0.0, 1.0, 1.0] + [1.0, 2.0, 3.0];
    assert Classes(both) == {0.0, 1.0, 2.0, 3.0} by {
      assert both[0] == 0.0 && both[1] == 1.0 && both[4] == 2.0 && both[5] == 3.0;
    }
  }
}
