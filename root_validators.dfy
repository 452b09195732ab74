/** The numpy accuracy validators written as pydantic root validators over
    the whole argument bundle. Two versions exist: one counts the classes of
    both label arrays together, the other counts each array on its own. Every
    root validator runs and every failure is reported. */
module RootValidators {
  import opened Wrappers
  import opened Conditions
  import Sets

  /** `input_must_be_same_shape`. */
  function InputMustBeSameShape(values: Inputs): (r: Result<Inputs, ValidationError>)
    ensures r.Ok? <==> LabelsMustBeSameShape(values.yPredicted, values.yObserved).Ok?
    ensures r.Ok? ==> r.value == values
    ensures r.Err? ==> r.error == LabelsMustBeSameShape(values.yPredicted, values.yObserved).error
  {
    if |values.yObserved| != |values.yPredicted| then
      Err(ShapeMismatch(|values.yObserved|, |values.yPredicted|))
    else Ok(values)
  }

  /** `input_must_be_binary`, counting the classes of `y_observed` and
      `y_predicted` together. */
  function InputMustBeBinary(values: Inputs): (r: Result<Inputs, ValidationError>)
    ensures r.Ok? <==> LabelsMustBeBinary(values.yPredicted, values.yObserved).Ok?
    ensures r.Ok? ==> r.value == values
    ensures r.Err? ==> r.error == LabelsMustBeBinary(values.yPredicted, values.yObserved).error
  {
    var found := Classes(values.yObserved + values.yPredicted);
    assert found == Classes(values.yPredicted + values.yObserved);
    if |found| > 2 then Err(NotBinary(|found|)) else Ok(values)
  }

  /** `weights_must_be_same_length_as_samples`. */
  function WeightsMustBeSameLengthAsSamples(values: Inputs): (r: Result<Inputs, ValidationError>)
    ensures r.Ok? <==> WeightsMustBeSameLen(values.sampleWeights, values.yObserved).Ok?
    ensures r.Ok? ==> r.value == values
    ensures r.Err? ==> r.error == WeightsMustBeSameLen(values.sampleWeights, values.yObserved).error
  {
    match values.sampleWeights
    case None => Ok(values)
    case Some(w) =>
      if |values.yObserved| != |w| then Err(WeightsLengthMismatch(|w|, |values.yObserved|)) else Ok(values)
  }

  /** `weights_must_sum_to_one`. */
  function WeightsMustSumToOne(values: Inputs): (r: Result<Inputs, ValidationError>)
    ensures r.Ok? <==> Conditions.WeightsMustSumToOne(values.sampleWeights).Ok?
    ensures r.Ok? ==> r.value == values
    ensures r.Err? ==> r.error == Conditions.WeightsMustSumToOne(values.sampleWeights).error
  {
    match values.sampleWeights
    case None => Ok(values)
    case Some(w) => if !SumsToOne(w) then Err(WeightsDoNotSumToOne(Numerics.Sum(w))) else Ok(values)
  }

  function ErrorOf(r: Result<Inputs, ValidationError>): seq<ValidationError>
  {
    if r.Err? then [r.error] else []
  }

  /** Every root validator of the union version runs; the failures are collected in order. */
  function RootErrors(values: Inputs): (errors: seq<ValidationError>)
    ensures |errors| <= 4
  {
    ErrorOf(InputMustBeSameShape(values)) + ErrorOf(InputMustBeBinary(values))
      + ErrorOf(WeightsMustBeSameLengthAsSamples(values)) + ErrorOf(WeightsMustSumToOne(values))
  }

  /** `BaseAccuracyValidator(**values)` of the union version. */
  function Validate(values: Inputs): (r: Result<Inputs, seq<ValidationError>>)
    ensures r.Ok? ==> r.value == values
    ensures r.Err? ==> 1 <= |r.error| <= 4
  {
    var errors := RootErrors(values);
    if errors == [] then Ok(values) else Err(errors)
  }

  /** The root validators accept exactly what the field validators accept,
      and both hand back the arguments unchanged. */
  lemma RootAndFieldValidatorsAgree(values: Inputs)
    ensures Validate(values).Ok? <==> ValidateFields(values).Ok?
    ensures Validate(values).Ok? ==> Validate(values).value == values
  {
    ValidateFieldsAccepts(values);
  }

  /** Observed [1, 1, 1, 1] against predicted [1, 1, 1] is rejected, with the
      shape error as the only error. */
  lemma UnequalLengthsRejected()
    ensures Validate(Inputs([1.0, 1.0, 1.0, 1.0], [1.0, 1.0, 1.0], None)) == Err([ShapeMismatch(4, 3)])
  {
    var values := Inputs([1.0, 1.0, 1.0, 1.0], [1.0, 1.0, 1.0], None);
    var both := values.yObserved + values.yPredicted;
    assert forall x | x in both :: x == 1.0;
    assert both[0] == 1.0;
    assert Classes(both) == {1.0};
    assert InputMustBeBinary(values).Ok?;
    assert RootErrors(values) == [ShapeMismatch(4, 3)];
  }

  /** `input_must_be_binary` of the per-array version: the larger of the two
      class counts decides, and on a tie the name "y_predicted" (the larger
      string) is the one reported. */
  function InputMustBeBinaryPerArray(values: Inputs): (r: Result<Inputs, ValidationError>)
    ensures r.Ok? <==> |Classes(values.yObserved)| <= 2 && |Classes(values.yPredicted)| <= 2
    ensures r.Ok? ==> r.value == values
    ensures r.Err? ==> r.error.NotBinaryIn?
    ensures r.Err? && r.error.field == YObserved ==>
      r.error.classes == |Classes(values.yObserved)| > |Classes(values.yPredicted)|
    ensures r.Err? && r.error.field == YPredicted ==>
      r.error.classes == |Classes(values.yPredicted)| >= |Classes(values.yObserved)|
  {
    var observed := |Classes(values.yObserved)|;
    var predicted := |Classes(values.yPredicted)|;
    var (count, field) := if observed > predicted then (observed, YObserved) else (predicted, YPredicted);
    if count > 2 then Err(NotBinaryIn(field, count)) else Ok(values)
  }

  /** Every root validator of the per-array version runs; the failures are collected in order. */
  function PerArrayRootErrors(values: Inputs): (errors: seq<ValidationError>)
    ensures |errors| <= 4
  {
    ErrorOf(InputMustBeSameShape(values)) + ErrorOf(InputMustBeBinaryPerArray(values))
      + ErrorOf(WeightsMustBeSameLengthAsSamples(values)) + ErrorOf(WeightsMustSumToOne(values))
  }

  /** `BaseAccuracyValidator(**values)` of the per-array version. */
  function ValidatePerArray(values: Inputs): (r: Result<Inputs, seq<ValidationError>>)
    ensures r.Ok? ==> r.value == values
    ensures r.Err? ==> 1 <= |r.error| <= 4
  {
    var errors := PerArrayRootErrors(values);
    if errors == [] then Ok(values) else Err(errors)
  }

  /** Whatever the union version accepts, the per-array version accepts too. */
  lemma UnionCheckIsStricter(values: Inputs)
    ensures Validate(values).Ok? ==> ValidatePerArray(values).Ok?
  {
    var both := values.yObserved + values.yPredicted;
    assert Classes(values.yObserved) <= Classes(both);
    assert Classes(values.yPredicted) <= Classes(both) by {
      forall x | x in values.yPredicted ensures x in both {
        var i :| 0 <= i < |values.yPredicted| && values.yPredicted[i] == x;
        assert both[|values.yObserved| + i] == x;
      }
    }
    Sets.SubsetCardinality(Classes(values.yObserved), Classes(both));
    Sets.SubsetCardinality(Classes(values.yPredicted), Classes(both));
  }

  /** ... but not conversely: observed [0, 1] against predicted [1, 2] has three
      classes in all, which the per-array version lets through. */
  lemma PerArrayAcceptsThreeClasses()
    ensures ValidatePerArray(Inputs([0.0, 1.0], [1.0, 2.0], None)).Ok?
    ensures Validate(Inputs([0.0, 1.0], [1.0, 2.0], None)) == Err([NotBinary(3)])
  {
    assert Classes([0.0, 1.0]) == {0.0, 1.0};
    assert Classes([1.0, 2.0]) == {1.0, 2.0};
    var values := Inputs([0.0, 1.0], [1.0, 2.0], None);
    var both := values.yObserved + values.yPredicted;
    assert Classes(both) == {0.0, 1.0, 2.0} by {
      assert both[0] == 0.0 && both[1] == 1.0 && both[3] == 2.0;
    }
    assert InputMustBeBinary(values) == Err(NotBinary(3));
    assert InputMustBeBinaryPerArray(values).Ok?;
    assert RootErrors(values) == [NotBinary(3)];
  }

  /** On equal class counts above two, the error names `y_predicted`. */
  lemma TieNamesPredicted(values: Inputs)
    requires |Classes(values.yObserved)| == |Classes(values.yPredicted)| > 2
    ensures InputMustBeBinaryPerArray(values) == Err(NotBinaryIn(YPredicted, |Classes(values.yPredicted)|))
  {
  }
}
