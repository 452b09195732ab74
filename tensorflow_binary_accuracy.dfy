/** The TensorFlow binary accuracy metric: two scalar weights, `num_correct`
    and `total`, that `update` adds to from thresholded predictions,
    `reset` and `reset_state` zero, and `compute` divides with
    `tf.math.divide_no_nan`. */
module TensorflowBinaryAccuracy {
  import opened Wrappers
  import opened Numerics
  import opened Equality
  import opened TensorflowMetric
  import Accuracy
  import PytorchMetric

  /** The arguments of one `update` call, flattened. */
  datatype Batch = Batch(observed: seq<real>, predicted: seq<real>, weights: Option<seq<real>>)

  /** The `InvalidArgumentError` of `tf.math.equal` or `tf.tensordot` on
      operands whose sizes do not line up. */
  datatype UpdateError = IncompatibleShapes(left: nat, right: nat)

  /** The values of the two weights. */
  datatype Accumulators = Accumulators(numCorrect: real, total: real)

  const Zero: Accumulators := Accumulators(0.0, 0.0)

  /** The defaults of the constructor. */
  const DefaultThreshold: real := 0.5
  const Float32: string := "float32"

  const ClassName: string := "BinaryAccuracy"

  /** What one `update` does to the weights: predictions thresholded
      first; without `sample_weight` the number of agreeing positions is
      added to `num_correct` and the element count to `total`; with it the
      weight of the agreeing positions is added to `num_correct` and
      `total` is assigned 1. Operands of different sizes raise before
      either weight changes. */
  function Updated(acc: Accumulators, threshold: real, batch: Batch): (r: Result<Accumulators, UpdateError>)
    ensures r.Ok? <==> |batch.predicted| == |batch.observed|
                       && (batch.weights.Some? ==> |batch.weights.value| == |batch.observed|)
    ensures r.Ok? && batch.weights.None? ==>
      r.value == Accumulators(acc.numCorrect + Matches(batch.observed, ApplyThreshold(batch.predicted, threshold)) as real,
                              acc.total + |batch.observed| as real)
    ensures r.Ok? && batch.weights.Some? ==>
      r.value == Accumulators(acc.numCorrect + Accuracy.MatchedWeight(batch.observed, ApplyThreshold(batch.predicted, threshold), batch.weights.value),
                              1.0)
  {
    var predicted := ApplyThreshold(batch.predicted, threshold);
    if |batch.observed| != |predicted| then Err(IncompatibleShapes(|batch.observed|, |predicted|))
    else
      var mask := EqualityMask(batch.observed, predicted);
      match batch.weights
      case None =>
        MaskSumIsMatchCount(batch.observed, predicted);
        Ok(Accumulators(acc.numCorrect + Sum(mask), acc.total + |batch.observed| as real))
      case Some(weights) =>
        if |weights| != |mask| then Err(IncompatibleShapes(|mask|, |weights|))
        else
          Accuracy.WeightedIsMatchedWeight(batch.observed, predicted, weights);
          Ok(Accumulators(acc.numCorrect + Dot(mask, weights), 1.0))
  }

  /** `compute`: `divide_no_nan(num_correct, total)`, the float quotient
      wherever that is finite and 0 when `total` is 0. */
  function Computed(acc: Accumulators): (r: real)
    ensures acc.total == 0.0 ==> r == 0.0
    ensures acc.total != 0.0 ==> Divide(acc.numCorrect, acc.total) == Finite(r)
  {
    DivideNoNanAgreesWithDivide(acc.numCorrect, acc.total);
    DivideNoNan(acc.numCorrect, acc.total)
  }

  /** Successive `update` calls; the first that raises stops the run. */
  function UpdatedAll(acc: Accumulators, threshold: real, batches: seq<Batch>): Result<Accumulators, UpdateError>
    decreases |batches|
  {
    if |batches| == 0 then Ok(acc)
    else
      match Updated(acc, threshold, batches[0])
      case Err(e) => Err(e)
      case Ok(next) => UpdatedAll(next, threshold, batches[1..])
  }

  /** Batches without weights whose labels and predictions line up. */
  predicate Unweighted(batches: seq<Batch>)
  {
    forall i :: 0 <= i < |batches| ==> batches[i].weights.None? && |batches[i].predicted| == |batches[i].observed|
  }

  /** The observed labels of all batches, in order. */
  function AllObserved(batches: seq<Batch>): seq<real>
  {
    if |batches| == 0 then [] else batches[0].observed + AllObserved(batches[1..])
  }

  /** The thresholded predictions of all batches, in order. */
  function AllThresholded(batches: seq<Batch>, threshold: real): (r: seq<real>)
    requires Unweighted(batches)
    ensures |r| == |AllObserved(batches)|
  {
    if |batches| == 0 then []
    else ApplyThreshold(batches[0].predicted, threshold) + AllThresholded(batches[1..], threshold)
  }

  /** Unweighted updates count every position they see: after any run of
      them the weights have grown by the agreements and by the size of all
      the batches put together. */
  lemma {:induction false} UnweightedUpdatesCountEverything(acc: Accumulators, threshold: real, batches: seq<Batch>)
    requires Unweighted(batches)
    decreases |batches|
    ensures UpdatedAll(acc, threshold, batches) ==
      Ok(Accumulators(acc.numCorrect + Matches(AllObserved(batches), AllThresholded(batches, threshold)) as real,
                      acc.total + |AllObserved(batches)| as real))
  {
    if |batches| > 0 {
      var b := batches[0];
      var p := ApplyThreshold(b.predicted, threshold);
      var next := Accumulators(acc.numCorrect + Matches(b.observed, p) as real, acc.total + |b.observed| as real);
      assert Updated(acc, threshold, b) == Ok(next);
      assert Unweighted(batches[1..]) by {
        forall i | 0 <= i < |batches[1..]|
          ensures batches[1..][i].weights.None? && |batches[1..][i].predicted| == |batches[1..][i].observed|
        {
          assert batches[1..][i] == batches[i + 1];
        }
      }
      UnweightedUpdatesCountEverything(next, threshold, batches[1..]);
      MatchesAppend(b.observed, AllObserved(batches[1..]), p, AllThresholded(batches[1..], threshold));
    }
  }

  /** From freshly zeroed weights, `compute` after any run of unweighted
      updates is the one-shot accuracy of everything seen, so it lies in
      [0, 1]; before anything is seen it is 0. */
  lemma StreamingAccuracyIsBatchAccuracy(threshold: real, batches: seq<Batch>)
    requires Unweighted(batches)
    ensures UpdatedAll(Zero, threshold, batches).Ok?
    ensures |AllObserved(batches)| > 0 ==>
      Finite(Computed(UpdatedAll(Zero, threshold, batches).value))
        == Accuracy.BaseAccuracy(AllObserved(batches), AllThresholded(batches, threshold))
    ensures |AllObserved(batches)| == 0 ==> Computed(UpdatedAll(Zero, threshold, batches).value) == 0.0
    ensures 0.0 <= Computed(UpdatedAll(Zero, threshold, batches).value) <= 1.0
  {
    var observed := AllObserved(batches);
    var predicted := AllThresholded(batches, threshold);
    UnweightedUpdatesCountEverything(Zero, threshold, batches);
    MaskSumIsMatchCount(observed, predicted);
    MatchesAtMostLength(observed, predicted);
    MatchRatioInUnitInterval(Matches(observed, predicted), |observed|);
  }

  lemma MatchRatioInUnitInterval(hits: nat, n: nat)
    requires hits <= n
    ensures n > 0 ==> 0.0 <= hits as real / n as real <= 1.0
  {
  }

  /** A single unweighted sample with a 0/1 label scores a hit exactly when
      its score reaching the threshold agrees with its label being 1. */
  lemma ThresholdHonoured(acc: Accumulators, threshold: real, observed: real, score: real)
    requires observed == 0.0 || observed == 1.0
    ensures Updated(acc, threshold, Batch([observed], [score], None)).Ok?
    ensures Updated(acc, threshold, Batch([observed], [score], None)).value.numCorrect
         == acc.numCorrect + (if (score >= threshold) == (observed == 1.0) then 1.0 else 0.0)
  {
    var p := ApplyThreshold([score], threshold);
    assert Matches([observed], p) == (if observed == p[0] then 1 else 0) + Matches([], []) by {
      assert [observed][1..] == [] && p[1..] == [];
    }
  }

  /** A weighted update assigns `total` rather than adding to it, so two
      weighted batches that are each scored perfectly make `compute`
      return 2: the result is the sum of the matched weights of every
      weighted batch, not their average. */
  lemma WeightedBatchesSumMatchedWeights(acc: Accumulators, threshold: real, first: Batch, second: Batch)
    requires first.weights.Some? && |first.predicted| == |first.observed| == |first.weights.value|
    requires second.weights.Some? && |second.predicted| == |second.observed| == |second.weights.value|
    ensures UpdatedAll(acc, threshold, [first, second]).Ok?
    ensures Computed(UpdatedAll(acc, threshold, [first, second]).value)
         == acc.numCorrect
            + Accuracy.MatchedWeight(first.observed, ApplyThreshold(first.predicted, threshold), first.weights.value)
            + Accuracy.MatchedWeight(second.observed, ApplyThreshold(second.predicted, threshold), second.weights.value)
  {
    var next := Updated(acc, threshold, first).value;
    assert [first, second][1..] == [second];
    assert UpdatedAll(acc, threshold, [first, second]) == UpdatedAll(next, threshold, [second]);
    assert [second][1..] == [];
  }

  const Perfect: Batch := Batch([1.0], [1.0], Some([1.0]))

  lemma TwoPerfectWeightedBatchesScoreTwo()
    ensures UpdatedAll(Zero, DefaultThreshold, [Perfect, Perfect]) == Ok(Accumulators(2.0, 1.0))
    ensures Computed(Accumulators(2.0, 1.0)) == 2.0
  {
    var p := ApplyThreshold(Perfect.predicted, DefaultThreshold);
    assert p == [1.0];
    assert Accuracy.MatchedWeight([1.0], p, [1.0]) == 1.0 + Accuracy.MatchedWeight([], [], []) by {
      assert [1.0][1..] == [];
    }
    var once := Accumulators(1.0, 1.0);
    assert Updated(Zero, DefaultThreshold, Perfect) == Ok(once);
    assert Updated(once, DefaultThreshold, Perfect) == Ok(Accumulators(2.0, 1.0));
    assert [Perfect, Perfect][1..] == [Perfect];
    assert [Perfect][1..] == [];
    assert UpdatedAll(Zero, DefaultThreshold, [Perfect, Perfect]) == UpdatedAll(once, DefaultThreshold, [Perfect]);
    assert UpdatedAll(once, DefaultThreshold, [Perfect]) == UpdatedAll(Accumulators(2.0, 1.0), DefaultThreshold, []);
  }

  /** TensorFlow thresholds with `>=` and PyTorch with `>`: a score equal
      to the threshold is a positive here and a negative there. */
  lemma BoundaryScoreDiffersFromPytorch(threshold: real)
    ensures ApplyThreshold([threshold], threshold) == [1.0]
    ensures PytorchMetric.ApplyThreshold(PytorchMetric.Scores(2, [[1.0 - threshold, threshold]]), threshold) == Ok([0.0])
  {
    var r := PytorchMetric.ApplyThreshold(PytorchMetric.Scores(2, [[1.0 - threshold, threshold]]), threshold);
    assert r.Ok? && |r.value| == 1 && r.value[0] == 0.0;
    assert r.value == [0.0];
  }

  /** `BinaryAccuracy`, with the state and behaviour it inherits from
      `TensorflowBaseMetric` and `BinaryAccuracyBase`. */
  class BinaryAccuracy {
    /** The layer's `name` and the name of its dtype. */
    const name: string
    const dtype: string
    var stateful: bool
    var built: bool
    /** The `num_correct` and `total` weights. */
    var numCorrect: real
    var total: real
    var threshold: real

    function Acc(): Accumulators
      reads this
    {
      Accumulators(numCorrect, total)
    }

    /** `self.variables`, in creation order. */
    function Variables(): seq<real>
      reads this
    {
      [numCorrect, total]
    }

    /** `BinaryAccuracyBase.__init__`: the base initialiser marks the
        layer stateful and built and keeps the dtype's name; then
        `initialise_states` receives the given threshold. */
    constructor(name: string, dtype: string, threshold: real)
      ensures this.name == name && this.dtype == dtype
      ensures stateful && built
      ensures Acc() == Zero && this.threshold == threshold
    {
      this.name := name;
      this.dtype := dtype;
      stateful := true;
      built := true;
      new;
      InitialiseStates(threshold);
    }

    /** `initialise_states`: both weights created zero, threshold stored. */
    method InitialiseStates(threshold: real)
      modifies this
      ensures Acc() == Zero && this.threshold == threshold
      ensures stateful == old(stateful) && built == old(built)
    {
      numCorrect := 0.0;
      total := 0.0;
      this.threshold := threshold;
    }

    /** `get_config`: exactly the name and the dtype. */
    function GetConfig(): Config
    {
      [("name", name), ("dtype", dtype)]
    }

    /** `__str__`. */
    function ToString(): (s: string)
      ensures s == ClassName + "(name=" + name + ",dtype=" + dtype + ")"
    {
      RenderNameAndDtype(ClassName, name, dtype);
      Render(ClassName, GetConfig())
    }

    /** `reset_state`: every variable of the layer set to 0. */
    method ResetState()
      modifies this
      ensures |Variables()| == |old(Variables())|
      ensures forall i :: 0 <= i < |Variables()| ==> Variables()[i] == 0.0
      ensures threshold == old(threshold) && stateful == old(stateful) && built == old(built)
    {
      numCorrect, total := 0.0, 0.0;
    }

    /** `reset`: both weights assigned 0. */
    method Reset()
      modifies this
      ensures Acc() == Zero
      ensures threshold == old(threshold) && stateful == old(stateful) && built == old(built)
    {
      numCorrect := 0.0;
      total := 0.0;
    }

    /** `_update_binary_accuracy`. */
    method UpdateBinaryAccuracy(observed: seq<real>, predicted: seq<real>) returns (r: Outcome<UpdateError>)
      modifies this
      ensures r.Pass? <==> |observed| == |predicted|
      ensures r.Pass? ==> Acc() == Accumulators(old(numCorrect) + Matches(observed, predicted) as real, old(total) + |observed| as real)
      ensures r.Fail? ==> r == Fail(IncompatibleShapes(|observed|, |predicted|)) && Acc() == old(Acc())
      ensures threshold == old(threshold) && stateful == old(stateful) && built == old(built)
    {
      if |observed| != |predicted| {
        return Fail(IncompatibleShapes(|observed|, |predicted|));
      }
      MaskSumIsMatchCount(observed, predicted);
      numCorrect := numCorrect + Sum(EqualityMask(observed, predicted));
      total := total + |observed| as real;
      r := Pass;
    }

    /** `_update_weighted_binary_accuracy`. */
    method UpdateWeightedBinaryAccuracy(observed: seq<real>, predicted: seq<real>, weights: seq<real>) returns (r: Outcome<UpdateError>)
      modifies this
      ensures r.Pass? <==> |observed| == |predicted| == |weights|
      ensures r.Pass? ==> Acc() == Accumulators(old(numCorrect) + Accuracy.MatchedWeight(observed, predicted, weights), 1.0)
      ensures r.Fail? ==> Acc() == old(Acc())
      ensures threshold == old(threshold) && stateful == old(stateful) && built == old(built)
    {
      if |observed| != |predicted| {
        return Fail(IncompatibleShapes(|observed|, |predicted|));
      }
      var mask := EqualityMask(observed, predicted);
      if |mask| != |weights| {
        return Fail(IncompatibleShapes(|mask|, |weights|));
      }
      Accuracy.WeightedIsMatchedWeight(observed, predicted, weights);
      numCorrect := numCorrect + Dot(mask, weights);
      total := 1.0;
      r := Pass;
    }

    /** `update`: the predictions thresholded first, then the weighted
        path exactly when `sample_weight` is given. */
    method Update(observed: seq<real>, predicted: seq<real>, weights: Option<seq<real>>) returns (r: Outcome<UpdateError>)
      modifies this
      ensures var u := Updated(old(Acc()), old(threshold), Batch(observed, predicted, weights));
              (u.Ok? ==> r.Pass? && Acc() == u.value) && (u.Err? ==> r.Fail? && Acc() == old(Acc()))
      ensures threshold == old(threshold) && stateful == old(stateful) && built == old(built)
    {
      var thresholded := ApplyThreshold(predicted, threshold);
      if weights.None? {
        r := UpdateBinaryAccuracy(observed, thresholded);
      } else {
        r := UpdateWeightedBinaryAccuracy(observed, thresholded, weights.value);
      }
    }

    /** `update_state`: hands its arguments to `update`. */
    method UpdateState(observed: seq<real>, predicted: seq<real>, weights: Option<seq<real>>) returns (r: Outcome<UpdateError>)
      modifies this
      ensures var u := Updated(old(Acc()), old(threshold), Batch(observed, predicted, weights));
              (u.Ok? ==> r.Pass? && Acc() == u.value) && (u.Err? ==> r.Fail? && Acc() == old(Acc()))
      ensures threshold == old(threshold) && stateful == old(stateful) && built == old(built)
    {
      r := Update(observed, predicted, weights);
    }

    /** `compute`. */
    function Compute(): (r: real)
      reads this
      ensures total == 0.0 ==> r == 0.0
      ensures total != 0.0 ==> Divide(numCorrect, total) == Finite(r)
    {
      Computed(Acc())
    }

    /** `result`: what `compute` returns. */
    function Result(): (r: real)
      reads this
      ensures r == Compute()
    {
      Compute()
    }
  }
}
