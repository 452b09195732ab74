/** The PyTorch binary accuracy metric: two scalar accumulators, `correct`
    and `total`, declared with a zero default and the "sum" reduction,
    updated from thresholded predictions, and divided by `compute`. It
    inherits the no-op `reset` of `BinaryAccuracyBase` and takes the
    reduced-state path of `forward` (`full_state_update = False`). */
module PytorchBinaryAccuracy {
  import opened Wrappers
  import opened Numerics
  import opened Equality
  import opened MetricState
  import opened PytorchMetric
  import Accuracy

  /** The arguments of one `update` call. */
  datatype Batch = Batch(observed: seq<real>, predicted: Predictions, weights: Option<seq<real>>)

  /** The default `threshold` of `initialise_states`. */
  const DefaultThreshold: real := 0.5

  const Correct: string := "correct"
  const Total: string := "total"

  /** The states in declaration order. */
  const Names: seq<string> := [Correct, Total]

  /** What `initialise_states` registers: both states a zero scalar,
      summed across processes, not persistent. */
  const Entries: map<string, Entry> :=
    map[Correct := Entry(TensorState(Scalar(0.0)), SumReduction, false),
        Total := Entry(TensorState(Scalar(0.0)), SumReduction, false)]

  const ColumnMessage: string := "index 1 is out of bounds for dimension 1"
  const DotMessage: string := "inconsistent tensor size"

  /** The states holding the scalars `correct` and `total`. */
  function Scalars(correct: real, total: real): (s: map<string, StateVal>)
    ensures s.Keys == {Correct, Total}
  {
    map[Correct := TensorState(Scalar(correct)), Total := TensorState(Scalar(total))]
  }

  /** The number a zero-dimensional state holds (0 for a state that is not one). */
  function ScalarValue(s: map<string, StateVal>, name: string): real
  {
    if name in s && s[name].TensorState? && |s[name].tensor.data| == 1 then s[name].tensor.data[0] else 0.0
  }

  /** `update`: predictions thresholded first, then the unweighted path
      when no `sample_weight` is given and the weighted path otherwise.
      The unweighted path adds the number of agreeing positions to
      `correct` and the element count to `total`; the weighted path adds
      the weight of the agreeing positions to `correct` and rebinds
      `total` to 1. A prediction with fewer than two columns, labels of
      different lengths, or weights of another length raise before any
      state changes. */
  function BinaryUpdate(threshold: real, batch: Batch): (r: Result<map<string, Change>, UpdateError>)
    ensures ApplyThreshold(batch.predicted, threshold).Err? ==> r == Err(OtherError(ColumnMessage))
    ensures r.Ok? <==>
      ApplyThreshold(batch.predicted, threshold).Ok?
      && |ApplyThreshold(batch.predicted, threshold).value| == |batch.observed|
      && (batch.weights.Some? ==> |batch.weights.value| == |batch.observed|)
    ensures r.Ok? && batch.weights.None? ==>
      var predicted := ApplyThreshold(batch.predicted, threshold).value;
      r.value == map[Correct := AddInPlace(Scalar(Matches(batch.observed, predicted) as real)),
                     Total := AddInPlace(Scalar(|batch.observed| as real))]
    ensures r.Ok? && batch.weights.Some? ==>
      var predicted := ApplyThreshold(batch.predicted, threshold).value;
      r.value == map[Correct := AddInPlace(Scalar(Accuracy.MatchedWeight(batch.observed, predicted, batch.weights.value))),
                     Total := Assign(TensorState(Scalar(1.0)))]
  {
    match ApplyThreshold(batch.predicted, threshold)
    case Err(_) => Err(OtherError(ColumnMessage))
    case Ok(predicted) =>
      if |batch.observed| != |predicted| then Err(RuntimeError(SizeMismatch))
      else
        var mask := EqualityMask(batch.observed, predicted);
        match batch.weights
        case None =>
          MaskSumIsMatchCount(batch.observed, predicted);
          Ok(map[Correct := AddInPlace(Scalar(Sum(mask))), Total := AddInPlace(Scalar(|batch.observed| as real))])
        case Some(weights) =>
          if |weights| != |mask| then Err(RuntimeError(DotMessage))
          else
            Accuracy.WeightedIsMatchedWeight(batch.observed, predicted, weights);
            Ok(map[Correct := AddInPlace(Scalar(Dot(mask, weights))), Total := Assign(TensorState(Scalar(1.0)))])
  }

  /** `compute`: `correct / total` as a float division, with no guard: a
      zero `total` gives NaN or an infinity. */
  function BinaryCompute(s: map<string, StateVal>): (r: Float)
    ensures ScalarValue(s, Total) != 0.0 ==> r == Finite(ScalarValue(s, Correct) / ScalarValue(s, Total))
    ensures ScalarValue(s, Total) == 0.0 ==> !r.Finite?
    ensures ScalarValue(s, Total) == 0.0 && ScalarValue(s, Correct) == 0.0 ==> r.NaN?
  {
    Divide(ScalarValue(s, Correct), ScalarValue(s, Total))
  }

  /** The metric's `update`, as the constructor hands it to the machinery. */
  ghost predicate UpdatesWith(m: Metric<Batch, Float>, threshold: real)
  {
    forall s, b :: m.updateFn(s, b) == BinaryUpdate(threshold, b)
  }

  /** The metric's `compute`, as the constructor hands it to the machinery. */
  ghost predicate ComputesWith(m: Metric<Batch, Float>)
  {
    forall s :: m.computeFn(s) == BinaryCompute(s)
  }

  /** The metric's `compute` on two scalar states is their float quotient. */
  lemma ComputeOfScalars(m: Metric<Batch, Float>, correct: real, total: real)
    requires ComputesWith(m)
    ensures m.computeFn(Scalars(correct, total)) == Divide(correct, total)
  {
    assert m.computeFn(Scalars(correct, total)) == BinaryCompute(Scalars(correct, total));
  }

  /** Registers `correct` and `total` as `initialise_states` does. */
  method InitialiseStates(m: Metric<Batch, Float>)
    requires m.Valid() && m.names == [] && m.entries == map[] && m.state == map[]
    modifies m`names, m`entries, m`state
    ensures m.Valid()
    ensures m.names == Names && m.entries == Entries && m.state == Scalars(0.0, 0.0)
  {
    var r := m.AddState(Correct, TensorDefault(Scalar(0.0)), Named("sum"), false);
    r := m.AddState(Total, TensorDefault(Scalar(0.0)), Named("sum"), false);
  }

  /** `BinaryAccuracy(threshold=...)` as written: `BinaryAccuracyBase`
      calls `initialise_states()` without the threshold, so predictions are
      always thresholded at 0.5; `reset` is the inherited no-op; the base
      constructor is given no `dist_sync_on_step` or `sync_on_compute`, so
      they keep their defaults (off and on). */
  method NewAsWritten(threshold: real, gatherFn: (string, StateVal) -> StateVal, distributed: bool)
    returns (m: Metric<Batch, Float>)
    ensures fresh(m) && m.Valid()
    ensures UpdatesWith(m, DefaultThreshold) && ComputesWith(m)
    ensures m.resetIsNoOp && m.fullStateUpdate == Some(false) && !m.distSyncOnStep && m.syncOnCompute
    ensures m.names == Names && m.entries == Entries && m.state == Scalars(0.0, 0.0)
    ensures m.updateCount == 0 && m.computed.None? && !m.isSynced
  {
    m := new Metric((s: map<string, StateVal>, b: Batch) => BinaryUpdate(DefaultThreshold, b),
                    (s: map<string, StateVal>) => BinaryCompute(s), gatherFn, true, Some(false), false, true, distributed);
    InitialiseStates(m);
  }

  /** `BinaryAccuracy(threshold=...)` as evidently intended: the threshold
      passed in is the one `update` applies, and `reset` is the base
      class's, which restores the defaults. */
  method NewCorrected(threshold: real, gatherFn: (string, StateVal) -> StateVal, distributed: bool)
    returns (m: Metric<Batch, Float>)
    ensures fresh(m) && m.Valid()
    ensures UpdatesWith(m, threshold) && ComputesWith(m)
    ensures !m.resetIsNoOp && m.fullStateUpdate == Some(false) && !m.distSyncOnStep && m.syncOnCompute
    ensures m.names == Names && m.entries == Entries && m.state == Scalars(0.0, 0.0)
    ensures m.updateCount == 0 && m.computed.None? && !m.isSynced
  {
    m := new Metric((s: map<string, StateVal>, b: Batch) => BinaryUpdate(threshold, b),
                    (s: map<string, StateVal>) => BinaryCompute(s), gatherFn, false, Some(false), false, true, distributed);
    InitialiseStates(m);
  }

  /** `compute` before any update divides 0 by 0. */
  lemma ComputeOfFreshStatesIsNaN()
    ensures BinaryCompute(Scalars(0.0, 0.0)).NaN?
  {
  }

  /** `update`'s changes to the two states, applied in declaration order. */
  lemma ApplyToBoth(start: map<string, StateVal>, changes: map<string, Change>)
    requires Correct in start && Total in start && Correct in changes && Total in changes
    requires ApplyChange(start[Correct], changes[Correct]).Ok? && ApplyChange(start[Total], changes[Total]).Ok?
    ensures ApplyChanges(Names, start, changes)
      == Ok(start[Correct := ApplyChange(start[Correct], changes[Correct]).value]
                 [Total := ApplyChange(start[Total], changes[Total]).value])
  {
    var first := start[Correct := ApplyChange(start[Correct], changes[Correct]).value];
    var second := first[Total := ApplyChange(start[Total], changes[Total]).value];
    assert Names[0] == Correct && Names[1..] == [Total] && [Total][1..] == [];
    assert first[Total] == start[Total];
    assert ApplyChanges([], second, changes) == Ok(second);
    assert ApplyChanges([Total], first, changes) == ApplyChanges([], second, changes);
    assert ApplyChanges(Names, start, changes) == ApplyChanges([Total], first, changes);
  }

  /** Adding `x` in place to a scalar holding `y`. */
  lemma AddToScalar(y: real, x: real)
    ensures ApplyChange(TensorState(Scalar(y)), AddInPlace(Scalar(x))) == Ok(TensorState(Scalar(y + x)))
  {
    assert Zip(Add, Scalar(y), Scalar(x)).value.data == [y + x];
  }

  /** An unweighted update adds to both accumulators: from `correct` = c
      and `total` = t the states become c + matches and t + n. */
  lemma UnweightedUpdateAccumulates(m: Metric<Batch, Float>, threshold: real, correct: real, total: real, batch: Batch)
    requires UpdatesWith(m, threshold)
    requires batch.weights.None? && BinaryUpdate(threshold, batch).Ok?
    ensures var predicted := ApplyThreshold(batch.predicted, threshold).value;
      m.Updated(Names, Scalars(correct, total), batch)
        == Ok(Scalars(correct + Matches(batch.observed, predicted) as real, total + |batch.observed| as real))
  {
    var predicted := ApplyThreshold(batch.predicted, threshold).value;
    var start := Scalars(correct, total);
    assert m.updateFn(start, batch) == BinaryUpdate(threshold, batch);
    var changes := BinaryUpdate(threshold, batch).value;
    AddToScalar(correct, Matches(batch.observed, predicted) as real);
    AddToScalar(total, |batch.observed| as real);
    ApplyToBoth(start, changes);
    var after := Scalars(correct + Matches(batch.observed, predicted) as real, total + |batch.observed| as real);
    assert ApplyChange(start[Correct], changes[Correct]).value == after[Correct];
    assert ApplyChange(start[Total], changes[Total]).value == after[Total];
    assert start[Correct := after[Correct]][Total := after[Total]] == after;
    assert ApplyChanges(Names, start, changes) == Ok(after);
  }

  /** `UnweightedUpdateAccumulates` with the batch's hits and size named. */
  lemma UnweightedUpdateAdds(m: Metric<Batch, Float>, threshold: real, correct: real, total: real, batch: Batch, hits: real, n: real)
    requires UpdatesWith(m, threshold)
    requires batch.weights.None? && BinaryUpdate(threshold, batch).Ok?
    requires hits == Matches(batch.observed, ApplyThreshold(batch.predicted, threshold).value) as real
    requires n == |batch.observed| as real
    ensures m.Updated(Names, Scalars(correct, total), batch) == Ok(Scalars(correct + hits, total + n))
  {
    UnweightedUpdateAccumulates(m, threshold, correct, total, batch);
  }

  /** From the default states an unweighted update leaves the batch's own
      counts. */
  lemma UnweightedUpdateFromZero(m: Metric<Batch, Float>, threshold: real, batch: Batch)
    requires UpdatesWith(m, threshold)
    requires batch.weights.None? && BinaryUpdate(threshold, batch).Ok?
    ensures var predicted := ApplyThreshold(batch.predicted, threshold).value;
      m.Updated(Names, Scalars(0.0, 0.0), batch)
        == Ok(Scalars(Matches(batch.observed, predicted) as real, |batch.observed| as real))
  {
    UnweightedUpdateAccumulates(m, threshold, 0.0, 0.0, batch);
    var predicted := ApplyThreshold(batch.predicted, threshold).value;
    assert Scalars(0.0 + Matches(batch.observed, predicted) as real, 0.0 + |batch.observed| as real)
        == Scalars(Matches(batch.observed, predicted) as real, |batch.observed| as real);
  }

  /** A weighted update overwrites `total` with 1 whatever it held, while
      `correct` still accumulates. */
  lemma WeightedUpdateOverwritesTotal(m: Metric<Batch, Float>, threshold: real, correct: real, total: real, batch: Batch)
    requires UpdatesWith(m, threshold)
    requires batch.weights.Some? && BinaryUpdate(threshold, batch).Ok?
    ensures var predicted := ApplyThreshold(batch.predicted, threshold).value;
      m.Updated(Names, Scalars(correct, total), batch)
        == Ok(Scalars(correct + Accuracy.MatchedWeight(batch.observed, predicted, batch.weights.value), 1.0))
  {
    var predicted := ApplyThreshold(batch.predicted, threshold).value;
    var start := Scalars(correct, total);
    assert m.updateFn(start, batch) == BinaryUpdate(threshold, batch);
    var changes := BinaryUpdate(threshold, batch).value;
    AddToScalar(correct, Accuracy.MatchedWeight(batch.observed, predicted, batch.weights.value));
    ApplyToBoth(start, changes);
    var after := Scalars(correct + Accuracy.MatchedWeight(batch.observed, predicted, batch.weights.value), 1.0);
    assert changes[Total] == Assign(TensorState(Scalar(1.0)));
    assert ApplyChange(start[Total], changes[Total]) == Ok(TensorState(Scalar(1.0)));
    assert changes[Correct] == AddInPlace(Scalar(Accuracy.MatchedWeight(batch.observed, predicted, batch.weights.value)));
    assert ApplyChange(start[Correct], changes[Correct]).value == after[Correct];
    assert start[Correct := after[Correct]][Total := after[Total]] == after;
    assert ApplyChanges(Names, start, changes) == Ok(after);
  }

  /** `_reduce_states` on the two sum-reduced scalars adds them pairwise. */
  lemma SumBoth(globalCorrect: real, globalTotal: real, localCorrect: real, localTotal: real, count: nat)
    requires count > 0
    ensures ReduceAll(Names, Reductions(Entries), Scalars(globalCorrect, globalTotal), Scalars(localCorrect, localTotal), count)
      == Ok(Scalars(globalCorrect + localCorrect, globalTotal + localTotal))
  {
    var global := Scalars(globalCorrect, globalTotal);
    var local := Scalars(localCorrect, localTotal);
    var reductions := Reductions(Entries);
    var after := Scalars(globalCorrect + localCorrect, globalTotal + localTotal);
    assert reductions[Correct] == SumReduction && reductions[Total] == SumReduction;
    assert Zip(Add, Scalar(globalCorrect), Scalar(localCorrect)).value.data == [globalCorrect + localCorrect];
    assert Zip(Add, Scalar(globalTotal), Scalar(localTotal)).value.data == [globalTotal + localTotal];
    var first := local[Correct := after[Correct]];
    assert ReduceOne(SumReduction, global[Correct], local[Correct], count) == Some(after[Correct]);
    assert ReduceOne(SumReduction, global[Total], first[Total], count) == Some(after[Total]);
    assert first[Total := after[Total]] == after;
    assert Names[0] == Correct && Names[1..] == [Total] && [Total][1..] == [];
    assert ReduceAll([], reductions, global, after, count) == Ok(after);
    assert ReduceAll([Total], reductions, global, first, count) == ReduceAll([], reductions, global, after, count);
    assert ReduceAll(Names, reductions, global, local, count) == ReduceAll([Total], reductions, global, first, count);
  }

  /** An unweighted update only adds in place: it rebinds no state. */
  lemma UnweightedRebindsNothing(m: Metric<Batch, Float>, threshold: real, s: map<string, StateVal>, batch: Batch)
    requires UpdatesWith(m, threshold)
    requires batch.weights.None? && BinaryUpdate(threshold, batch).Ok?
    ensures m.Rebinds(s, batch) == {}
  {
    assert m.updateFn(s, batch) == BinaryUpdate(threshold, batch);
    var changes := BinaryUpdate(threshold, batch).value;
    assert forall k :: k in changes ==> !changes[k].Assign?;
  }

  /** The reduced `forward` with the no-op `reset`, from any update that
      takes the states from (c, t) to (a, b) in place: the batch value is
      computed on (a, b), and the merge adds (a, b) to itself. */
  lemma AsWrittenForwardFrom(m: Metric<Batch, Float>, correct: real, total: real, count: nat, batch: Batch, a: real, b: real)
    requires ComputesWith(m) && m.resetIsNoOp
    requires m.updateFn(Scalars(correct, total), batch).Ok?
    requires m.Updated(Names, Scalars(correct, total), batch) == Ok(Scalars(a, b))
    requires m.Rebinds(Scalars(correct, total), batch) == {}
    ensures m.ReducedForward(Names, Entries, Scalars(correct, total), count, batch)
      == Ok((Divide(a, b), Scalars(a + a, b + b)))
  {
    ComputeOfScalars(m, a, b);
    var s := Scalars(correct, total);
    var local := Scalars(a, b);
    assert ThroughOldObjects(s, local, {}) == local;
    SumBoth(a, b, a, b, count + 1);
    m.ReducedForwardFrom(Names, Entries, s, count, batch, local, local, Scalars(a + a, b + b));
  }

  /** `forward` as written, on an unweighted batch with h hits among n
      samples, from `correct` = c and `total` = t: the no-op `reset` lets
      the batch update start from the global states, which it changes in
      place to a = c + h and b = t + n, so the kept references see the
      updated objects and `_reduce_states` adds them to themselves. The
      batch value is a / b and the states end at 2a and 2b. */
  lemma ForwardAsWritten(m: Metric<Batch, Float>, correct: real, total: real, count: nat, batch: Batch, a: real, b: real)
    requires UpdatesWith(m, DefaultThreshold) && ComputesWith(m) && m.resetIsNoOp
    requires batch.weights.None? && BinaryUpdate(DefaultThreshold, batch).Ok?
    requires a == correct + Matches(batch.observed, ApplyThreshold(batch.predicted, DefaultThreshold).value) as real
    requires b == total + |batch.observed| as real
    ensures m.ReducedForward(Names, Entries, Scalars(correct, total), count, batch) == Ok((Divide(a, b), Scalars(a + a, b + b)))
  {
    UnweightedUpdateAccumulates(m, DefaultThreshold, correct, total, batch);
    UnweightedRebindsNothing(m, DefaultThreshold, Scalars(correct, total), batch);
    assert m.updateFn(Scalars(correct, total), batch) == BinaryUpdate(DefaultThreshold, batch);
    AsWrittenForwardFrom(m, correct, total, count, batch, a, b);
  }

  /** The reduced `forward` with a `reset` that restores the defaults, from
      any update that takes the zero states to (a, b): the batch value is
      computed on (a, b), and the merge adds (a, b) to the global (c, t). */
  lemma CorrectedForwardFrom(m: Metric<Batch, Float>, correct: real, total: real, count: nat, batch: Batch, a: real, b: real)
    requires ComputesWith(m) && !m.resetIsNoOp
    requires m.Updated(Names, Scalars(0.0, 0.0), batch) == Ok(Scalars(a, b))
    ensures m.ReducedForward(Names, Entries, Scalars(correct, total), count, batch)
      == Ok((Divide(a, b), Scalars(correct + a, total + b)))
  {
    ComputeOfScalars(m, a, b);
    assert ResetValues(Entries) == Scalars(0.0, 0.0);
    SumBoth(correct, total, a, b, count + 1);
    m.ReducedForwardFrom(Names, Entries, Scalars(correct, total), count, batch, Scalars(a, b), Scalars(correct, total),
                         Scalars(correct + a, total + b));
  }

  /** `forward` with a `reset` that restores the defaults, on an unweighted
      batch with h hits among n samples, from `correct` = c and `total` =
      t: it returns the batch's own accuracy h / n and leaves c + h and
      t + n, the states a direct update leaves
      (`UnweightedUpdateAccumulates`). */
  lemma ForwardCountsOnceCorrected(m: Metric<Batch, Float>, threshold: real, correct: real, total: real, count: nat, batch: Batch,
                                   hits: real, n: real)
    requires UpdatesWith(m, threshold) && ComputesWith(m) && !m.resetIsNoOp
    requires batch.weights.None? && BinaryUpdate(threshold, batch).Ok?
    requires hits == Matches(batch.observed, ApplyThreshold(batch.predicted, threshold).value) as real
    requires n == |batch.observed| as real
    ensures m.ReducedForward(Names, Entries, Scalars(correct, total), count, batch)
      == Ok((Divide(hits, n), Scalars(correct + hits, total + n)))
  {
    UnweightedUpdateFromZero(m, threshold, batch);
    CorrectedForwardFrom(m, correct, total, count, batch, hits, n);
  }

  /** With the threshold honoured, `update` counts a sample as class 1
      exactly when its column-1 score is above the threshold given to the
      constructor: a binary label scores a hit exactly when it is 1 and
      the score is above the threshold, or 0 and the score is not. */
  lemma CorrectedThresholdHonoured(m: Metric<Batch, Float>, threshold: real, observed: real, scores: seq<real>)
    requires UpdatesWith(m, threshold)
    requires |scores| == 2 && (observed == 0.0 || observed == 1.0)
    ensures var batch := Batch([observed], Scores(2, [scores]), None);
      var hit := if (scores[1] > threshold) == (observed == 1.0) then 1.0 else 0.0;
      m.updateFn(map[], batch) == Ok(map[Correct := AddInPlace(Scalar(hit)), Total := AddInPlace(Scalar(1.0))])
  {
    var batch := Batch([observed], Scores(2, [scores]), None);
    assert m.updateFn(map[], batch) == BinaryUpdate(threshold, batch);
    var predicted := ApplyThreshold(Scores(2, [scores]), threshold).value;
    assert predicted == [if scores[1] > threshold then 1.0 else 0.0];
    assert Matches([observed], predicted) == (if observed == predicted[0] then 1 else 0) by {
      assert [observed][1..] == [] && predicted[1..] == [];
    }
  }
}
