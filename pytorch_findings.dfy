/** The two defects of the PyTorch binary accuracy metric on concrete
    inputs: the threshold given to the constructor is ignored, and
    `forward` counts a batch twice into the states it leaves. */
module PytorchFindings {
  import opened Wrappers
  import opened Numerics
  import opened Equality
  import opened MetricState
  import opened PytorchMetric
  import opened PytorchBinaryAccuracy

  /** Column 1 of `[[0.4, 0.6]]`: 0.6 is above 0.5 but not above 0.7. */
  const Scores06: Predictions := Scores(2, [[0.4, 0.6]])

  /** The threshold a caller passes is ignored: the metric built with 0.7
      still scores a sample with probability 0.6 as class 1, so a label of
      0 counts as a miss, where thresholding at 0.7 counts it as a hit. */
  lemma ThresholdIgnoredAsWritten(m: Metric<Batch, Float>)
    requires UpdatesWith(m, DefaultThreshold)
    ensures var batch := Batch([0.0], Scores06, None);
      m.updateFn(map[], batch) == Ok(map[Correct := AddInPlace(Scalar(0.0)), Total := AddInPlace(Scalar(1.0))])
      && BinaryUpdate(0.7, batch) == Ok(map[Correct := AddInPlace(Scalar(1.0)), Total := AddInPlace(Scalar(1.0))])
  {
    var batch := Batch([0.0], Scores06, None);
    assert ApplyThreshold(Scores06, DefaultThreshold).value == [1.0];
    assert ApplyThreshold(Scores06, 0.7).value == [0.0];
    assert Matches([0.0], [1.0]) == 0 by { assert [0.0][1..] == []; }
    assert Matches([0.0], [0.0]) == 1 by { assert [0.0][1..] == []; }
  }

  /** Two samples, both labelled 1 and both predicted 1. */
  const TwoHits := Batch([1.0, 1.0], Flat([1.0, 1.0]), None)

  /** `TwoHits` passes the checks of `update` and scores 2 hits out of 2. */
  lemma TwoHitsScores()
    ensures TwoHits.weights.None? && BinaryUpdate(DefaultThreshold, TwoHits).Ok?
    ensures Matches(TwoHits.observed, ApplyThreshold(TwoHits.predicted, DefaultThreshold).value) == 2
    ensures 3.0 == 1.0 + Matches(TwoHits.observed, ApplyThreshold(TwoHits.predicted, DefaultThreshold).value) as real
    ensures 4.0 == 2.0 + |TwoHits.observed| as real
  {
    MatchesOfIdentical([1.0, 1.0]);
  }

  /** An update of `TwoHits` on the states 1 and 2 leaves 3 and 4. */
  lemma UpdateOfTwoHits(m: Metric<Batch, Float>)
    requires UpdatesWith(m, DefaultThreshold)
    ensures m.Updated(Names, Scalars(1.0, 2.0), TwoHits) == Ok(Scalars(3.0, 4.0))
  {
    TwoHitsScores();
    UnweightedUpdateAdds(m, DefaultThreshold, 1.0, 2.0, TwoHits, 2.0, 2.0);
  }

  /** The double counting on concrete numbers: after one update of [1, 0]
      against [1, 1] the states are 1 and 2; `forward` on `TwoHits` then
      returns 3/4 although that batch scores 1, and leaves 6 and 8 where an
      update leaves 3 and 4 (`UpdateOfTwoHits`). */
  lemma ForwardDoubleCountsAsWritten(m: Metric<Batch, Float>)
    requires UpdatesWith(m, DefaultThreshold) && ComputesWith(m) && m.resetIsNoOp
    ensures m.ReducedForward(Names, Entries, Scalars(1.0, 2.0), 1, TwoHits) == Ok((Divide(3.0, 4.0), Scalars(6.0, 8.0)))
  {
    TwoHitsScores();
    UpdateOfTwoHits(m);
    UnweightedRebindsNothing(m, DefaultThreshold, Scalars(1.0, 2.0), TwoHits);
    assert m.updateFn(Scalars(1.0, 2.0), TwoHits) == BinaryUpdate(DefaultThreshold, TwoHits);
    AsWrittenForwardFrom(m, 1.0, 2.0, 1, TwoHits, 3.0, 4.0);
  }
}
