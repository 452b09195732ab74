# otito metrics, modelled in Dafny

otito is a multi-backend metrics library: the same accuracy metrics are
offered over NumPy arrays, PyTorch tensors and TensorFlow tensors, with
pydantic validators that check the inputs first. This project models its
core and proves properties of the model:

- **The PyTorch stateful metric base.** `PytorchBaseMetric` keeps a registry
  of named states, each with a default and a reduction. Around the
  subclass's `update` and `compute` it keeps an update counter, a result
  cache, the `sync`/`unsync` protocol and the two `forward` strategies
  (full-state and reduced-state). It is a Dafny class, `PytorchMetric.Metric`,
  whose methods change its fields. The reduction rules (`_reduce_states`)
  are in `MetricState`.
- **The stateful binary accuracy of two backends.**
  - PyTorch: `PytorchBinaryAccuracy`, an instance of `Metric` with the
    `correct` and `total` states.
  - TensorFlow: `TensorflowBinaryAccuracy.BinaryAccuracy`, a class with the
    `num_correct` and `total` weights. It sits on the value-level
    thresholding and config rendering of `TensorflowMetric`.
- **The input-validation rules**: four field validators and two versions of
  the root validators (`Conditions`, `RootValidators`).
- **The stateless accuracy formulas and dispatchers** (`Accuracy`,
  `Equality`) and the call plumbing of `otito/utils.py` (`Utils`).

Tensors are flattened to `seq<real>`; the PyTorch model keeps a shape
beside the data. Values are exact reals. The library repeats the same rule
in several backends and packages; each rule is one Dafny definition:

- `Equality.EqualityMask` is every equality mask:
  - `_tensor_equality` in otito/base/pytorch/base_pytorch_metric.py:774-776, otito/base/tensorflow/base_tensorflow_metric.py:131-133, otito/metrics/pytorch/base_pytorch_metric.py:13-15 and otito/metrics/tensorflow/base_tensorflow_metric.py:13-15;
  - `_array_equality` in otito/base/numpy/base_numpy_metric.py:13-17 and otito/metrics/numpy/base_numpy_metric.py:13-17.
- `Conditions` holds the four field validators of otito/metrics/numpy/validation/conditions.py:7-48, otito/input_validation/numpy/conditions.py:7-47, otito/metrics/pytorch/validation/conditions.py:7-48, otito/input_validation/pytorch/conditions.py:7-48 and otito/metrics/tensorflow/validation/conditions.py:7-48. They differ only in the field name (`sample_weight` or `sample_weights`) and in how a length is read (`len`, `size()[0]`, `shape[0]`).
- `Accuracy.BaseAccuracy` and `Accuracy.WeightedAccuracy` are the two formulas of
  - otito/metrics/numpy/classification/binary_classification.py:76-86;
  - otito/metrics/pytorch/_classification.py:33-41;
  - otito/metrics/pytorch/classification/accuracy.py:15-23;
  - otito/metrics/numpy/classification/accuracy.py:15-26;
  - otito/metrics/numpy/_classification.py:14-23;
  - otito/metrics/_classification.py:11-20;
  - otito/classification/accuracy.py:10-19;
  - and, for the plain formula, otito/base/classification/accuracy.py:4-5.
- `Accuracy.Compute` is the dispatch of every `compute` and of the PyTorch `update`s, which return what `compute` returns and change nothing:
  - otito/metrics/numpy/classification/binary_classification.py:63-74;
  - otito/metrics/pytorch/_classification.py:43-80;
  - otito/metrics/pytorch/classification/accuracy.py:25-63;
  - otito/metrics/numpy/_classification.py:25-43.
- `Accuracy.AccuracyScore` is the dispatch that chooses between the validated and the raw formula. It covers `accuracy_score` (otito/metrics/_classification.py:23-44), `accuracy` (otito/classification/accuracy.py:22-38) and `Accuracy.calculate` with `__call__` (otito/metrics/numpy/classification/accuracy.py:28-52). The flag is `parse_input`, `validate_input`, or the `parse_input` the numpy `Accuracy` constructor stores.

The validation uses pydantic, which stops a field's own chain of
validators at its first failure but validates each field independently and
collects the errors of every field and of every root validator;
`Conditions.FieldErrors` and `RootValidators.RootErrors` collect them that
way.

## Model

| member | source | states |
|---|---|---|
| Numerics.DivideNoNan | otito/metrics/tensorflow/classification/binary_classification.py:88-89 | `tf.math.divide_no_nan`: 0 when the divisor is 0, otherwise a quotient that times the divisor gives back the dividend |
| Numerics.Average | otito/metrics/numpy/classification/binary_classification.py:76-78 | `np.average` of a one-dimensional array: NaN exactly when the array is empty, otherwise a finite value that times the length is the sum |
| Numerics.DivideNoNanAgreesWithDivide | otito/metrics/tensorflow/classification/binary_classification.py:88-89 | `divide_no_nan` is the true quotient when the divisor is non-zero, and 0 when it is zero, where plain division has no finite value |
| Numerics.SumAppend | otito/metrics/numpy/classification/binary_classification.py:80-86 | the sum of a concatenation is the sum of the sums |
| Numerics.SumNonNegative | otito/metrics/numpy/validation/conditions.py:40-48 | the sum of non-negative weights is non-negative and at least each weight |
| Sets.SubsetCardinality | otito/metrics/numpy/validation/classification/accuracy_validator.py:22-34 | a subset has no more elements than its superset (a class set of one array is no larger than that of both) |
| Equality.EqualityMask | otito/base/pytorch/base_pytorch_metric.py:774-776 | `_tensor_equality`: the mask has the length of its inputs and each entry is 1.0 or 0.0 |
| Equality.MaskEntry | otito/base/tensorflow/base_tensorflow_metric.py:131-133 | a mask entry is 1.0 if and only if the inputs are equal there, and 0.0 if and only if they differ |
| Equality.MaskSymmetric | otito/base/numpy/base_numpy_metric.py:13-17 | swapping the arguments of `_array_equality` leaves the mask unchanged |
| Equality.MaskTail | otito/metrics/pytorch/base_pytorch_metric.py:13-15 | the mask of the tails is the tail of the mask: the mask is computed position by position |
| Equality.MaskSumIsMatchCount | otito/metrics/numpy/base_numpy_metric.py:13-17 | the mask sums to the number of positions where the inputs agree |
| Equality.MatchesSymmetric | otito/metrics/tensorflow/base_tensorflow_metric.py:13-15 | the number of agreeing positions, the mask's sum, does not depend on the order of the arguments |
| Equality.MatchesAtMostLength | otito/base/classification/accuracy.py:4-5 | the match count is at most the length |
| Equality.MatchesOfIdentical | otito/base/classification/accuracy.py:4-5 | identical inputs match at every position |
| Equality.MatchesOfDisjoint | otito/base/classification/accuracy.py:4-5 | inputs that differ everywhere match nowhere |
| Equality.MatchesAppend | otito/metrics/tensorflow/classification/binary_classification.py:46-52 | the match count of concatenated batches is the sum of the batches' counts |
| Conditions.LabelsMustBeSameShape | otito/metrics/numpy/validation/conditions.py:7-15 | rejects exactly when the lengths differ, with the observed and then the predicted length; returns its input unchanged on success |
| Conditions.LabelsMustBeBinary | otito/metrics/numpy/validation/conditions.py:18-25 | rejects exactly when the union of both arrays' values has more than two elements, reporting that count; returns its input on success |
| Conditions.WeightsMustBeSameLen | otito/metrics/numpy/validation/conditions.py:28-37 | skipped when there are no weights; otherwise rejects exactly when the weights and the observed labels differ in length |
| Conditions.WeightsMustSumToOne | otito/metrics/numpy/validation/conditions.py:40-48 | skipped when there are no weights; otherwise rejects exactly when `math.isclose(sum, 1, abs_tol=1e-7)` fails, reporting the sum |
| Conditions.FieldErrors | otito/metrics/numpy/validation/conditions.py:7-48 | the errors of field validation: each of the two validated fields reports at most its first failing rule, so at most two errors in all |
| Conditions.ValidateFieldsAccepts | otito/metrics/numpy/validation/conditions.py:7-48 | the validator built from the four rules accepts exactly the inputs that meet all four, and hands them back unchanged |
| Conditions.ShapeMismatchIsSoleError | otito/metrics/numpy/classification/binary_classification.py:22-32 | labels of different lengths without weights produce exactly one error, the shape error |
| Conditions.BinaryIffAtMostTwoValues | otito/metrics/tensorflow/validation/conditions.py:18-25 | at most two classes if and only if every label is one of two values |
| Conditions.SumsToOneIsAbsoluteTolerance | otito/metrics/pytorch/validation/conditions.py:40-48 | for weight sums up to 100 the `isclose` test is exactly \|sum − 1\| ≤ 1e-7 |
| Conditions.WeightSumBoundary | otito/input_validation/numpy/conditions.py:40-47 | a sum within 1e-7 of 1 is accepted, and a sum of magnitude at most 100 that is at least 2e-7 away from 1 is rejected |
| Conditions.FourClassesRejected | otito/input_validation/pytorch/conditions.py:18-25 | [1, 2, 3] against [0, 1, 1] is rejected as having 4 classes |
| RootValidators.InputMustBeSameShape | otito/metrics/numpy/validation/classification.py:13-21 | the root shape rule rejects exactly what the field rule rejects, with the same error, and returns `values` unchanged |
| RootValidators.InputMustBeBinary | otito/metrics/numpy/validation/classification.py:23-33 | the root binary rule rejects exactly when the union of the two arrays has more than two values |
| RootValidators.WeightsMustBeSameLengthAsSamples | otito/metrics/numpy/validation/classification.py:35-44 | applies only when weights are present, and rejects exactly when the lengths differ |
| RootValidators.WeightsMustSumToOne | otito/metrics/numpy/validation/classification.py:46-54 | applies only when weights are present, and rejects exactly when the sum is not within 1e-7 of 1 |
| RootValidators.RootErrors | otito/metrics/numpy/validation/classification.py:11-54 | every root validator of the union version runs and its failures are collected, at most one per validator |
| RootValidators.Validate | otito/metrics/numpy/validation/classification.py:11-54 | constructing the union-version validator model hands the values back unchanged, or fails with between one and four errors |
| RootValidators.RootAndFieldValidatorsAgree | otito/metrics/numpy/validation/classification.py:11-54 | the root validators (weights defaulting to none) accept exactly what the field validators accept, and both return the values unchanged |
| RootValidators.UnequalLengthsRejected | otito/metrics/numpy/validation/classification.py:13-21 | [1, 1, 1, 1] against [1, 1, 1] is rejected with the one shape error (4, 3) |
| RootValidators.InputMustBeBinaryPerArray | otito/metrics/numpy/validation/classification/accuracy_validator.py:22-34 | the per-array rule rejects exactly when either array alone has more than two values, and names the array with the larger count |
| RootValidators.PerArrayRootErrors | otito/metrics/numpy/validation/classification/accuracy_validator.py:12-55 | every root validator of the per-array version runs and its failures are collected, at most one per validator |
| RootValidators.ValidatePerArray | otito/metrics/numpy/validation/classification/accuracy_validator.py:12-55 | constructing the per-array validator model hands the values back unchanged, or fails with between one and four errors |
| RootValidators.UnionCheckIsStricter | otito/metrics/numpy/validation/classification/accuracy_validator.py:12-55 | whatever the union validators accept, the per-array validators accept too |
| RootValidators.PerArrayAcceptsThreeClasses | otito/metrics/numpy/validation/classification/accuracy_validator.py:22-34 | [0, 1] against [1, 2] passes the per-array check but is rejected by the union check with 3 classes |
| RootValidators.TieNamesPredicted | otito/metrics/numpy/validation/classification/accuracy_validator.py:24-27 | when both arrays have the same too-large class count, the error names `y_predicted` |
| Accuracy.BaseAccuracy | otito/metrics/numpy/classification/binary_classification.py:76-78 | defines `_base_accuracy` as the average of the equality mask; `Accuracy.BaseAccuracyIsMatchRatio` and `Accuracy.BaseAccuracyInUnitInterval` state what it computes |
| Accuracy.WeightedAccuracy | otito/metrics/numpy/classification/binary_classification.py:80-86 | defines `_weighted_accuracy` as the dot product of the equality mask with the weights; `Accuracy.WeightedIsMatchedWeight` states what it computes |
| Accuracy.BaseFormula | otito/metrics/numpy/classification/binary_classification.py:76-78 | the plain formula fails exactly when the label arrays differ in length, and reports both lengths |
| Accuracy.WeightedFormula | otito/metrics/numpy/classification/binary_classification.py:80-86 | the weighted formula succeeds exactly when weights are given and the labels and weights all have one length, and then has a finite value |
| Accuracy.Compute | otito/metrics/numpy/classification/binary_classification.py:43-74 | the weighted formula exactly when weights are supplied, the plain one otherwise; a failure exactly when the operands do not line up |
| Accuracy.BaseAccuracyIsMatchRatio | otito/metrics/numpy/classification/binary_classification.py:76-78 | plain accuracy is the number of agreeing positions over the length (NaN on empty input) |
| Accuracy.BaseAccuracyInUnitInterval | otito/metrics/pytorch/_classification.py:33-36 | plain accuracy of non-empty inputs lies in [0, 1] |
| Accuracy.IdenticalLabelsScoreOne | otito/base/classification/accuracy.py:4-5 | identical labels score 1 |
| Accuracy.DisjointLabelsScoreZero | otito/base/classification/accuracy.py:4-5 | labels that differ everywhere score 0 |
| Accuracy.AccuracySymmetric | otito/metrics/pytorch/classification/accuracy.py:15-23 | both formulas are symmetric in observed and predicted |
| Accuracy.WeightedIsMatchedWeight | otito/metrics/numpy/classification/binary_classification.py:80-86 | `dot(mask, weights)` is the total weight of the agreeing positions |
| Accuracy.MatchedWeightBounds | otito/metrics/pytorch/_classification.py:38-41 | with non-negative weights the matched weight lies between 0 and the weight total |
| Accuracy.DotWithConstant | otito/metrics/_classification.py:16-20 | a dot product with a constant weight vector is that constant times the mask sum |
| Accuracy.UniformWeightsGiveBaseAccuracy | otito/metrics/numpy/classification/accuracy.py:15-26 | uniform weights 1/n make the weighted formula equal the plain one |
| Accuracy.ValidatedInputsScoreInRange | otito/metrics/numpy/classification/binary_classification.py:22-74 | inputs the validators accept never make the formulas fail; the plain score lies in [0, 1], and with non-negative weights so does the weighted one, up to the 1e-7 tolerance |
| Accuracy.AllMismatchedScoresZero | otito/metrics/numpy/classification/binary_classification.py:63-78 | [0, 0, 0, 0] against [1, 1, 1, 1] scores 0 |
| Accuracy.ThreeOfFourScoresThreeQuarters | otito/metrics/numpy/classification/binary_classification.py:63-86 | [1, 1, 0, 1] against [1, 0, 0, 1] scores 0.75, with and without the weights 0.25 × 4 |
| Accuracy.ValidatedCompute | otito/metrics/numpy/_classification.py:25-43 | `compute` behind `argument_validator`: the validator's errors when it rejects, otherwise the dispatching formula on what it returns |
| Accuracy.RootValidatedComputeFailsOnlyInValidation | otito/metrics/numpy/_classification.py:25-43 | behind the root validators `compute` fails only in validation, and scores what is accepted with the dispatching formula |
| Accuracy.AccuracyScore | otito/metrics/_classification.py:23-44 | `accuracy_score`: the weighted formula exactly when weights are supplied, each path behind its validator when `parse_input` is set and called directly otherwise |
| Accuracy.AccuracyScoreValidationOnlyRejects | otito/classification/accuracy.py:22-38 | with validators that return what they accept, turning validation on can only reject a call, never change an accepted call's score |
| Utils.RemoveFirst | otito/utils.py:37-38 | `list.remove`: the list is unchanged without the element, one shorter with it, and contains nothing new |
| Utils.FirstIndex | otito/utils.py:38 | the index `list.remove` deletes is the first occurrence |
| Utils.RemoveFirstDeletesFirstIndex | otito/utils.py:37-38 | removing "self" deletes exactly its first occurrence and keeps the order of the rest |
| Utils.ArgNames | otito/utils.py:35-39 | defines `get_function_arg_names` on the declared argument names; `Utils.ArgNamesSpec` states what it returns |
| Utils.ArgNamesSpec | otito/utils.py:35-39 | `get_function_arg_names` returns the names unchanged without "self", and otherwise one fewer, without its first "self", in order |
| Utils.ArgumentValidator | otito/utils.py:15-24 | the function runs if and only if the validator accepts the keyword arguments, then on the validated ones; otherwise the validator's error |
| Utils.ValidationHandler | otito/utils.py:27-32 | the function receives the receiver and only what `_parse_input` produced from the call's arguments |
| Utils.CallMetric | otito/metrics/utils.py:1-5 | with validation off the metric runs on the raw arguments; with it on, it runs if and only if the validator accepts, on the validated arguments |
| Utils.CallMetricValidationTransparent | otito/metrics/utils.py:1-5 | with a validator that returns what it accepts, an accepted call scores as an unvalidated one |
| MetricState.Scalar | otito/metrics/pytorch/classification/binary_classification.py:41-44 | a scalar state is a well-formed tensor of shape [] holding its one value |
| MetricState.ResolveReduction | otito/base/pytorch/base_pytorch_metric.py:197-210 | "sum", "mean", "cat", "max" and "min" name their reductions, None is no reduction, a callable is kept; any other name is rejected |
| MetricState.CheckDefault | otito/base/pytorch/base_pytorch_metric.py:190-195 | a default is accepted if and only if it is a tensor or an empty list |
| MetricState.ResetRestoresDefault | otito/base/pytorch/base_pytorch_metric.py:564-571 | the value `reset` gives a state is its default (a tensor default, or [] for a list state) |
| MetricState.Zip | otito/base/pytorch/base_pytorch_metric.py:331-340 | an elementwise merge is defined exactly on equal shapes and applies the operation position by position |
| MetricState.Stack | otito/base/pytorch/base_pytorch_metric.py:343-344 | stacking two tensors of one shape gives shape [2] + shape and the two data in order |
| MetricState.ReduceOne | otito/base/pytorch/base_pytorch_metric.py:326-350 | the merge of one state keeps a tensor state a tensor and a list state a list |
| MetricState.NoReductionStacksOrConcatenates | otito/base/pytorch/base_pytorch_metric.py:343-346 | without a reduction, two tensors of one shape are stacked along a new leading dimension, two lists are flattened into one, and every other pair cannot be merged |
| MetricState.CustomReductionAppliesToStack | otito/base/pytorch/base_pytorch_metric.py:347-348 | a callable reduction is applied to the two tensors stacked along a new leading dimension, and fails exactly when they are not two tensors of one shape |
| MetricState.SumAndCatReduction | otito/base/pytorch/base_pytorch_metric.py:331-342 | sum and cat give global + local: list concatenation, or the elementwise sum |
| MetricState.RunningMeanStep | otito/base/pytorch/base_pytorch_metric.py:333-336 | the mean merge rule ((n−1)·global + local)/n extends a running mean by one value |
| MetricState.MeanReductionExtendsRunningMean | otito/base/pytorch/base_pytorch_metric.py:333-336 | a mean-reduced state that held the mean of n values holds the mean of n+1 after the merge |
| MetricState.MeanReductionStep | otito/base/pytorch/base_pytorch_metric.py:333-336 | the mean merge of one entry, in running-mean form |
| MetricState.MeanReductionEntry | otito/base/pytorch/base_pytorch_metric.py:333-336 | each entry of a mean merge is ((n−1)·global + local)/n |
| MetricState.SumAppendOne | otito/base/pytorch/base_pytorch_metric.py:333-336 | appending a value adds it to the sum |
| MetricState.MaxMinReductionBounds | otito/base/pytorch/base_pytorch_metric.py:337-340 | each entry of a max merge is at least both inputs, and each entry of a min merge at most both |
| MetricState.ProductOfStacked | otito/base/pytorch/base_pytorch_metric.py:343-344 | stacking doubles the element count |
| MetricState.ReducePreservesWellFormed | otito/base/pytorch/base_pytorch_metric.py:326-350 | every reduction of two well-formed tensors gives a well-formed tensor |
| MetricState.ApplyChange | otito/metrics/pytorch/classification/binary_classification.py:46-60 | an in-place add needs a tensor of the same shape and adds elementwise, an assignment replaces, an append needs a list state |
| MetricState.ApplyChanges | otito/base/pytorch/base_pytorch_metric.py:396-418 | applying an update's changes keeps the set of states and leaves every unchanged state as it was |
| MetricState.PartlyApplied | otito/base/pytorch/base_pytorch_metric.py:396-418 | the states a failing update leaves keep their keys, untouched states keep their values, and when every change applies they are the updated states |
| MetricState.PartlyAppliedStops | otito/base/pytorch/base_pytorch_metric.py:396-418 | a failing update stops at the change that raises the error; that state and every later one keep their old values |
| MetricState.ApplyChangesEach | otito/base/pytorch/base_pytorch_metric.py:396-418 | each changed state ends up as its own change applied to its old value |
| MetricState.ApplyChangesOk | otito/base/pytorch/base_pytorch_metric.py:396-418 | changes that each apply cleanly apply together |
| MetricState.SumReductionOfZeroBasedBatch | otito/base/pytorch/base_pytorch_metric.py:291-310 | sum-merging a batch added to a zero default equals adding the batch to the global state |
| MetricState.SumWithZero | otito/base/pytorch/base_pytorch_metric.py:331-332 | sum-merging a zero tensor leaves the global state unchanged |
| MetricState.ReduceAll | otito/base/pytorch/base_pytorch_metric.py:322-350 | `_reduce_states` keeps the set of states, leaves states outside the registry alone, and fails only on a registered state |
| MetricState.PartlyReduced | otito/base/pytorch/base_pytorch_metric.py:326-350 | the states a failing `_reduce_states` leaves keep their keys and agree with the merged states when no merge fails |
| MetricState.PartlyReducedStops | otito/base/pytorch/base_pytorch_metric.py:326-350 | a failing `_reduce_states` stops at the state it reports: that merge fails, every earlier state holds its merged value, and that state and every later one keep their batch values |
| MetricState.ReduceAllOk | otito/base/pytorch/base_pytorch_metric.py:326-350 | the merge succeeds when every state merges |
| MetricState.ReduceAllEach | otito/base/pytorch/base_pytorch_metric.py:326-350 | each registered state ends up as its own reduction of its global and local values |
| MetricState.ReduceAllAgrees | otito/base/pytorch/base_pytorch_metric.py:326-350 | a merge whose every state agrees with a target gives exactly that target |
| MetricState.MapsEqual | otito/base/pytorch/base_pytorch_metric.py:326-350 | two state maps with the same names and values are equal |
| MetricState.SumMergeOfZeroBasedBatch | otito/base/pytorch/base_pytorch_metric.py:286-320 | for sum-reduced states with zero defaults, merging a batch computed from the defaults gives the direct update of the global states |
| MetricState.SumMergeKey | otito/base/pytorch/base_pytorch_metric.py:326-350 | the same, for one state |
| MetricState.SumMergeOfZeroBasedLocal | otito/base/pytorch/base_pytorch_metric.py:326-350 | the same, for a given batch state |
| PytorchMetric.WrapUpdateError | otito/base/pytorch/base_pytorch_metric.py:404-413 | a RuntimeError mentioning "Expected all tensors to be on" becomes a device-mismatch error with the original as its cause; every other error propagates unchanged |
| PytorchMetric.DeviceErrorsRewritten | otito/base/pytorch/base_pytorch_metric.py:404-413 | a device message is rewritten only when it comes in a RuntimeError |
| PytorchMetric.ResetValues | otito/base/pytorch/base_pytorch_metric.py:564-571 | `reset` gives every registered state its default value |
| PytorchMetric.Reductions | otito/base/pytorch/base_pytorch_metric.py:219 | `_reductions` holds each state's reduction |
| PytorchMetric.Assigned | otito/base/pytorch/base_pytorch_metric.py:291-304 | the states an update rebinds, not changes in place, are the assigned ones among the registered states |
| PytorchMetric.ThroughOldObjects | otito/base/pytorch/base_pytorch_metric.py:291-304 | the kept global objects see every in-place change of the batch update, and keep their old value where the update rebound the attribute |
| PytorchMetric.ThroughRebound | otito/base/pytorch/base_pytorch_metric.py:291-304 | when every state was rebound the kept objects are untouched |
| PytorchMetric.AppendKeepsDistinct | otito/base/pytorch/base_pytorch_metric.py:215-217 | the ordered registry of state names stays free of duplicates |
| PytorchMetric.FilterKwargs | otito/base/pytorch/base_pytorch_metric.py:726-750 | everything when `update` takes `**kwargs`, otherwise exactly the keywords that name non-variadic parameters, with their values |
| PytorchMetric.FilterKwargsDropsUnknown | otito/base/pytorch/base_pytorch_metric.py:731-750 | a keyword the signature does not name is dropped, and nothing is kept when no keyword names a non-variadic parameter |
| PytorchMetric.ApplyThreshold | otito/base/pytorch/base_pytorch_metric.py:778-786 | one-dimensional predictions pass unchanged; score rows become 1.0 exactly when column 1 is above the threshold, 0.0 otherwise |
| PytorchMetric.Metric.AfterUpdate | otito/base/pytorch/base_pytorch_metric.py:396-418 | the states an update leaves keep their keys: the updated states on success, the states as they were when the metric's own update raises |
| PytorchMetric.Metric.Updated | otito/base/pytorch/base_pytorch_metric.py:396-418 | a successful update keeps the set of states; a failed one fails with a device-mismatch or update error |
| PytorchMetric.Metric.Gathered | otito/base/pytorch/base_pytorch_metric.py:444-462 | after a sync every state holds its gathered value |
| PytorchMetric.Metric.FullForward | otito/base/pytorch/base_pytorch_metric.py:246-284 | defines the full-state forward from given states: update, save, reset, update on the batch, compute, restore; `PytorchMetric.Metric.FullForwardSteps` states its outcomes |
| PytorchMetric.Metric.FullForwardState | otito/base/pytorch/base_pytorch_metric.py:246-284 | the states the full-state forward leaves: the restored states on success, and on a failing global update the states it left |
| PytorchMetric.Metric.FullForwardSteps | otito/base/pytorch/base_pytorch_metric.py:246-284 | the full-state forward fails with the first update's error, else the batch update's, else returns the batch value and the states after one global update |
| PytorchMetric.Metric.ReducedForwardIsDirectUpdate | otito/base/pytorch/base_pytorch_metric.py:286-320 | with a real `reset`, zero defaults, sum reductions and an additive update, the reduced-state forward leaves exactly the states a direct update leaves |
| PytorchMetric.Metric.ReducedForwardUpdateFails | otito/base/pytorch/base_pytorch_metric.py:303-305 | the reduced-state forward fails with the batch update's error |
| PytorchMetric.Metric.ReducedForwardMergeFails | otito/base/pytorch/base_pytorch_metric.py:307-310 | the reduced-state forward fails with the merge's error |
| PytorchMetric.Metric.ReducedForward | otito/base/pytorch/base_pytorch_metric.py:286-320 | defines the reduced-state forward from given states: reset, update on the batch, compute, then merge with the saved global states; `PytorchMetric.Metric.ReducedForwardFrom` and `PytorchMetric.Metric.ReducedForwardIsDirectUpdate` state its outcomes |
| PytorchMetric.Metric.ReducedForwardState | otito/base/pytorch/base_pytorch_metric.py:286-320 | the states the reduced-state forward leaves: the merged states on success, and on a failing batch update what it left from the reset states, the global ones lost |
| PytorchMetric.Metric.ReducedForwardFrom | otito/base/pytorch/base_pytorch_metric.py:286-320 | a successful reduced-state forward returns the batch value and the merged states |
| PytorchMetric.Metric.constructor | otito/base/pytorch/base_pytorch_metric.py:74-136 | empty registries, no updates, no cached result, not synced, `_to_sync` equal to `sync_on_compute`, `_should_unsync` set |
| PytorchMetric.Metric.AddState | otito/base/pytorch/base_pytorch_metric.py:190-219 | a bad default or reduction is rejected and changes nothing; otherwise the state takes its default and the registry records the default, the reduction and the persistent flag |
| PytorchMetric.Metric.Persistent | otito/base/pytorch/base_pytorch_metric.py:670-673 | every state's persistent flag becomes the given mode; nothing else changes |
| PytorchMetric.Metric.BaseReset | otito/base/pytorch/base_pytorch_metric.py:559-574 | count 0, caches cleared, not synced, every state back to its default |
| PytorchMetric.Metric.Reset | otito/base/pytorch/base_pytorch_metric.py:797-798 | a subclass whose `reset` is a no-op changes nothing; otherwise the base reset |
| PytorchMetric.Metric.Update | otito/base/pytorch/base_pytorch_metric.py:396-418 | the cached result is dropped and the count goes up by one before the update runs; it fails with the wrapped error exactly when the update fails, and the states are `AfterUpdate`: the updated ones, unchanged when the metric's own update raises, the changes before the failing one when one of its changes fails |
| PytorchMetric.Metric.Sync | otito/base/pytorch/base_pytorch_metric.py:427-462 | refused when already synced; a no-op when not asked to sync or not distributed; otherwise caches the local states, gathers and marks the metric synced |
| PytorchMetric.Metric.Unsync | otito/base/pytorch/base_pytorch_metric.py:464-485 | a no-op when not asked; refused when not synced or without a cache; otherwise restores the cached states, clears the cache and the flag |
| PytorchMetric.Metric.SyncContext | otito/base/pytorch/base_pytorch_metric.py:488-518 | the body sees the gathered states when syncing a distributed metric, and the local states are restored afterwards when asked to unsync |
| PytorchMetric.Metric.WrappedCompute | otito/base/pytorch/base_pytorch_metric.py:520-548 | a cached result is returned without computing; otherwise the result is computed inside a sync context and cached; it warns exactly when there has been no update |
| PytorchMetric.Metric.ReduceStates | otito/base/pytorch/base_pytorch_metric.py:322-350 | the states become the merge of the given global states with the local ones; on a failing merge the error names the state, and the states before it are merged while it and the later ones keep their batch values |
| PytorchMetric.Metric.BatchPass | otito/base/pytorch/base_pytorch_metric.py:255-269 | the flags are set for the batch; the batch value is `compute` on the batch update from the reset states and is the cached result; a failing batch update leaves what it changed; the count is one past the reset one |
| PytorchMetric.Metric.BatchAndRestore | otito/base/pytorch/base_pytorch_metric.py:262-284 | after the batch pass the kept states and count are put back and the flags restored; a failing batch update puts nothing back and leaves the batch flags |
| PytorchMetric.Metric.Restore | otito/base/pytorch/base_pytorch_metric.py:271-280 | puts back the given states and count, marks the metric unsynced and drops the cached result |
| PytorchMetric.Metric.FullStateForward | otito/base/pytorch/base_pytorch_metric.py:246-284 | returns the batch-only value, leaves the states of one global update and the count one higher; on a failure the states are `FullForwardState` and the count, the cached result and the flags are those the failing update left |
| PytorchMetric.Metric.ReducedStateForward | otito/base/pytorch/base_pytorch_metric.py:286-320 | returns the batch-only value, merges the batch states into the kept global ones with the count one past the old one; on a failure the states are `ReducedForwardState`, and a failing merge leaves the count raised, the batch value cached and the batch flags |
| PytorchMetric.Metric.MergeBatch | otito/base/pytorch/base_pytorch_metric.py:307-316 | the count becomes the given count plus one and the states the merge, partial when a state fails to merge; the flags are restored and the cached result dropped only when the merge succeeds |
| PytorchMetric.Metric.Forward | otito/base/pytorch/base_pytorch_metric.py:222-244 | refused while synced and nothing changes; the full-state path when `full_state_update` is not `False` or states sync on every step, the reduced path otherwise; on success the value is kept as `_forward_cache` and `_should_unsync` and `_to_sync` are restored; on failure the states, count, cached result and flags are those the failing step left |
| PytorchMetric.Metric.SyncThenUnsync | otito/base/pytorch/base_pytorch_metric.py:427-485 | sync followed by unsync restores the local states exactly and leaves no cache |
| PytorchMetric.Metric.ComputeTwice | otito/base/pytorch/base_pytorch_metric.py:520-548 | a second compute with no update in between returns the first result |
| PytorchBinaryAccuracy.Scalars | otito/metrics/pytorch/classification/binary_classification.py:41-44 | the states are exactly `correct` and `total` |
| PytorchBinaryAccuracy.BinaryUpdate | otito/metrics/pytorch/classification/binary_classification.py:62-78 | threshold first; without weights, add the match count to `correct` and the length to `total`; with weights, add the matched weight and assign `total` := 1 |
| PytorchBinaryAccuracy.BinaryCompute | otito/metrics/pytorch/classification/binary_classification.py:80-81 | `correct / total`, with no guard: not finite when `total` is 0, NaN when both are 0 |
| PytorchBinaryAccuracy.ComputeOfScalars | otito/metrics/pytorch/classification/binary_classification.py:80-81 | `compute` is the IEEE quotient of the two states |
| PytorchBinaryAccuracy.InitialiseStates | otito/metrics/pytorch/classification/binary_classification.py:41-44 | declares `correct` and `total`, both 0.0 and sum-reduced |
| PytorchBinaryAccuracy.NewAsWritten | otito/base/pytorch/base_pytorch_metric.py:789-798 | as written the constructor thresholds at 0.5 whatever threshold it is given, its `reset` does nothing, and `full_state_update` is `False` |
| PytorchBinaryAccuracy.NewCorrected | otito/metrics/pytorch/classification/binary_classification.py:39-44 | the threshold given is the one `update` applies, and `reset` restores the defaults |
| PytorchBinaryAccuracy.ComputeOfFreshStatesIsNaN | otito/metrics/pytorch/classification/binary_classification.py:80-81 | `compute` before any update is 0/0 |
| PytorchBinaryAccuracy.ApplyToBoth | otito/metrics/pytorch/classification/binary_classification.py:46-60 | an update's changes to the two states apply together |
| PytorchBinaryAccuracy.AddToScalar | otito/metrics/pytorch/classification/binary_classification.py:50-52 | `+=` on a scalar state adds |
| PytorchBinaryAccuracy.UnweightedUpdateAccumulates | otito/metrics/pytorch/classification/binary_classification.py:46-52 | an unweighted update adds the match count to `correct` and the length to `total` |
| PytorchBinaryAccuracy.UnweightedUpdateAdds | otito/metrics/pytorch/classification/binary_classification.py:46-52 | the same, for given counts |
| PytorchBinaryAccuracy.UnweightedUpdateFromZero | otito/metrics/pytorch/classification/binary_classification.py:46-52 | from fresh states an unweighted update leaves the match count and the length |
| PytorchBinaryAccuracy.WeightedUpdateOverwritesTotal | otito/metrics/pytorch/classification/binary_classification.py:54-60 | a weighted update adds the matched weight to `correct` and overwrites `total` with 1 |
| PytorchBinaryAccuracy.SumBoth | otito/base/pytorch/base_pytorch_metric.py:326-350 | merging the two sum-reduced states adds them pairwise |
| PytorchBinaryAccuracy.UnweightedRebindsNothing | otito/metrics/pytorch/classification/binary_classification.py:46-52 | an unweighted update changes both states in place |
| PytorchBinaryAccuracy.AsWrittenForwardFrom | otito/base/pytorch/base_pytorch_metric.py:286-320 | with the no-op `reset`, the reduced forward merges the global states with themselves after the update |
| PytorchBinaryAccuracy.ForwardAsWritten | otito/base/pytorch/base_pytorch_metric.py:286-320 | as written, `forward` returns the accuracy of global and batch together, and leaves `correct` and `total` doubled |
| PytorchBinaryAccuracy.CorrectedForwardFrom | otito/base/pytorch/base_pytorch_metric.py:286-320 | with a real `reset`, the reduced forward computes on the batch alone and merges it into the global states |
| PytorchBinaryAccuracy.ForwardCountsOnceCorrected | otito/base/pytorch/base_pytorch_metric.py:286-320 | with a real `reset`, `forward` returns the batch's own accuracy and adds the batch counts to the global ones exactly once |
| PytorchBinaryAccuracy.CorrectedThresholdHonoured | otito/metrics/pytorch/classification/binary_classification.py:62-78 | with the threshold passed through, a binary label scores a hit exactly when it is 1 and its column-1 score is above the threshold, or 0 and it is not |
| PytorchFindings.ThresholdIgnoredAsWritten | otito/base/pytorch/base_pytorch_metric.py:789-798 | a score of 0.6 against a threshold of 0.7 is counted as a positive prediction |
| PytorchFindings.TwoHitsScores | otito/metrics/pytorch/classification/binary_classification.py:46-52 | the example batch is unweighted and has two hits in two samples |
| PytorchFindings.UpdateOfTwoHits | otito/metrics/pytorch/classification/binary_classification.py:46-52 | from (1, 2) a direct update with that batch gives (3, 4) |
| PytorchFindings.ForwardDoubleCountsAsWritten | otito/base/pytorch/base_pytorch_metric.py:286-320 | from (1, 2), `forward` with that batch returns 3/4 and leaves (6, 8) |
| TensorflowMetric.ApplyThreshold | otito/base/tensorflow/base_tensorflow_metric.py:135-137 | every value becomes 1.0 exactly when it is at or above the threshold and 0.0 exactly when below, and the length is kept |
| TensorflowMetric.ThresholdKeepsLabels | otito/base/tensorflow/base_tensorflow_metric.py:135-137 | 0/1 labels pass unchanged through a threshold in (0, 1] |
| TensorflowMetric.ThresholdIdempotent | otito/base/tensorflow/base_tensorflow_metric.py:135-137 | thresholding twice is thresholding once |
| TensorflowMetric.ThresholdMonotone | otito/base/tensorflow/base_tensorflow_metric.py:135-137 | raising the threshold never turns a 0 into a 1 |
| TensorflowMetric.Assignments | otito/base/tensorflow/base_tensorflow_metric.py:53 | one `k=v` string per config entry |
| TensorflowMetric.Join | otito/base/tensorflow/base_tensorflow_metric.py:53 | defines `",".join`; `TensorflowMetric.RenderNameAndDtype` states the string it builds for a config |
| TensorflowMetric.Render | otito/base/tensorflow/base_tensorflow_metric.py:52-54 | `__str__` starts with the class name and an opening parenthesis and ends with a closing one |
| TensorflowMetric.RenderNameAndDtype | otito/base/tensorflow/base_tensorflow_metric.py:52-62 | a config of a name and a dtype prints as `C(name=<name>,dtype=<dtype>)` |
| TensorflowBinaryAccuracy.Updated | otito/metrics/tensorflow/classification/binary_classification.py:70-86 | an update succeeds exactly when the shapes line up; without weights it adds the match count and the length, with weights it adds the matched weight and sets `total` to 1 |
| TensorflowBinaryAccuracy.Computed | otito/metrics/tensorflow/classification/binary_classification.py:88-89 | `divide_no_nan(num_correct, total)`: 0 when `total` is 0, the quotient otherwise |
| TensorflowBinaryAccuracy.AllThresholded | otito/metrics/tensorflow/classification/binary_classification.py:70-86 | the thresholded predictions of all batches line up with their observed labels |
| TensorflowBinaryAccuracy.UnweightedUpdatesCountEverything | otito/metrics/tensorflow/classification/binary_classification.py:46-52 | unweighted updates over any sequence of batches add the match count and the length of all the batches together |
| TensorflowBinaryAccuracy.UpdatedAll | otito/metrics/tensorflow/classification/binary_classification.py:70-86 | defines successive `update` calls, stopping at the first that raises; `TensorflowBinaryAccuracy.StreamingAccuracyIsBatchAccuracy` states where they lead |
| TensorflowBinaryAccuracy.StreamingAccuracyIsBatchAccuracy | otito/metrics/tensorflow/classification/binary_classification.py:46-89 | from fresh accumulators, the result after unweighted batches is the plain accuracy of all of them together, 0 when there were none, and always in [0, 1] |
| TensorflowBinaryAccuracy.MatchRatioInUnitInterval | otito/metrics/tensorflow/classification/binary_classification.py:88-89 | a count over a larger count lies in [0, 1] |
| TensorflowBinaryAccuracy.ThresholdHonoured | otito/metrics/tensorflow/classification/binary_classification.py:70-86 | a binary label scores a hit exactly when it is 1 and its score is at or above the threshold, or 0 and the score is below it |
| TensorflowBinaryAccuracy.WeightedBatchesSumMatchedWeights | otito/metrics/tensorflow/classification/binary_classification.py:54-64 | after two weighted batches the result is the sum of both matched weights on top of the old count |
| TensorflowBinaryAccuracy.TwoPerfectWeightedBatchesScoreTwo | otito/metrics/tensorflow/classification/binary_classification.py:54-64 | two perfect weighted batches of weight 1 leave (2, 1) and a result of 2.0 |
| TensorflowBinaryAccuracy.BoundaryScoreDiffersFromPytorch | otito/base/tensorflow/base_tensorflow_metric.py:135-137 | a score equal to the threshold is positive for TensorFlow (`>=`) and negative for PyTorch (`>`) |
| TensorflowBinaryAccuracy.BinaryAccuracy.constructor | otito/base/tensorflow/base_tensorflow_metric.py:140-146 | name and dtype stored, `stateful` and `built` set, both accumulators 0 and the given threshold stored |
| TensorflowBinaryAccuracy.BinaryAccuracy.InitialiseStates | otito/metrics/tensorflow/classification/binary_classification.py:37-44 | both accumulators 0 and the threshold stored |
| TensorflowBinaryAccuracy.BinaryAccuracy.GetConfig | otito/base/tensorflow/base_tensorflow_metric.py:60-62 | defines `get_config` as the name and the dtype, in that order; `TensorflowBinaryAccuracy.BinaryAccuracy.ToString` states the string it prints as |
| TensorflowBinaryAccuracy.BinaryAccuracy.ToString | otito/base/tensorflow/base_tensorflow_metric.py:52-62 | the metric prints as `BinaryAccuracy(name=<name>,dtype=<dtype>)` |
| TensorflowBinaryAccuracy.BinaryAccuracy.ResetState | otito/base/tensorflow/base_tensorflow_metric.py:81-82 | every variable becomes 0 |
| TensorflowBinaryAccuracy.BinaryAccuracy.Reset | otito/metrics/tensorflow/classification/binary_classification.py:66-68 | both accumulators become 0 |
| TensorflowBinaryAccuracy.BinaryAccuracy.UpdateBinaryAccuracy | otito/metrics/tensorflow/classification/binary_classification.py:46-52 | adds the match count to `num_correct` and the length to `total`, or fails on mismatched shapes and changes nothing |
| TensorflowBinaryAccuracy.BinaryAccuracy.UpdateWeightedBinaryAccuracy | otito/metrics/tensorflow/classification/binary_classification.py:54-64 | adds the matched weight to `num_correct` and assigns `total` := 1, or fails and changes nothing |
| TensorflowBinaryAccuracy.BinaryAccuracy.Update | otito/metrics/tensorflow/classification/binary_classification.py:70-86 | the accumulators after an update are `Updated` of the old ones with the stored threshold |
| TensorflowBinaryAccuracy.BinaryAccuracy.UpdateState | otito/base/tensorflow/base_tensorflow_metric.py:84-85 | `update_state` does what `update` does |
| TensorflowBinaryAccuracy.BinaryAccuracy.Compute | otito/metrics/tensorflow/classification/binary_classification.py:88-89 | 0 when `total` is 0, `num_correct / total` otherwise |
| TensorflowBinaryAccuracy.BinaryAccuracy.Result | otito/base/tensorflow/base_tensorflow_metric.py:87-88 | `result` is `compute` |

## Left out

- The distributed gather (`_sync_dist`, `gather_all_tensors`, `jit_distributed_available`) is cross-process communication. The model takes it as a function parameter of the metric, `gatherFn`, plus a flag saying whether a distributed backend is available.
- Torch `nn.Module` plumbing is device, dtype and serialisation handling that delegates to torch: device moves, dtype casts, `state_dict`, hashing, pickling, `clone`, `compute_on_cpu` and gradient enabling.
- The constructor's warning about an unset `full_state_update` is a log message; only the warning before the first `update` is modelled, as a ghost flag.
- Keras plumbing delegates to Keras internals: the autograph wrapping in `__new__`, `add_weight` with its distribution strategy, `__deepcopy__` and `from_config`. The name Keras generates when no name is given is a parameter.
- The `dtype` property is kept only as the dtype's name.
- TensorFlow variables are 32-bit floats and the PyTorch unweighted update casts a count to int32. Both are modelled as exact reals; rounding and overflow are not modelled.
- Inputs are one-dimensional; the TensorFlow flattening before validation is assumed. Broadcasting of length-1 tensors is not modelled: mismatched lengths are an error.
- Two-dimensional TensorFlow predictions are not modelled: the TensorFlow threshold is applied to each value of a flat sequence.
- Pydantic machinery: model construction, message formatting and error wording. The model keeps only each rule's verdict and the numbers its message reports.
- `load_metric` imports a module by name at run time, which has no counterpart here.
- The constructors of the four `base_*_metric.py` files under `otito/base/numpy` and `otito/metrics/*` call `reset` after the parent initialiser. That `reset` belongs to classes that are not part of this model (`BaseMetric`, `StatelessMetricMixin`), so only the equality masks of those files are modelled.
- `get_metric`, `StatelessMetricMixin`, `otito.validation.base_validators` and the custom array types are not part of this model. `Accuracy.AccuracyScore` takes the validators as parameters, and `otito/classification/accuracy.py` is modelled through it on the assumption that `get_metric` validates exactly when its flag is set.
- The TensorFlow `update_state`/`result` wrappers that `__new__` installs are autograph plumbing. Only `UpdateState` and `Result` delegating to `Update` and `Compute` are modelled.
- MetricState.ReduceOne: without a reduction, a list global state merged with a tensor batch value is an error in the model. `_flatten` is imported from torchmetrics, which is not part of this model, and may instead iterate the tensor's rows.
- PytorchMetric.Metric.Update: the metric's own `update` is modelled as one step that computes every change from the old states, followed by applying those changes in place in the order the states were added. A Python `update` that raises after some of its `+=` statements, or that makes its changes in another order, keeps a different set of changes than the model does. The binary accuracy update raises its errors before its first `+=`, so the difference does not arise there.
- PytorchMetric.Metric.Forward: when `forward` fails, the contract does not state the sync cache or the flag recording the warning before the first `update`. It does state the states, the count, the cached result, `_forward_cache` and the sync flags.
- Utils.ValidationHandler: `_parse_input` belongs to classes that are not part of this model, so it is a parameter and the contract says only that the function receives its output.

## Findings

| source | as written | input that shows it | evidently intended | confidence | as-written member | corrected member |
|---|---|---|---|---|---|---|
| otito/base/pytorch/base_pytorch_metric.py:795 | `BinaryAccuracyBase.__init__` takes a `threshold` but calls `initialise_states()` with none, so the PyTorch binary accuracy always thresholds at 0.5 | a score row [0.4, 0.6] with threshold 0.7 and observed label 0 is counted as a positive prediction, a miss | the given threshold is stored and applied, as the TensorFlow base does | high, not executed | PytorchFindings.ThresholdIgnoredAsWritten | PytorchBinaryAccuracy.CorrectedThresholdHonoured |
| otito/base/pytorch/base_pytorch_metric.py:797-798 | `BinaryAccuracyBase.reset` is a no-op, so the reduced-state `forward` (chosen by `full_state_update = False`) updates the global states in place and then merges them with themselves | states (1, 2) and a batch with two hits in two samples: `forward` returns 3/4 and leaves (6, 8), where a direct `update` leaves (3, 4) | `reset` restores the defaults, so `forward` returns the batch's own accuracy and counts the batch once | high, not executed | PytorchFindings.ForwardDoubleCountsAsWritten | PytorchBinaryAccuracy.ForwardCountsOnceCorrected |
