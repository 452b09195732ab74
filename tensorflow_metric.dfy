/** The value-level part of `TensorflowBaseMetric`: thresholding every
    prediction against a cut-off, and the config a Keras metric serialises
    and prints itself from. Its `_tensor_equality` is `Equality.EqualityMask`. */
module TensorflowMetric {

  /** `apply_threshold`: every value becomes 1.0 when it is at or above the
      threshold and 0.0 when it is below. */
  function ApplyThreshold(predicted: seq<real>, threshold: real): (r: seq<real>)
    ensures |r| == |predicted|
    ensures forall i :: 0 <= i < |r| ==> (r[i] == 1.0 <==> predicted[i] >= threshold)
    ensures forall i :: 0 <= i < |r| ==> (r[i] == 0.0 <==> predicted[i] < threshold)
  {
    seq(|predicted|, i requires 0 <= i < |predicted| => if predicted[i] >= threshold then 1.0 else 0.0)
  }

  /** Labels that are already 0 or 1 pass through a threshold in (0, 1]
      unchanged, so thresholding twice is thresholding once. */
  lemma ThresholdKeepsLabels(labels: seq<real>, threshold: real)
    requires 0.0 < threshold <= 1.0
    requires forall i :: 0 <= i < |labels| ==> labels[i] == 0.0 || labels[i] == 1.0
    ensures ApplyThreshold(labels, threshold) == labels
  {
    var r := ApplyThreshold(labels, threshold);
    assert forall i :: 0 <= i < |labels| ==> r[i] == labels[i];
  }

  lemma ThresholdIdempotent(predicted: seq<real>, threshold: real)
    requires 0.0 < threshold <= 1.0
    ensures ApplyThreshold(ApplyThreshold(predicted, threshold), threshold) == ApplyThreshold(predicted, threshold)
  {
    ThresholdKeepsLabels(ApplyThreshold(predicted, threshold), threshold);
  }

  /** Raising the threshold never turns a 0 into a 1. */
  lemma ThresholdMonotone(predicted: seq<real>, low: real, high: real, i: int)
    requires low <= high && 0 <= i < |predicted|
    ensures ApplyThreshold(predicted, high)[i] <= ApplyThreshold(predicted, low)[i]
  {
  }

  /** A serialised config: its keys and values, in insertion order. */
  type Config = seq<(string, string)>

  /** `",".join(parts)`. */
  function Join(sep: string, parts: seq<string>): string
  {
    if |parts| == 0 then ""
    else if |parts| == 1 then parts[0]
    else parts[0] + sep + Join(sep, parts[1..])
  }

  /** The `k=v` rendering of each config entry. */
  function Assignments(config: Config): (r: seq<string>)
    ensures |r| == |config|
    ensures forall i :: 0 <= i < |config| ==> r[i] == config[i].0 + "=" + config[i].1
  {
    seq(|config|, i requires 0 <= i < |config| => config[i].0 + "=" + config[i].1)
  }

  /** `__str__`: the class name followed by the comma-joined `k=v`
      entries of the config, in parentheses. */
  function Render(className: string, config: Config): (s: string)
    ensures |s| >= |className| + 2
    ensures s[..|className|] == className && s[|className|] == '(' && s[|s| - 1] == ')'
  {
    className + "(" + Join(",", Assignments(config)) + ")"
  }

  /** A config of a name and a dtype prints as `C(name=<name>,dtype=<dtype>)`. */
  lemma RenderNameAndDtype(className: string, name: string, dtype: string)
    ensures Render(className, [("name", name), ("dtype", dtype)])
         == className + "(name=" + name + ",dtype=" + dtype + ")"
  {
    var parts := Assignments([("name", name), ("dtype", dtype)]);
    assert parts[0] == "name=" + name && parts[1] == "dtype=" + dtype;
    assert parts == ["name=" + name, "dtype=" + dtype];
    assert Join(",", parts[1..]) == "dtype=" + dtype;
  }
}
