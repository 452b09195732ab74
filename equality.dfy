/** The float equality mask every backend computes before an accuracy:
    `(left == right).astype(float)` in numpy, `(left == right).float()` in
    PyTorch, `tf.cast(tf.math.equal(left, right), tf.float32)` in TensorFlow. */
module Equality {
  import opened Numerics

  /** 1.0 where the two label arrays agree, 0.0 where they differ. */
  function EqualityMask(left: seq<real>, right: seq<real>): (m: seq<real>)
    requires |left| == |right|
    ensures |m| == |left|
    ensures forall i :: 0 <= i < |m| ==> m[i] == 1.0 || m[i] == 0.0
  {
    seq(|left|, i requires 0 <= i < |left| => if left[i] == right[i] then 1.0 else 0.0)
  }

  /** Reference count of the positions where the two arrays agree. */
  function Matches(left: seq<real>, right: seq<real>): nat
    requires |left| == |right|
  {
    if |left| == 0 then 0
    else (if left[0] == right[0] then 1 else 0) + Matches(left[1..], right[1..])
  }

  /** Entry i of the mask is 1.0 exactly when the inputs agree at i, and 0.0 otherwise. */
  lemma MaskEntry(left: seq<real>, right: seq<real>, i: int)
    requires |left| == |right| && 0 <= i < |left|
    ensures EqualityMask(left, right)[i] == 1.0 <==> left[i] == right[i]
    ensures EqualityMask(left, right)[i] == 0.0 <==> left[i] != right[i]
  {
  }

  /** Swapping the two arguments leaves the mask unchanged. */
  lemma MaskSymmetric(left: seq<real>, right: seq<real>)
    requires |left| == |right|
    ensures EqualityMask(left, right) == EqualityMask(right, left)
  {
  }

  lemma {:induction false} MatchesSymmetric(left: seq<real>, right: seq<real>)
    requires |left| == |right|
    ensures Matches(left, right) == Matches(right, left)
  {
    if |left| > 0 {
      MatchesSymmetric(left[1..], right[1..]);
    }
  }

  lemma {:induction false} MatchesAtMostLength(left: seq<real>, right: seq<real>)
    requires |left| == |right|
    ensures Matches(left, right) <= |left|
  {
    if |left| > 0 {
      MatchesAtMostLength(left[1..], right[1..]);
    }
  }

  lemma MaskTail(left: seq<real>, right: seq<real>)
    requires |left| == |right| && |left| > 0
    ensures EqualityMask(left, right)[1..] == EqualityMask(left[1..], right[1..])
  {
  }

  /** The sum of the mask is the number of agreeing positions. */
  lemma {:induction false} MaskSumIsMatchCount(left: seq<real>, right: seq<real>)
    requires |left| == |right|
    ensures Sum(EqualityMask(left, right)) == Matches(left, right) as real
  {
    if |left| > 0 {
      MaskTail(left, right);
      MaskSumIsMatchCount(left[1..], right[1..]);
    }
  }

  /** Identical arrays agree everywhere. */
  lemma {:induction false} MatchesOfIdentical(labels: seq<real>)
    ensures Matches(labels, labels) == |labels|
  {
    if |labels| > 0 {
      MatchesOfIdentical(labels[1..]);
    }
  }

  /** Arrays that differ at every position agree nowhere. */
  lemma {:induction false} MatchesOfDisjoint(left: seq<real>, right: seq<real>)
    requires |left| == |right|
    requires forall i :: 0 <= i < |left| ==> left[i] != right[i]
    ensures Matches(left, right) == 0
  {
    if |left| > 0 {
      MatchesOfDisjoint(left[1..], right[1..]);
    }
  }

  /** Counting agreements over two concatenated pairs of arrays adds the counts of each pair. */
  lemma {:induction false} MatchesAppend(a: seq<real>, b: seq<real>, c: seq<real>, d: seq<real>)
    requires |a| == |c| && |b| == |d|
    ensures Matches(a + b, c + d) == Matches(a, c) + Matches(b, d)
  {
    if |a| == 0 {
      assert a + b == b && c + d == d;
    } else {
      assert (a + b)[1..] == a[1..] + b;
      assert (c + d)[1..] == c[1..] + d;
      MatchesAppend(a[1..], b, c[1..], d);
    }
  }
}
