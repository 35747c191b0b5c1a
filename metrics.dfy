/** Counting on label vectors: matches between predictions and labels, the
    accuracy that numpy's `mean(preds == y)` computes, and the label set. */
module Metrics {
  import opened Outcomes

  /** Number of positions where the prediction equals the label. */
  function Hits<L(==)>(p: seq<L>, y: seq<L>): (h: nat)
    requires |p| == |y|
    ensures h <= |y|
  {
    if |y| == 0 then 0
    else Hits(p[..|y| - 1], y[..|y| - 1]) + (if p[|y| - 1] == y[|y| - 1] then 1 else 0)
  }

  /** The positions where the prediction equals the label. */
  ghost function Matches<L>(p: seq<L>, y: seq<L>): set<nat>
    requires |p| == |y|
  {
    set i: nat | i < |y| && p[i] == y[i]
  }

  /** The match count is the number of matching positions. */
  lemma {:induction false} HitsMatches<L>(p: seq<L>, y: seq<L>)
    requires |p| == |y|
    ensures Hits(p, y) == |Matches(p, y)|
  {
    if |y| > 0 {
      var n := |y| - 1;
      HitsMatches(p[..n], y[..n]);
      var before := Matches(p[..n], y[..n]);
      assert Matches(p, y) == before + (if p[n] == y[n] then {n} else {});
      assert n !in before;
    }
  }

  /** Every prediction is right exactly when the match count is the length. */
  lemma {:induction false} HitsAll<L>(p: seq<L>, y: seq<L>)
    requires |p| == |y|
    ensures Hits(p, y) == |y| <==> p == y
  {
    if |y| > 0 {
      var n := |y| - 1;
      HitsAll(p[..n], y[..n]);
      assert p == p[..n] + [p[n]] && y == y[..n] + [y[n]];
    }
  }

  /** No prediction is right exactly when the match count is zero. */
  lemma {:induction false} HitsNone<L>(p: seq<L>, y: seq<L>)
    requires |p| == |y|
    ensures Hits(p, y) == 0 <==> forall i :: 0 <= i < |y| ==> p[i] != y[i]
  {
    if |y| > 0 {
      var n := |y| - 1;
      HitsNone(p[..n], y[..n]);
      assert (forall i :: 0 <= i < |y| ==> p[i] != y[i]) <==>
             p[n] != y[n] && forall i :: 0 <= i < n ==> p[..n][i] != y[..n][i];
    }
  }

  /** `np.mean(p == y)`: the fraction of matches, NaN on empty vectors. */
  function Accuracy<L(==)>(p: seq<L>, y: seq<L>): (a: Float)
    requires |p| == |y|
    ensures a.NaN? <==> |y| == 0
    ensures a.Num? ==> 0.0 <= a.v <= 1.0
  {
    if |y| == 0 then NaN
    else
      var h := Hits(p, y);
      assert h as real <= |y| as real;
      Num(h as real / |y| as real)
  }

  /** On a non-empty vector the accuracy is the number of matching positions
      over the length: 1 exactly when every prediction is right, and 0 exactly
      when every prediction is wrong. */
  lemma AccuracyExtremes<L>(p: seq<L>, y: seq<L>)
    requires |p| == |y| && |y| > 0
    ensures Accuracy(p, y) == Num(|Matches(p, y)| as real / |y| as real)
    ensures Accuracy(p, y) == Num(1.0) <==> p == y
    ensures Accuracy(p, y) == Num(0.0) <==> forall i :: 0 <= i < |y| ==> p[i] != y[i]
  {
    HitsMatches(p, y);
    HitsAll(p, y);
    HitsNone(p, y);
    var h, n := Hits(p, y) as real, |y| as real;
    assert h / n == 1.0 <==> h == n;
    assert h / n == 0.0 <==> h == 0.0;
  }

  /** The distinct values of a label vector, `set(y)`. */
  function Labels<L(==)>(y: seq<L>): set<L>
  {
    set l | l in y
  }

  /** The number of classes never exceeds the number of samples, and is zero
      only for an empty label vector. */
  lemma {:induction false} LabelsCount<L>(y: seq<L>)
    ensures |Labels(y)| <= |y|
    ensures |Labels(y)| == 0 <==> |y| == 0
  {
    if |y| > 0 {
      LabelsCount(y[1..]);
      assert Labels(y) == Labels(y[1..]) + {y[0]};
      assert y[0] in Labels(y);
    }
  }
}
