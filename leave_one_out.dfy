/** Leave-one-out cross-validation as scikit-learn's `LeaveOneOut` splits it
    and as the evaluator indexes its stored arrays with the splits. */
module LeaveOneOut {
  import opened Outcomes
  import opened Collaborators

  /** The training indices of fold `i` of `n` samples: every index below `n`
      except `i`, in increasing order. */
  function TrainIndices(n: nat, i: nat): (idx: seq<nat>)
    requires i < n
    ensures |idx| == n - 1
    ensures forall j :: 0 <= j < |idx| ==> idx[j] < n && idx[j] != i
    ensures forall a, b :: 0 <= a < b < |idx| ==> idx[a] < idx[b]
  {
    seq(n - 1, j requires 0 <= j < n - 1 => if j < i then j else j + 1)
  }

  /** Every index of the fold other than the held-out one is trained on. */
  lemma TrainIndicesCover(n: nat, i: nat, m: nat)
    requires i < n && m < n && m != i
    ensures m in TrainIndices(n, i)
  {
    var idx := TrainIndices(n, i);
    if m < i { assert idx[m] == m; } else { assert idx[m - 1] == m; }
  }

  /** numpy's fancy indexing `s[idx]`: the selected elements in the order of
      `idx`, or an IndexError when one of the indices is past the end. */
  function Take<X>(s: seq<X>, idx: seq<nat>): (r: Result<seq<X>>)
    ensures r.Ok? <==> forall j :: 0 <= j < |idx| ==> idx[j] < |s|
    ensures r.Err? ==> r.error == IndexError
    ensures r.Ok? ==> |r.value| == |idx| && forall j :: 0 <= j < |idx| ==> r.value[j] == s[idx[j]]
  {
    if forall j :: 0 <= j < |idx| ==> idx[j] < |s| then
      Ok(seq(|idx|, j requires 0 <= j < |idx| => s[idx[j]]))
    else
      Err(IndexError)
  }

  /** The sequence with its `i`-th element removed. */
  function AllBut<X>(s: seq<X>, i: nat): seq<X>
    requires i < |s|
  {
    s[..i] + s[i + 1..]
  }

  /** Indexing the first `n` elements with the training indices of fold `i`
      removes exactly element `i`. */
  lemma TakeTrainIndices<X>(s: seq<X>, n: nat, i: nat)
    requires i < n <= |s|
    ensures Take(s, TrainIndices(n, i)) == Ok(AllBut(s[..n], i))
  {
    var idx := TrainIndices(n, i);
    var r := Take(s, idx);
    var w := AllBut(s[..n], i);
    assert |w| == |idx|;
    forall j | 0 <= j < |idx| ensures r.value[j] == w[j] {
      if j < i { assert w[j] == s[..n][j]; } else { assert w[j] == s[..n][j + 1]; }
    }
    assert r.value == w;
  }

  /** The label predicted for sample `i` by its fold: a fresh classifier with
      `k` neighbours and default options, fitted on every sample but `i`,
      queried at sample `i`. Labels beyond the `|X|` samples take no part. */
  function LooLabel<Row, L, V>(classify: Classifier<Row, L, V>, k: nat, X: seq<Row>, y: seq<L>, i: nat): L
    requires i < |X| <= |y|
  {
    classify(k, map[], AllBut(X, i), AllBut(y[..|X|], i), X[i])
  }

  /** `p` is what the leave-one-out loop leaves in its `np.empty` array of
      `|y|` labels: entry `i` is fold `i`'s prediction for every sample `i`;
      entries past the last sample were never written and are unconstrained. */
  ghost predicate IsLooPrediction<Row, L, V>(classify: Classifier<Row, L, V>, k: nat, X: seq<Row>, y: seq<L>, p: seq<L>)
  {
    |X| <= |y| && |p| == |y| &&
    forall i :: 0 <= i < |X| ==> p[i] == LooLabel(classify, k, X, y, i)
  }

  /** The leave-one-out predictions for as many samples as labels. */
  function LooPredictions<Row, L, V>(classify: Classifier<Row, L, V>, k: nat, X: seq<Row>, y: seq<L>): (p: seq<L>)
    requires |X| == |y|
  {
    seq(|X|, i requires 0 <= i < |X| => LooLabel(classify, k, X, y, i))
  }

  /** With as many samples as labels, the loop leaves no entry unwritten: its
      result is determined, and it is LooPredictions. */
  lemma LooPredictionDetermined<Row, L, V>(classify: Classifier<Row, L, V>, k: nat, X: seq<Row>, y: seq<L>, p: seq<L>)
    requires |X| == |y|
    ensures IsLooPrediction(classify, k, X, y, p) <==> p == LooPredictions(classify, k, X, y)
  {
  }

  /** The exception the leave-one-out loop raises over `n` samples, `labels`
      stored labels and `k` neighbours, or None. A single sample leaves its
      fold nothing to train on; more samples than labels make the first fold's
      label indexing fail; and a fold classifier refuses `k == 0` and more
      neighbours than its `n - 1` training samples. */
  function LooFailure(n: nat, labels: nat, k: nat): (e: Option<Error>)
    ensures e.None? <==> n == 0 || 1 <= k < n <= labels
  {
    if n == 0 then None
    else if n == 1 then Some(ValueError)
    else if n > labels then Some(IndexError)
    else if k == 0 || k >= n then Some(ValueError)
    else None
  }

  /** The first error in slot order, if any slot failed. */
  function FirstError(errs: seq<Option<Error>>): (r: Option<Error>)
    ensures r.None? <==> forall j :: 0 <= j < |errs| ==> errs[j].None?
    ensures r.Some? ==> exists j :: 0 <= j < |errs| && errs[j] == r && forall m :: 0 <= m < j ==> errs[m].None?
  {
    if |errs| == 0 then None
    else if errs[0].Some? then errs[0]
    else
      var rest := FirstError(errs[1..]);
      assert forall j :: 1 <= j < |errs| ==> errs[j] == errs[1..][j - 1];
      rest
  }

  /** The first exception is the one at the first slot that raised. */
  lemma FirstErrorAt(errs: seq<Option<Error>>, i: nat)
    requires i < |errs| && errs[i].Some?
    requires forall j :: 0 <= j < i ==> errs[j].None?
    ensures FirstError(errs) == errs[i]
  {
  }
}
