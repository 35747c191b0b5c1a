/** The evaluator's collaborators, kept opaque: the distance-metric-learning
    transforms and scikit-learn's k-nearest-neighbours classifier. Only what
    the evaluator relies on is stated: which inputs each refuses, and which
    data a fitted object was fitted on. Neighbour search, voting and the
    metric-learning algorithms themselves are parameters. */
module Collaborators {
  import opened Outcomes
  import opened Metrics

  /** One entry of the evaluator's transform list, as the Python value it
      holds: `None` (the Euclidean baseline), one transform object, or a
      Python list of such values pushed as a single entry. */
  datatype DmlEntry<T> = NoDml | Dml(t: T) | DmlList(items: seq<DmlEntry<T>>)

  /** The classifier's label for one query row, given its neighbour count, its
      construction options and the data it was fitted on. */
  type Classifier<!Row, !L, !V> = (nat, map<string, V>, seq<Row>, seq<L>, Row) -> L

  /** The behaviour of the external libraries: `classify` stands for a fitted
      `KNeighborsClassifier`, `transform(t, X, y, row)` for transform object
      `t` after `t.fit(X, y)` applied to one row, and `typeName(t)` for
      `type(t).__name__`. */
  datatype Library<!Row, !L, !T, !V> = Library(
    classify: Classifier<Row, L, V>,
    transform: (T, seq<Row>, seq<L>, Row) -> Row,
    typeName: T -> string)

  /** A `KNeighborsClassifier`: its neighbour count, its keyword options and,
      once fitted, the data it was fitted on. */
  datatype Knn<Row, L, V> = Knn(k: nat, args: map<string, V>, fitted: Option<(seq<Row>, seq<L>)>)

  /** `KNeighborsClassifier(k, **args)`, not yet fitted. */
  function NewKnn<Row, L, V>(k: nat, args: map<string, V>): Knn<Row, L, V>
  {
    Knn(k, args, None)
  }

  /** The inputs `fit` refuses with a ValueError: a non-positive neighbour
      count, no samples, or sample and label counts that differ. */
  predicate RefusesTraining(k: nat, samples: nat, labels: nat)
  {
    k == 0 || samples == 0 || samples != labels
  }

  /** `knn.fit(X, y)`: the classifier remembers its training data. */
  function FitKnn<Row, L, V>(c: Knn<Row, L, V>, X: seq<Row>, y: seq<L>): (r: Result<Knn<Row, L, V>>)
    ensures r.Err? <==> RefusesTraining(c.k, |X|, |y|)
    ensures r.Err? ==> r.error == ValueError
    ensures r.Ok? ==> r.value.k == c.k && r.value.args == c.args && r.value.fitted == Some((X, y))
  {
    if RefusesTraining(c.k, |X|, |y|) then Err(ValueError) else Ok(c.(fitted := Some((X, y))))
  }

  /** `knn.predict(Q)`: one label per query row. An empty query, an unfitted
      classifier, and more neighbours than training samples are refused. */
  function PredictKnn<Row, L, V>(classify: Classifier<Row, L, V>, c: Knn<Row, L, V>, Q: seq<Row>): (r: Result<seq<L>>)
    ensures r.Ok? <==> |Q| > 0 && c.fitted.Some? && c.k <= |c.fitted.value.0|
    ensures r.Ok? ==> |r.value| == |Q|
    ensures r.Ok? ==> forall j :: 0 <= j < |Q| ==>
              r.value[j] == classify(c.k, c.args, c.fitted.value.0, c.fitted.value.1, Q[j])
  {
    if |Q| == 0 then Err(ValueError)
    else match c.fitted
      case None => Err(NotFittedError)
      case Some(train) =>
        if c.k > |train.0| then Err(ValueError)
        else Ok(seq(|Q|, j requires 0 <= j < |Q| => classify(c.k, c.args, train.0, train.1, Q[j])))
  }

  /** `knn.score(Q, y)`: the mean accuracy of `knn.predict(Q)` against `y`.
      Once prediction succeeds, missing labels and a label count that differs
      from the query size both raise a ValueError, from the label check of
      `accuracy_score`. */
  function ScoreKnn<Row, L(==), V>(classify: Classifier<Row, L, V>, c: Knn<Row, L, V>, Q: seq<Row>, y: Option<seq<L>>): (r: Result<Float>)
    ensures r.Ok? <==> PredictKnn(classify, c, Q).Ok? && y.Some? && |y.value| == |Q|
    ensures r.Ok? ==> r.value == Accuracy(PredictKnn(classify, c, Q).value, y.value)
    ensures r.Err? ==> r.error == if PredictKnn(classify, c, Q).Err? then PredictKnn(classify, c, Q).error else ValueError
  {
    match PredictKnn(classify, c, Q)
    case Err(e) => Err(e)
    case Ok(p) =>
      match y
      case None => Err(ValueError)
      case Some(labels) => if |labels| != |p| then Err(ValueError) else Ok(Accuracy(p, labels))
  }

  /** `t.transform(Q)` after `t.fit(train)`: each row is mapped on its own. */
  function TransformRows<Row, L, T>(transform: (T, seq<Row>, seq<L>, Row) -> Row, t: T,
                                    train: (seq<Row>, seq<L>), Q: seq<Row>): (r: seq<Row>)
    ensures |r| == |Q|
    ensures forall j :: 0 <= j < |Q| ==> r[j] == transform(t, train.0, train.1, Q[j])
  {
    seq(|Q|, j requires 0 <= j < |Q| => transform(t, train.0, train.1, Q[j]))
  }

  /** `type(e).__name__` for a transform entry, with `None` reported as
      "EUCLIDEAN". */
  function EntryName<Row, L, T, V>(lib: Library<Row, L, T, V>, e: DmlEntry<T>): string
  {
    match e
    case NoDml => "EUCLIDEAN"
    case Dml(t) => lib.typeName(t)
    case DmlList(_) => "list"
  }
}
