/** The multi-transform kNN evaluator: an ordered list of transform entries,
    slot 0 being the Euclidean baseline, with one k-nearest-neighbours
    classifier per slot. It fits every slot on one training set and then
    predicts or scores either on new data or, without query data, by
    leave-one-out over the stored training set. */
module MultiDml {
  import opened Outcomes
  import opened Metrics
  import opened Collaborators
  import opened LeaveOneOut

  /** Index of the first entry that is a Python list, or the length when there
      is none: `fit` stops at that entry. */
  function FirstList<T>(s: seq<DmlEntry<T>>): (g: nat)
    ensures g <= |s|
    ensures forall j :: 0 <= j < g ==> !s[j].DmlList?
    ensures g < |s| ==> s[g].DmlList?
  {
    if |s| == 0 || s[0].DmlList? then 0
    else
      var g := 1 + FirstList(s[1..]);
      assert forall j :: 1 <= j < g ==> s[j] == s[1..][j - 1];
      g
  }

  /** Number of entries that are empty Python lists: each was pushed by `add`
      without pushing a classifier. */
  function EmptyLists<T>(s: seq<DmlEntry<T>>): nat
  {
    if |s| == 0 then 0
    else EmptyLists(s[..|s| - 1]) + (if s[|s| - 1].DmlList? && |s[|s| - 1].items| == 0 then 1 else 0)
  }

  /** Empty lists can only sit after a prefix that holds no list at all. */
  lemma {:induction false} EmptyListsBound<T>(s: seq<DmlEntry<T>>, p: nat)
    requires p <= |s|
    requires forall j :: 0 <= j < p ==> !s[j].DmlList?
    ensures EmptyLists(s) <= |s| - p
  {
    if |s| > 0 {
      var q := if p == |s| then p - 1 else p;
      EmptyListsBound(s[..|s| - 1], q);
    }
  }

  /** A list entry anywhere stops `fit` there or earlier: the entries `add`
      pushes for a list argument can never be fitted. */
  lemma ListEntryBlocksFit<T>(s: seq<DmlEntry<T>>, i: nat)
    requires i < |s| && s[i].DmlList?
    ensures FirstList(s) <= i < |s|
  {
  }

  /** Appending entries never lowers the count of empty lists. */
  lemma {:induction false} EmptyListsAppend<T>(a: seq<DmlEntry<T>>, b: seq<DmlEntry<T>>)
    ensures EmptyLists(a + b) >= EmptyLists(a)
  {
    if |b| > 0 {
      EmptyListsAppend(a, b[..|b| - 1]);
      assert (a + b)[..|a + b| - 1] == a + b[..|b| - 1];
    } else {
      assert a + b == a;
    }
  }

  /** The transform objects that appear directly in a list of entries. */
  function DmlObjects<T>(s: seq<DmlEntry<T>>): set<T>
  {
    set j | 0 <= j < |s| && s[j].Dml? :: s[j].t
  }

  /** The transform objects of a prefix grow by the next entry's object. */
  lemma DmlObjectsGrow<T>(s: seq<DmlEntry<T>>, i: nat)
    requires i < |s|
    ensures DmlObjects(s[..i + 1]) == DmlObjects(s[..i]) + (if s[i].Dml? then {s[i].t} else {})
  {
  }

  /** The fitted-state map after the transform objects of `s` were fitted, in
      order, on data `d`. */
  function MarkFitted<T, D>(m: map<T, D>, s: seq<DmlEntry<T>>, d: D): (r: map<T, D>)
  {
    if |s| == 0 then m
    else
      var prior := MarkFitted(m, s[..|s| - 1], d);
      if s[|s| - 1].Dml? then prior[s[|s| - 1].t := d] else prior
  }

  /** Fitting in order marks exactly the objects of `s` as fitted on `d` and
      leaves every other object's state as it was. */
  lemma {:induction false} MarkFittedMeaning<T, D>(m: map<T, D>, s: seq<DmlEntry<T>>, d: D)
    ensures MarkFitted(m, s, d).Keys == m.Keys + DmlObjects(s)
    ensures forall t :: t in DmlObjects(s) ==> MarkFitted(m, s, d)[t] == d
    ensures forall t :: t in m && t !in DmlObjects(s) ==> MarkFitted(m, s, d)[t] == m[t]
  {
    if |s| > 0 {
      MarkFittedMeaning(m, s[..|s| - 1], d);
      DmlObjectsGrow(s, |s| - 1);
      assert s[..|s|] == s;
    }
  }

  class MultiDmlKnn<Row, L(==, 0, !new), T(==), V> {
    const lib: Library<Row, L, T, V>
    const nn: nat                      // `nn_`
    const knnArgs: map<string, V>      // `knn_args_`
    const verbose: bool                // `verbose_`: only gates a progress message
    var dmls: seq<DmlEntry<T>>         // `dmls_`
    var knns: seq<Knn<Row, L, V>>      // `knns_`
    var fitCalled: bool                // whether `fit` has created the attributes below
    var xTrain: seq<Row>               // `X_`
    var yTrain: seq<L>                 // `y_`
    var numLabels: nat                 // `num_labels_`
    var elapsedTimes: seq<real>        // `elapsed_`
    // What each transform object was last fitted on by this evaluator.
    var dmlState: map<T, (seq<Row>, seq<L>)>

    /** Slot 0 is the baseline; every classifier shares the neighbour count and
        options; and every slot before the first list entry has a classifier,
        because only an empty list pushes an entry without one. */
    ghost predicate Valid()
      reads this
    {
      && |dmls| >= 1 && dmls[0].NoDml?
      && |knns| + EmptyLists(dmls) >= |dmls|
      && forall c :: c in knns ==> c.k == nn && c.args == knnArgs
    }

    /** Every slot up to and including `i` has a classifier when none of them
        holds a list. */
    lemma SlotHasClassifier(i: nat)
      requires Valid() && i < |dmls|
      requires forall j :: 0 <= j <= i ==> !dmls[j].DmlList?
      ensures i < |knns|
    {
      EmptyListsBound(dmls, i + 1);
    }

    /** `MultiDML_kNN(n_neighbors, dmls, verbose, **knn_args)`. */
    constructor (lib: Library<Row, L, T, V>, nNeighbors: nat, dmlsArg: DmlEntry<T>, verbose: bool, knnArgs: map<string, V>)
      ensures Valid()
      ensures this.lib == lib && nn == nNeighbors && this.knnArgs == knnArgs && this.verbose == verbose
      ensures dmlsArg.NoDml? ==> dmls == [NoDml]
      ensures dmlsArg.DmlList? ==> dmls == [NoDml] + dmlsArg.items
      ensures dmlsArg.Dml? ==> dmls == [NoDml, dmlsArg]
      ensures |knns| == |dmls| && forall c :: c in knns ==> c == NewKnn(nNeighbors, knnArgs)
      ensures !fitCalled && dmlState == map[]
    {
      this.lib := lib;
      nn := nNeighbors;
      this.knnArgs := knnArgs;
      this.verbose := verbose;
      knns := [NewKnn(nNeighbors, knnArgs)];
      dmls := [NoDml];
      fitCalled, xTrain, yTrain, numLabels, elapsedTimes, dmlState := false, [], [], 0, [], map[];
      new;
      if !dmlsArg.NoDml? {
        if dmlsArg.DmlList? {
          for j := 0 to |dmlsArg.items|
            invariant |knns| == 1 + j && dmls == [NoDml]
            invariant !fitCalled && dmlState == map[]
            invariant forall c :: c in knns ==> c == NewKnn(nNeighbors, knnArgs)
          {
            knns := knns + [NewKnn(nn, knnArgs)];
          }
          dmls := dmls + dmlsArg.items;
        } else {
          dmls := [NoDml, dmlsArg];
          knns := knns + [NewKnn(nn, knnArgs)];
        }
      }
    }

    /** `add(dmls)`: the argument becomes one new entry whatever it is, but a
        list argument pushes one classifier per element, so the two lists
        drift apart by the list's length minus one. */
    method Add(arg: DmlEntry<T>)
      requires Valid()
      modifies this`dmls, this`knns
      ensures Valid()
      ensures dmls == old(dmls) + [arg]
      ensures knns == old(knns) + seq(if arg.DmlList? then |arg.items| else 1, _ => NewKnn(nn, knnArgs))
      ensures |knns| - |dmls| == old(|knns| - |dmls|) + (if arg.DmlList? then |arg.items| - 1 else 0)
    {
      if arg.DmlList? {
        for j := 0 to |arg.items|
          invariant dmls == old(dmls)
          invariant knns == old(knns) + seq(j, _ => NewKnn(nn, knnArgs))
        {
          knns := knns + [NewKnn(nn, knnArgs)];
        }
        dmls := dmls + [arg];
      } else {
        dmls := dmls + [arg];
        knns := knns + [NewKnn(nn, knnArgs)];
      }
      assert dmls[..|dmls| - 1] == old(dmls);
    }

    /** `add(dmls)` as the constructor treats a list: its elements become
        entries of their own, one classifier each, so the two lists stay
        aligned. */
    method AddFlattened(arg: DmlEntry<T>)
      requires Valid()
      modifies this`dmls, this`knns
      ensures Valid()
      ensures dmls == old(dmls) + (if arg.DmlList? then arg.items else [arg])
      ensures knns == old(knns) + seq(if arg.DmlList? then |arg.items| else 1, _ => NewKnn(nn, knnArgs))
      ensures |knns| - |dmls| == old(|knns| - |dmls|)
    {
      var added := if arg.DmlList? then arg.items else [arg];
      for j := 0 to |added|
        invariant dmls == old(dmls)
        invariant knns == old(knns) + seq(j, _ => NewKnn(nn, knnArgs))
      {
        knns := knns + [NewKnn(nn, knnArgs)];
      }
      EmptyListsAppend(dmls, added);
      dmls := dmls + added;
    }

    /** The rows slot entry `e` trains its classifier on during `fit(X, y)`. */
    function TrainingRows(e: DmlEntry<T>, X: seq<Row>, y: seq<L>): seq<Row>
    {
      if e.Dml? then TransformRows(lib.transform, e.t, (X, y), X) else X
    }

    /** One pass of `fit`'s loop, at slot `i`: a transform object is fitted and
        its fit time recorded, the baseline records 0.0 and keeps the rows, a
        list entry raises; then the slot classifier is fitted on the rows. */
    method FitSlot(i: nat, X: seq<Row>, y: seq<L>, duration: nat -> real) returns (err: Option<Error>)
      requires Valid() && i < |dmls|
      requires forall j :: 0 <= j < i ==> !dmls[j].DmlList?
      requires i > 0 ==> !RefusesTraining(nn, |X|, |y|)
      modifies this`elapsedTimes, this`knns, this`dmlState
      ensures Valid()
      ensures err == if dmls[i].DmlList? then Some(AttributeError)
                     else if RefusesTraining(nn, |X|, |y|) then Some(ValueError)
                     else None
      ensures elapsedTimes == if dmls[i].DmlList? then old(elapsedTimes)
                              else old(elapsedTimes) + [if dmls[i].NoDml? then 0.0 else duration(i)]
      ensures |knns| == |old(knns)|
      ensures err.None? ==> i < |knns| && knns == old(knns)[i := old(knns[i]).(fitted := Some((TrainingRows(dmls[i], X, y), y)))]
      ensures err.Some? ==> knns == old(knns)
      ensures dmlState == if dmls[i].Dml? then old(dmlState)[dmls[i].t := (X, y)] else old(dmlState)
    {
      var transf := X;
      match dmls[i] {
        case NoDml =>
          elapsedTimes := elapsedTimes + [0.0];
        case DmlList(_) =>
          return Some(AttributeError);
        case Dml(t) =>
          dmlState := dmlState[t := (X, y)];
          transf := TransformRows(lib.transform, t, (X, y), X);
          elapsedTimes := elapsedTimes + [duration(i)];
      }
      SlotHasClassifier(i);
      var fitted := FitKnn(knns[i], transf, y);
      if fitted.Err? {
        return Some(fitted.error);
      }
      knns := knns[i := fitted.value];
      return None;
    }

    /** `times` is what `fit` has recorded after its first `n` slots: 0.0 for
        the baseline, the measured duration for a transform. */
    ghost predicate ElapsedUpTo(times: seq<real>, entries: seq<DmlEntry<T>>, n: nat, duration: nat -> real)
    {
      |times| == n <= |entries| &&
      forall j :: 0 <= j < n ==> times[j] == if entries[j].NoDml? then 0.0 else duration(j)
    }

    /** The first `n` classifiers of `before` have been fitted on their slot's
        training rows, and the rest are untouched. */
    ghost predicate KnnsRefitted(now: seq<Knn<Row, L, V>>, before: seq<Knn<Row, L, V>>, entries: seq<DmlEntry<T>>,
                                 n: nat, X: seq<Row>, y: seq<L>)
    {
      |now| == |before| && n <= |entries| &&
      forall j :: 0 <= j < |now| ==>
        now[j] == if j < n then before[j].(fitted := Some((TrainingRows(entries[j], X, y), y))) else before[j]
    }

    /** Recording slot `n`'s time extends the record by one slot. */
    lemma ElapsedStep(times: seq<real>, entries: seq<DmlEntry<T>>, n: nat, duration: nat -> real)
      requires ElapsedUpTo(times, entries, n, duration) && n < |entries|
      ensures ElapsedUpTo(times + [if entries[n].NoDml? then 0.0 else duration(n)], entries, n + 1, duration)
    {
    }

    /** Before any slot is fitted, every classifier is untouched. */
    lemma KnnsStart(now: seq<Knn<Row, L, V>>, entries: seq<DmlEntry<T>>, X: seq<Row>, y: seq<L>)
      ensures KnnsRefitted(now, now, entries, 0, X, y)
    {
    }

    /** Fitting classifier `n` extends the refitted prefix by one slot. */
    lemma KnnsStep(now: seq<Knn<Row, L, V>>, before: seq<Knn<Row, L, V>>, entries: seq<DmlEntry<T>>,
                   n: nat, X: seq<Row>, y: seq<L>)
      requires KnnsRefitted(now, before, entries, n, X, y) && n < |entries| && n < |now|
      ensures KnnsRefitted(now[n := before[n].(fitted := Some((TrainingRows(entries[n], X, y), y)))], before, entries, n + 1, X, y)
    {
    }

    /** The loop of `fit(X, y)`: slots are fitted in order until one of them
        raises, which ends the loop with that error. */
    method FitSlots(X: seq<Row>, y: seq<L>, duration: nat -> real) returns (err: Option<Error>)
      requires Valid() && elapsedTimes == []
      modifies this`elapsedTimes, this`knns, this`dmlState
      ensures Valid() && |knns| == |old(knns)|
      ensures err == if RefusesTraining(nn, |X|, |y|) then Some(ValueError)
                     else if FirstList(dmls) < |dmls| then Some(AttributeError)
                     else None
      ensures ElapsedUpTo(elapsedTimes, dmls, if RefusesTraining(nn, |X|, |y|) then 1 else FirstList(dmls), duration)
      ensures KnnsRefitted(knns, old(knns), dmls, Refitted(X, y), X, y)
      ensures dmlState == MarkFitted(old(dmlState), dmls[..Refitted(X, y)], (X, y))
    {
      KnnsStart(knns, dmls, X, y);
      var i := 0;
      while i < |dmls|
        invariant 0 <= i <= |dmls| && Valid()
        invariant forall j :: 0 <= j < i ==> !dmls[j].DmlList?
        invariant i > 0 ==> !RefusesTraining(nn, |X|, |y|)
        invariant ElapsedUpTo(elapsedTimes, dmls, i, duration)
        invariant KnnsRefitted(knns, old(knns), dmls, i, X, y)
        invariant dmlState == MarkFitted(old(dmlState), dmls[..i], (X, y))
      {
        ghost var times, classifiers := elapsedTimes, knns;
        err := FitSlot(i, X, y, duration);
        if err.Some? {
          assert i == 0 || dmls[i].DmlList?;
          return;
        }
        ElapsedStep(times, dmls, i, duration);
        KnnsStep(classifiers, old(knns), dmls, i, X, y);
        assert dmls[..i + 1][..i] == dmls[..i];
        i := i + 1;
      }
      return None;
    }

    /** `fit(X, y)`. The classifier refuses the data at slot 0 or at no slot,
        since every transform keeps the row count; otherwise the slots are
        fitted in order up to the first list entry, whose missing `fit`
        attribute aborts the loop. On success the result is the evaluator
        itself. */
    method Fit(X: seq<Row>, y: seq<L>, duration: nat -> real) returns (r: Result<MultiDmlKnn<Row, L, T, V>>)
      requires Valid()
      modifies this
      ensures Valid()
      ensures dmls == old(dmls) && |knns| == |old(knns)|
      ensures fitCalled && xTrain == X && yTrain == y && numLabels == |Labels(y)|
      ensures r == if RefusesTraining(nn, |X|, |y|) then Err(ValueError)
                   else if FirstList(dmls) < |dmls| then Err(AttributeError)
                   else Ok(this)
      ensures ElapsedUpTo(elapsedTimes, dmls, if RefusesTraining(nn, |X|, |y|) then 1 else FirstList(dmls), duration)
      ensures KnnsRefitted(knns, old(knns), dmls, Refitted(X, y), X, y)
      ensures dmlState == MarkFitted(old(dmlState), dmls[..Refitted(X, y)], (X, y))
      ensures r.Ok? ==> |elapsedTimes| == |dmls| && elapsedTimes[0] == 0.0
      ensures r.Ok? ==> |dmls| <= |knns|
      ensures r.Ok? ==> forall i :: 0 <= i < |dmls| ==> knns[i].fitted == Some((TrainingRows(dmls[i], X, y), y))
    {
      xTrain, yTrain, numLabels, elapsedTimes, fitCalled := X, y, |Labels(y)|, [], true;
      ghost var before := knns;
      var err := FitSlots(X, y, duration);
      if err.Some? {
        return Err(err.value);
      }
      FittedShape(X, y, duration, before);
      return Ok(this);
    }

    /** A `fit` that got through every slot recorded one time per slot, 0.0 at
        the baseline, and refitted every slot's classifier. */
    lemma FittedShape(X: seq<Row>, y: seq<L>, duration: nat -> real, before: seq<Knn<Row, L, V>>)
      requires Valid() && FirstList(dmls) == |dmls|
      requires ElapsedUpTo(elapsedTimes, dmls, |dmls|, duration)
      requires KnnsRefitted(knns, before, dmls, |dmls|, X, y)
      ensures |elapsedTimes| == |dmls| && elapsedTimes[0] == 0.0
      ensures |dmls| <= |knns|
      ensures forall i :: 0 <= i < |dmls| ==> knns[i].fitted == Some((TrainingRows(dmls[i], X, y), y))
    {
      SlotHasClassifier(|dmls| - 1);
    }

    /** Number of slots whose classifier `fit(X, y)` refits. */
    ghost function Refitted(X: seq<Row>, y: seq<L>): nat
      reads this
    {
      if RefusesTraining(nn, |X|, |y|) then 0 else FirstList(dmls)
    }

    /** `elapsed()`: the per-slot times the last `fit` recorded; before any
        `fit` the attribute does not exist. */
    function Elapsed(): (r: Result<seq<real>>)
      reads this
      ensures r.Ok? <==> fitCalled
      ensures r.Ok? ==> r.value == elapsedTimes
    {
      if fitCalled then Ok(elapsedTimes) else Err(AttributeError)
    }

    /** `dml.transform(Q)` for one entry, or `Q` itself for the baseline. A list
        has no `transform`, nor does a transform this evaluator never fitted. */
    function Transformed(e: DmlEntry<T>, Q: seq<Row>): (r: Result<seq<Row>>)
      reads this
      ensures r.Ok? ==> |r.value| == |Q|
    {
      match e
      case NoDml => Ok(Q)
      case DmlList(_) => Err(AttributeError)
      case Dml(t) =>
        if t in dmlState then Ok(TransformRows(lib.transform, t, dmlState[t], Q)) else Err(AttributeError)
    }

    /** The exception `_loo_pred(Xt)` raises, or None. */
    ghost function LooError(Xt: seq<Row>): Option<Error>
      reads this
    {
      if !fitCalled then Some(AttributeError) else LooFailure(|Xt|, |yTrain|, nn)
    }

    /** `_loo_pred(Xt)`: fold `i` trains a fresh classifier built from the
        neighbour count alone, ignoring the evaluator's options, on every row
        but `i`, and writes its prediction for row `i` into the result. */
    method LooPred(Xt: seq<Row>) returns (r: Result<seq<L>>)
      ensures r.Err? <==> LooError(Xt).Some?
      ensures r.Err? ==> r.error == LooError(Xt).value
      ensures r.Ok? ==> IsLooPrediction(lib.classify, nn, Xt, yTrain, r.value)
    {
      if !fitCalled {
        return Err(AttributeError);
      }
      var n := |Xt|;
      var preds := new L[|yTrain|];
      for i := 0 to n
        invariant i > 0 ==> 2 <= n <= |yTrain| && 1 <= nn < n
        invariant forall j :: 0 <= j < i ==> preds[j] == LooLabel(lib.classify, nn, Xt, yTrain, j)
      {
        var idx := TrainIndices(n, i);
        if i == 0 && n >= 2 {
          assert idx[n - 2] == n - 1;
        }
        var xTr := Take(Xt, idx);
        var yTr := Take(yTrain, idx);
        if yTr.Err? {
          return Err(yTr.error);
        }
        var fold := FitKnn(NewKnn(nn, map[]), xTr.value, yTr.value);
        if fold.Err? {
          return Err(fold.error);
        }
        var p := PredictKnn(lib.classify, fold.value, [Xt[i]]);
        if p.Err? {
          return Err(p.error);
        }
        TakeTrainIndices(Xt, n, i);
        TakeTrainIndices(yTrain, n, i);
        assert Xt[..n] == Xt;
        preds[i] := p.value[0];
      }
      return Ok(preds[..]);
    }

    /** The leave-one-out score `s` comes from predictions the loop can leave. */
    ghost predicate IsLooScore(Xt: seq<Row>, s: Float)
      reads this
    {
      exists p :: IsLooPrediction(lib.classify, nn, Xt, yTrain, p) && s == Accuracy(p, yTrain)
    }

    /** A leave-one-out score lies in [0, 1], is NaN only without labels, and
        with as many rows as labels is the accuracy of LooPredictions. */
    lemma LooScoreMeaning(Xt: seq<Row>, s: Float)
      requires IsLooScore(Xt, s)
      ensures s.NaN? <==> |yTrain| == 0
      ensures s.Num? ==> 0.0 <= s.v <= 1.0
      ensures |Xt| == |yTrain| ==> s == Accuracy(LooPredictions(lib.classify, nn, Xt, yTrain), yTrain)
    {
      var p :| IsLooPrediction(lib.classify, nn, Xt, yTrain, p) && s == Accuracy(p, yTrain);
      if |Xt| == |yTrain| {
        LooPredictionDetermined(lib.classify, nn, Xt, yTrain, p);
      }
    }

    /** `_loo_score(Xt)`: the mean of `_loo_pred(Xt) == y_`. */
    method LooScore(Xt: seq<Row>) returns (r: Result<Float>)
      ensures r.Err? <==> LooError(Xt).Some?
      ensures r.Err? ==> r.error == LooError(Xt).value
      ensures r.Ok? ==> IsLooScore(Xt, r.value)
    {
      var preds := LooPred(Xt);
      if preds.Err? {
        return Err(preds.error);
      }
      r := Ok(Accuracy(preds.value, yTrain));
      assert IsLooPrediction(lib.classify, nn, Xt, yTrain, preds.value);
    }

    /** The exception `_predict(e, knn)` and `_score(e, knn)` raise without
        query data, or None: reading `X_` before any fit, transforming it
        through the slot's entry, or the leave-one-out loop. */
    ghost function LooSlotError(e: DmlEntry<T>): Option<Error>
      reads this
    {
      if !fitCalled then Some(AttributeError)
      else match Transformed(e, xTrain)
        case Err(x) => Some(x)
        case Ok(Xt) => LooError(Xt)
    }

    /** The exception `_predict(e, knn, X)` raises, or None. */
    ghost function PredictError(e: DmlEntry<T>, knn: Knn<Row, L, V>, X: Option<seq<Row>>): Option<Error>
      reads this
    {
      match X
      case None => LooSlotError(e)
      case Some(Q) =>
        match Transformed(e, Q)
        case Err(x) => Some(x)
        case Ok(Qt) => (match PredictKnn(lib.classify, knn, Qt) case Err(x) => Some(x) case Ok(_) => None)
    }

    /** `p` is a result `_predict(e, knn, X)` can return: leave-one-out over the
        transformed stored rows without query data, else the slot classifier's
        prediction on the transformed query. */
    ghost predicate IsPrediction(e: DmlEntry<T>, knn: Knn<Row, L, V>, X: Option<seq<Row>>, p: seq<L>)
      reads this
    {
      && PredictError(e, knn, X).None?
      && match X
         case None => IsLooPrediction(lib.classify, nn, Transformed(e, xTrain).value, yTrain, p)
         case Some(Q) => p == PredictKnn(lib.classify, knn, Transformed(e, Q).value).value
    }

    /** `_predict(dml, knn, X)`. */
    method PredictSlot(e: DmlEntry<T>, knn: Knn<Row, L, V>, X: Option<seq<Row>>) returns (r: Result<seq<L>>)
      ensures r.Err? <==> PredictError(e, knn, X).Some?
      ensures r.Err? ==> r.error == PredictError(e, knn, X).value
      ensures r.Ok? ==> IsPrediction(e, knn, X, r.value)
    {
      if X.None? {
        if !fitCalled {
          return Err(AttributeError);
        }
        var trans := Transformed(e, xTrain);
        if trans.Err? {
          return Err(trans.error);
        }
        r := LooPred(trans.value);
      } else {
        var trans := Transformed(e, X.value);
        if trans.Err? {
          return Err(trans.error);
        }
        r := PredictKnn(lib.classify, knn, trans.value);
      }
    }

    /** The exception `_score(e, knn, X, y)` raises, or None. */
    ghost function ScoreError(e: DmlEntry<T>, knn: Knn<Row, L, V>, X: Option<seq<Row>>, y: Option<seq<L>>): Option<Error>
      reads this
    {
      match X
      case None => LooSlotError(e)
      case Some(Q) =>
        match Transformed(e, Q)
        case Err(x) => Some(x)
        case Ok(Qt) => (match ScoreKnn(lib.classify, knn, Qt, y) case Err(x) => Some(x) case Ok(_) => None)
    }

    /** `s` is a result `_score(e, knn, X, y)` can return. */
    ghost predicate IsScore(e: DmlEntry<T>, knn: Knn<Row, L, V>, X: Option<seq<Row>>, y: Option<seq<L>>, s: Float)
      reads this
    {
      && ScoreError(e, knn, X, y).None?
      && match X
         case None => IsLooScore(Transformed(e, xTrain).value, s)
         case Some(Q) => s == ScoreKnn(lib.classify, knn, Transformed(e, Q).value, y).value
    }

    /** `_score(dml, knn, X, y)`. */
    method ScoreSlot(e: DmlEntry<T>, knn: Knn<Row, L, V>, X: Option<seq<Row>>, y: Option<seq<L>>) returns (r: Result<Float>)
      ensures r.Err? <==> ScoreError(e, knn, X, y).Some?
      ensures r.Err? ==> r.error == ScoreError(e, knn, X, y).value
      ensures r.Ok? ==> IsScore(e, knn, X, y, r.value)
    {
      if X.None? {
        if !fitCalled {
          return Err(AttributeError);
        }
        var trans := Transformed(e, xTrain);
        if trans.Err? {
          return Err(trans.error);
        }
        r := LooScore(trans.value);
      } else {
        var trans := Transformed(e, X.value);
        if trans.Err? {
          return Err(trans.error);
        }
        r := ScoreKnn(lib.classify, knn, trans.value, y);
      }
    }

    /** Per slot, the exception `predict_all(X)` meets there: reading a
        classifier past the end of `knns_`, or one `_predict` raises. */
    ghost function PredictErrors(X: Option<seq<Row>>): (errs: seq<Option<Error>>)
      reads this
      ensures |errs| == |dmls|
    {
      seq(|dmls|, i requires 0 <= i < |dmls| reads this =>
        if i < |knns| then PredictError(dmls[i], knns[i], X) else Some(IndexError))
    }

    /** `preds` are the predictions of the first `|preds|` slots, none of
        which raised. */
    ghost predicate PredictedUpTo(X: Option<seq<Row>>, preds: seq<seq<L>>)
      reads this
    {
      && |preds| <= |dmls| && |preds| <= |knns|
      && forall j :: 0 <= j < |preds| ==> PredictErrors(X)[j].None? && IsPrediction(dmls[j], knns[j], X, preds[j])
    }

    /** A prediction for the next slot extends the predicted prefix. */
    lemma PredictedStep(X: Option<seq<Row>>, preds: seq<seq<L>>, p: seq<L>)
      requires PredictedUpTo(X, preds) && |preds| < |dmls| && |preds| < |knns|
      requires IsPrediction(dmls[|preds|], knns[|preds|], X, p)
      ensures PredictedUpTo(X, preds + [p])
    {
    }

    /** `predict_all(X)`: one prediction per slot, in slot order, or the first
        slot's exception. */
    method PredictAll(X: Option<seq<Row>>) returns (r: Result<seq<seq<L>>>)
      ensures r.Err? <==> FirstError(PredictErrors(X)).Some?
      ensures r.Err? ==> r.error == FirstError(PredictErrors(X)).value
      ensures r.Ok? ==> |r.value| == |dmls|
      ensures r.Ok? ==> |dmls| <= |knns|
      ensures r.Ok? ==> forall i :: 0 <= i < |dmls| ==> IsPrediction(dmls[i], knns[i], X, r.value[i])
    {
      var predList := [];
      for i := 0 to |dmls|
        invariant |predList| == i
        invariant PredictedUpTo(X, predList)
      {
        if i >= |knns| {
          FirstErrorAt(PredictErrors(X), i);
          return Err(IndexError);
        }
        var p := PredictSlot(dmls[i], knns[i], X);
        if p.Err? {
          FirstErrorAt(PredictErrors(X), i);
          return Err(p.error);
        }
        PredictedStep(X, predList, p.value);
        predList := predList + [p.value];
      }
      return Ok(predList);
    }

    /** `predict_proba_all(X)`: the same loop over `_predict` as
        `predict_all`, so the same labels, not probabilities. */
    method PredictProbaAll(X: Option<seq<Row>>) returns (r: Result<seq<seq<L>>>)
      ensures r.Err? <==> FirstError(PredictErrors(X)).Some?
      ensures r.Err? ==> r.error == FirstError(PredictErrors(X)).value
      ensures r.Ok? ==> |r.value| == |dmls|
      ensures r.Ok? ==> |dmls| <= |knns|
      ensures r.Ok? ==> forall i :: 0 <= i < |dmls| ==> IsPrediction(dmls[i], knns[i], X, r.value[i])
    {
      r := PredictAll(X);
    }

    /** Per slot, the exception `score_all(X, y)` meets there. */
    ghost function ScoreErrors(X: Option<seq<Row>>, y: Option<seq<L>>): (errs: seq<Option<Error>>)
      reads this
      ensures |errs| == |dmls|
    {
      seq(|dmls|, i requires 0 <= i < |dmls| reads this =>
        if i < |knns| then ScoreError(dmls[i], knns[i], X, y) else Some(IndexError))
    }

    /** `scores` are the scores of the first `|scores|` slots, none of which
        raised. */
    ghost predicate ScoredUpTo(X: Option<seq<Row>>, y: Option<seq<L>>, scores: seq<Float>)
      reads this
    {
      && |scores| <= |dmls| && |scores| <= |knns|
      && forall j :: 0 <= j < |scores| ==> ScoreErrors(X, y)[j].None? && IsScore(dmls[j], knns[j], X, y, scores[j])
    }

    /** A score for the next slot extends the scored prefix. */
    lemma ScoredStep(X: Option<seq<Row>>, y: Option<seq<L>>, scores: seq<Float>, s: Float)
      requires ScoredUpTo(X, y, scores) && |scores| < |dmls| && |scores| < |knns|
      requires IsScore(dmls[|scores|], knns[|scores|], X, y, s)
      ensures ScoredUpTo(X, y, scores + [s])
    {
    }

    /** `score_all(X, y)`: a float array with one score per slot, filled in
        slot order, or the first slot's exception. */
    method ScoreAll(X: Option<seq<Row>>, y: Option<seq<L>>) returns (r: Result<seq<Float>>)
      ensures r.Err? <==> FirstError(ScoreErrors(X, y)).Some?
      ensures r.Err? ==> r.error == FirstError(ScoreErrors(X, y)).value
      ensures r.Ok? ==> |r.value| == |dmls|
      ensures r.Ok? ==> |dmls| <= |knns|
      ensures r.Ok? ==> forall i :: 0 <= i < |dmls| ==> IsScore(dmls[i], knns[i], X, y, r.value[i])
    {
      var scores := new Float[|dmls|];
      ghost var written: seq<Float> := [];
      for i := 0 to |dmls|
        invariant written == scores[..i]
        invariant ScoredUpTo(X, y, written)
      {
        if i >= |knns| {
          FirstErrorAt(ScoreErrors(X, y), i);
          return Err(IndexError);
        }
        var s := ScoreSlot(dmls[i], knns[i], X, y);
        if s.Err? {
          FirstErrorAt(ScoreErrors(X, y), i);
          return Err(s.error);
        }
        ScoredStep(X, y, written, s.value);
        scores[i] := s.value;
        written := written + [s.value];
      }
      assert scores[..] == written;
      return Ok(scores[..]);
    }

    /** `dmls_string()`: one name per slot, "EUCLIDEAN" at every baseline
        slot and nowhere else unless a transform's type bears that name. */
    function DmlsString(): (names: seq<string>)
      reads this
      ensures |names| == |dmls|
      ensures forall i :: 0 <= i < |dmls| && dmls[i].NoDml? ==> names[i] == "EUCLIDEAN"
      ensures forall i :: 0 <= i < |dmls| && names[i] == "EUCLIDEAN" ==>
                dmls[i].NoDml? || (dmls[i].Dml? && lib.typeName(dmls[i].t) == "EUCLIDEAN")
      ensures Valid() ==> names[0] == "EUCLIDEAN"
    {
      var d := dmls;
      seq(|d|, i requires 0 <= i < |d| => EntryName(lib, d[i]))
    }
  }
}
