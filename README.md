# MultiDML_kNN evaluator, modelled in Dafny

`MultiDML_kNN` (dml/multidml_knn.py) compares distance-metric-learning (DML)
transforms against a Euclidean baseline. It is meant to keep two
index-aligned lists: `dmls_`, the transform of each slot (slot 0 is `None`,
the baseline), and `knns_`, one k-nearest-neighbours classifier per slot. A
list passed to `add` breaks this alignment (see Findings). `fit(X, y)` fits each
transform and each slot's classifier on one training set, recording how long
each transform took. Without query data, `predict_all` and `score_all` run a
leave-one-out loop over the stored training set: the transform is not refitted
per fold, only a fresh classifier is. With query data, they use the fitted
classifiers on the transformed query.

The project is split into five modules:
- `Outcomes` (outcomes.dfy): Python exceptions as values, `Option`/`Result`, and the
  float results of numpy as `NaN | Num(real)`.
- `Metrics` (metrics.dfy): the match count behind `np.mean(preds == y)`, the resulting
  accuracy, and `set(y)`.
- `Collaborators` (collaborators.dfy): the external libraries as values. The
  classifier's labelling, the transforms' `fit`/`transform` and `type(t).__name__`
  are uninterpreted function fields of `Library`. A `KNeighborsClassifier` is a `Knn`
  value that remembers its options and what it was fitted on. The input checks
  scikit-learn makes on `fit`, `predict` and `score` are written out, because the
  evaluator's failure behaviour depends on them.
- `LeaveOneOut` (leave_one_out.dfy): the folds of scikit-learn's `LeaveOneOut`,
  numpy fancy indexing, the label each fold predicts, and the exception the loop
  raises.
- `MultiDml` (multidml_knn.py's class, in multidml_knn.dfy): class `MultiDmlKnn`, whose
  fields are the Python attributes. `add` and `fit` are methods that update those
  fields. `_loo_pred` and `score_all` fill arrays in loops. Every exception the
  model covers is a `Result` error; the failures it does not cover are listed
  under Left out. Each method is proved against ghost
  functions that say which exception occurs, and against predicates that say which
  results are possible.

A `dmls_` entry is a `DmlEntry`: `NoDml` (Python `None`), `Dml(t)` (one transform
object), or `DmlList(items)` (a Python list stored as one entry, which `add`
produces). The transform objects' fitted state is the map `dmlState`, from object
to the data it was last fitted on. The same object may sit in several slots, and
the map records that sharing.

The class invariant `Valid()` says:
- slot 0 is the baseline;
- every classifier shares the evaluator's `n_neighbors` and options;
- `|knns_| + (number of empty-list entries) >= |dmls_|`.

From the invariant, `SlotHasClassifier` proves that `fit` never indexes past the
end of `knns_`. Before it does, it either finishes or stops at a list entry.

Where the code and its description disagree, the model follows the code:
- The leave-one-out folds build their classifier from `n_neighbors` alone, without
  the evaluator's keyword options (dml/multidml_knn.py:117).
- `add` followed by `fit` raises whenever `add` was given a list: the list stays one
  entry, and a list has no `fit`. See Findings.
- `predict_proba_all` returns the labels of `_predict`, not probabilities.

## Model

| member | source | states |
|---|---|---|
| MultiDml.MultiDmlKnn.constructor | dml/multidml_knn.py:20-35 | slot 0 is the baseline; a list argument is spliced in after it; a single transform gives `[None, t]`; one fresh classifier per slot with the given `k` and options; the invariant holds |
| MultiDml.MultiDmlKnn.Add | dml/multidml_knn.py:37-45 | exactly one entry is appended, the argument itself, even when it is a list; a list of `m` transforms appends `m` classifiers, so the length gap grows by `m - 1`; earlier entries are unchanged; the invariant holds |
| MultiDml.MultiDmlKnn.AddFlattened | dml/multidml_knn.py:37-45 | corrected `add`: a list's elements become separate entries with one classifier each, so the length gap is unchanged |
| MultiDml.ListEntryBlocksFit | dml/multidml_knn.py:42 | an entry that is a list stops `fit`'s loop at or before it |
| MultiDml.MultiDmlKnn.Fit | dml/multidml_knn.py:47-68 | stores `X`, `y` and the number of distinct labels; returns a ValueError when the classifier refuses the data, else an AttributeError at the first list entry, else the evaluator itself; the recorded times, refitted classifiers and fitted transforms are exactly those of the slots reached |
| MultiDml.MultiDmlKnn.FittedShape | dml/multidml_knn.py:51-66 | after a successful `fit`, `elapsed_` has one time per slot with 0.0 at slot 0, and each slot's classifier is fitted on its transformed rows and `y` |
| MultiDml.MultiDmlKnn.FitSlots | dml/multidml_knn.py:53-66 | the loop fits slots in order until one raises; it returns that exception, and the state reflects exactly the slots before it |
| MultiDml.MultiDmlKnn.FitSlot | dml/multidml_knn.py:54-66 | one slot: a transform is fitted and then its time recorded; the baseline records 0.0; a list raises AttributeError before anything changes; the classifier is refitted on the transformed rows |
| MultiDml.MultiDmlKnn.SlotHasClassifier | dml/multidml_knn.py:66 | under the invariant, every slot before the first list entry has a classifier, so `knns_[i]` never raises an IndexError |
| MultiDml.FirstList | dml/multidml_knn.py:53-66 | the first list entry, where `fit` stops: no list before it, a list at it |
| MultiDml.EmptyListsBound | dml/multidml_knn.py:37-45 | empty lists, the only entries pushed without a classifier, lie after any list-free prefix |
| MultiDml.EmptyListsAppend | dml/multidml_knn.py:32 | appending entries never lowers the count of empty lists |
| MultiDml.MarkFittedMeaning | dml/multidml_knn.py:55-59 | fitting slots in order marks exactly their transform objects as fitted on the data, and leaves every other object's state as it was |
| MultiDml.DmlObjectsGrow | dml/multidml_knn.py:53-59 | each slot adds at most its own transform object to the set fitted so far |
| MultiDml.MultiDmlKnn.Elapsed | dml/multidml_knn.py:70-71 | returns the stored times exactly when `fit` has run, else AttributeError |
| MultiDml.MultiDmlKnn.Transformed | dml/multidml_knn.py:74-82 | the identity for the baseline; row count kept; AttributeError for a list or for a transform that was never fitted |
| MultiDml.MultiDmlKnn.PredictSlot | dml/multidml_knn.py:73-83 | without `X`: leave-one-out over the transformed stored rows; with `X`: the slot classifier's labels for the transformed query; the error is exactly the one raised on that path |
| MultiDml.MultiDmlKnn.ScoreSlot | dml/multidml_knn.py:97-107 | without `X`: the leave-one-out score; with `X`: the classifier's accuracy on the transformed query against `y`; the error is exactly the one raised on that path |
| MultiDml.MultiDmlKnn.LooPred | dml/multidml_knn.py:109-122 | an array of `len(y_)` labels whose entry `i` is the prediction at row `i` of a fresh classifier built from `k` alone and trained on every other row; it raises exactly when the folds raise |
| LeaveOneOut.LooFailure | dml/multidml_knn.py:113-120 | the loop succeeds exactly when there are no rows, or when `1 <= k < n <= len(y_)` |
| LeaveOneOut.TrainIndices | dml/multidml_knn.py:113 | fold `i` of `n` trains on `n - 1` indices, increasing, all below `n` and none equal to `i` |
| LeaveOneOut.TrainIndicesCover | dml/multidml_knn.py:113 | every index other than `i` is in fold `i` |
| LeaveOneOut.Take | dml/multidml_knn.py:114-115 | `s[idx]` keeps the order of `idx`; IndexError exactly when some index is out of range |
| LeaveOneOut.TakeTrainIndices | dml/multidml_knn.py:114-115 | indexing with fold `i` removes exactly element `i` |
| LeaveOneOut.LooPredictionDetermined | dml/multidml_knn.py:111-122 | with as many rows as labels, every entry is written and the predictions are determined |
| MultiDml.MultiDmlKnn.LooScore | dml/multidml_knn.py:124-127 | the accuracy of some prediction `_loo_pred` can return; same errors as `_loo_pred` |
| MultiDml.MultiDmlKnn.LooScoreMeaning | dml/multidml_knn.py:124-127 | a leave-one-out score lies in [0, 1], is NaN only with no labels, and equals the accuracy of the determined predictions when rows and labels match |
| Metrics.Hits | dml/multidml_knn.py:127 | the count of matching positions in `preds == y` never exceeds the number of labels |
| Metrics.HitsMatches | dml/multidml_knn.py:127 | the match count equals the number of positions where prediction and label agree |
| Metrics.Accuracy | dml/multidml_knn.py:127 | the mean of `preds == y` lies in [0, 1] and is NaN exactly on empty vectors |
| Metrics.AccuracyExtremes | dml/multidml_knn.py:127 | the mean is the matching positions over `n`; it is 1 exactly when all predictions agree, and 0 exactly when none do |
| Metrics.HitsAll | dml/multidml_knn.py:127 | the match count is `n` exactly when the predictions equal the labels |
| Metrics.HitsNone | dml/multidml_knn.py:127 | the match count is 0 exactly when every prediction differs from its label |
| Metrics.LabelsCount | dml/multidml_knn.py:50 | `len(set(y))` is at most `len(y)`, and 0 exactly for empty `y` |
| MultiDml.MultiDmlKnn.PredictAll | dml/multidml_knn.py:129-134 | one prediction per slot, in slot order, each a possible result of `_predict` on that slot; otherwise the first slot's exception, including IndexError past the end of `knns_` |
| MultiDml.MultiDmlKnn.PredictProbaAll | dml/multidml_knn.py:136-141 | the same contract as `predict_all`: labels, not probabilities |
| MultiDml.MultiDmlKnn.ScoreAll | dml/multidml_knn.py:143-149 | an array with one score per slot, in slot order, each a possible result of `_score` on that slot; otherwise the first slot's exception |
| LeaveOneOut.FirstError | dml/multidml_knn.py:129-149 | no exception exactly when no slot raises; otherwise the exception of the first slot that raises |
| LeaveOneOut.FirstErrorAt | dml/multidml_knn.py:129-149 | when slot `i` is the first to raise, its exception is the one propagated |
| MultiDml.MultiDmlKnn.DmlsString | dml/multidml_knn.py:151-158 | one name per slot; "EUCLIDEAN" at every `None` slot, including slot 0, and elsewhere only when a transform's type is itself named so |
| Collaborators.FitKnn | dml/multidml_knn.py:66 | `knn.fit` refuses `k == 0`, no samples, or mismatched lengths with ValueError; otherwise it keeps `k` and the options and remembers the data |
| Collaborators.PredictKnn | dml/multidml_knn.py:83 | `knn.predict` gives one label per query row; it refuses an empty query, an unfitted classifier, or `k` above the training size |
| Collaborators.ScoreKnn | dml/multidml_knn.py:107 | `knn.score` is the accuracy of `knn.predict` against `y`; it raises predict's error, or a ValueError when `y` is missing or its length differs from the query's |
| Collaborators.TransformRows | dml/multidml_knn.py:61 | `dml.transform` maps each row on its own and keeps the row count |

## Left out

- The internals of scikit-learn's `KNeighborsClassifier` are not modelled: neighbour search, voting and tie-breaking are the uninterpreted `classify`. Only the input checks listed above are modelled; no other failure of the classifier is.
- The DML algorithms' `fit` and `transform` are uninterpreted, and they are modelled as never failing. A transform maps rows one at a time, and its result depends only on the data it was last fitted on.
- A transform object counts as unfitted until this evaluator fits it. Fitting it elsewhere, or sharing it with another evaluator, is not modelled. Calling `transform` on an unfitted object is modelled as AttributeError, whatever the library would actually raise.
- `time.time()`: the time each transform takes to fit is the input `duration(i)`. The model makes no claim about its sign or size.
- The `verbose_` progress message (dml/multidml_knn.py:56-57) is console output and is left out. `verbose` is only stored.
- `_predict_proba` (dml/multidml_knn.py:85-95) is left out: nothing calls it, and the `_loo_prob` it calls does not exist.
- Floating point: the mean in `_loo_score` and in `knn.score` is an exact rational, or NaN for empty vectors, as numpy gives for a mean of nothing.
- `LooPred`: when `fit` stored fewer rows than labels (only possible after a failed `fit`), the array tail that `np.empty` leaves uninitialised is unconstrained. The contract states only the written entries.
- `LooFailure`: with no rows the loop runs zero times, as in scikit-learn versions where `LeaveOneOut.split` yields nothing; versions that raise ValueError there are not modelled.
- `Fit`: values of `X` and `y` that are not a matrix and a vector are not modelled. Rows and labels are abstract type parameters.
- utils/datasets.py is not part of this model: it is dataset loading and file I/O.

## Findings

| source | as written | input that shows it | evidently intended | confidence | as-written member | corrected member |
|---|---|---|---|---|---|---|
| dml/multidml_knn.py:38-42 | `add` with a list appends the list as one entry but one classifier per element | `add([t])` and then `fit(X, y)`: the list entry has no `fit`, so `fit` raises AttributeError at that slot | splice the list's elements in as separate entries, as the constructor does (line 32), keeping one classifier per entry | high, not executed | MultiDml.MultiDmlKnn.Add, MultiDml.ListEntryBlocksFit | MultiDml.MultiDmlKnn.AddFlattened |
