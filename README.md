# K-Means clustering service and classifier input handling, in Dafny

This project models the server-side core of a small Django data-mining web application:

- **The K-Means engine** (`KMeansClustering`). Forgy initialisation draws k distinct data rows. Each round then:
  - assigns every point to its nearest centroid, taking the first index on ties;
  - moves every centroid to the mean of its cluster, where an empty cluster keeps its centroid;
  - records the round in a history with its SSE (sum of squared errors);
  - stops once the total centroid shift falls below the tolerance, or after `max_iters` rounds.

  `predict` reuses the assignment step. The engine is the class `KMeans.KMeansClustering`. Its fields `centroids`, `labels`, `iterations` and `history` are updated round by round by `Fit`. Each step is a method with a loop, proved equal to a pure function that defines it. The properties are proved about those functions.
- **The point parsers.**
  - `parse_points_from_string` reads the `x1={1,3}, x2={1.5,3.2}` notation with a comma-part loop and a group buffer.
  - `parse_points_from_list` reads JSON items: `{x, y}` objects, other objects by sorted key, and lists. Items that yield nothing are dropped.
- **The clustering endpoints.**
  - The guard chain of `kmeans_cluster_view`, in front of `fit`.
  - The guards of `kmeans_predict_view`, which installs client-supplied centroids before `predict`.
  - The example-file selector of `load_example_data_view`.
- **The classifier endpoints' input handling.**
  - The `Temp` → `Temperature` rename in `_normalize_input_data`, done on a copy of the request dict.
  - The feature row built from the model configuration.
  - `_load_model` with its two global caches, and the import-time loop that loads every configured model.

Modules:

- `Wrappers`: the `Option` and `Result` types.
- `Text`: the pieces of Python's `str` API the parsers use.
- `Json`: decoded JSON values, and Python's `float()` and `int()` on them.
- `KMeans`, `PointParsers`, `ClusteringViews` and `ClassificationViews`: the four parts above.

Coordinates are `real`. The square root in the distance is needed only by the convergence shift, so it is a parameter (`sqrt`). The argmin and the SSE use the squared distance, which orders points the same way. Three things the program gets from elsewhere are also parameters:

- the random sample of `np.random.choice` (`indices`);
- the string syntax Python's `float()` and `int()` accept (`parseFloat`, `parseInt`);
- `joblib.load` (`load`).

Some behaviours of the code are easy to get wrong, and the model states them:

- **Predicting on the training data.** It does not in general reproduce the labels `fit` returns: those were computed against the centroids from *before* the last update.
  - `KMeans.PredictAfterFitCanDiffer` gives a concrete input where they differ.
  - `KMeans.PredictReproducesStableFit` proves they agree once the last update left the centroids in place.
- **Fewer parsed points than k.** The clustering view checks that k is at most the number of *raw* items. Items the parser drops can leave fewer points than k. In that case `fit` fails in initialisation and the view answers with a generic 400 error (`ClusteringViews.RawCountLetsTooFewPointsThrough`).
- **`max_iters` of 0.** This passes every guard. `fit` then fails at its final SSE, and the view answers 500 (`ClusteringViews.ZeroMaxItersPassesGuards`).
- **A key written twice.** The value written last counts, as in the dict `json.loads` builds (`ClusteringViews.RepeatedKeyTakesLastValue`).
- **Coordinates beyond the double range.** `float` of such an int raises OverflowError, not ValueError, so the clustering view answers 500 rather than 400 (`ClusteringViews.OverflowingCoordinateIsInternal`).

## Model

| member | source | states |
|---|---|---|
| `Json.FloatOf` | data_mining_project/data_mining/service/kmeans_algorithm.py:247 | Python's `float()`: a float is itself and a boolean 1.0 or 0.0; an int converts to its own value exactly when its magnitude is below 2^1024 - 2^970, and otherwise raises OverflowError; a string converts to the number it reads as, and raises ValueError when it reads as none; null, lists and objects raise TypeError |
| `Json.IntOf` | data_mining_project/data_mining/service/clustering_views.py:38-39 | Python's `int()`: an integer is itself, a boolean 1 or 0, a float is truncated toward zero, a string converts to the integer it reads as (ValueError when it reads as none), null/list/object raise TypeError |
| `Json.TruncateTowardZero` | data_mining_project/data_mining/service/clustering_views.py:38-39 | `int()` of a float: the integer between zero and the value that is less than one away from it |
| `Json.Get` | data_mining_project/data_mining/service/clustering_views.py:37 | `dict.get` on the decoded object: a value exactly when the key is present, and then the value of the last member written under that key |
| `Json.GetDistinct` | data_mining_project/data_mining/service/clustering_views.py:37 | when every key occurs once, each member's value is what `get` returns for its key |
| `Json.Store` | data_mining_project/data_mining/service/clustering_views.py:34 | `d[key] = value` as `json.loads` applies it per member: keys stay distinct, a present key keeps its place, a new key goes last, `key` now holds `value` and every other key what it held |
| `Json.DictOf` | data_mining_project/data_mining/service/clustering_views.py:34 | the dict `json.loads` builds from an object: distinct keys, the same keys as the members, `get` answering as on the members (last value wins), never larger, non-empty for a non-empty object, and the members themselves when their keys are already distinct |
| `Text.Split` | data_mining_project/data_mining/service/kmeans_algorithm.py:198 | `str.split` on one character: at least one part, two or more exactly when the separator occurs, no part containing it |
| `Text.JoinSplit` | data_mining_project/data_mining/service/kmeans_algorithm.py:198 | splitting loses nothing: joining the parts with the separator gives back the text |
| `Text.SplitJoin` | data_mining_project/data_mining/service/kmeans_algorithm.py:198 | joining separator-free parts and splitting again gives back the parts |
| `Text.Strip` | data_mining_project/data_mining/service/kmeans_algorithm.py:207 | `str.strip`: the result neither starts nor ends with whitespace, Python's whitespace set including the Unicode spaces |
| `Text.StripTrimsOnlyEnds` | data_mining_project/data_mining/service/kmeans_algorithm.py:207 | `str.strip` removes exactly a run of whitespace from each end: the result is a contiguous slice of the text, and everything cut before and after it is whitespace |
| `Text.LexLessTotal` | data_mining_project/data_mining/service/kmeans_algorithm.py:250 | Python's string order, which `sorted(item.items())` uses on distinct keys, orders any two different strings |
| `KMeans.AsRows` | data_mining_project/data_mining/service/kmeans_algorithm.py:105-107 | a one-dimensional array is read as n points of dimension 1; a matrix is kept as it is |
| `KMeans.SqDist` | data_mining_project/data_mining/service/kmeans_algorithm.py:31-33 | the squared Euclidean distance is never negative |
| `KMeans.SqDistZeroIff` | data_mining_project/data_mining/service/kmeans_algorithm.py:31-33 | the distance between two points is zero exactly when they are equal |
| `KMeans.Nearest` | data_mining_project/data_mining/service/kmeans_algorithm.py:55-56 | a point's label is an index of an existing centroid |
| `KMeans.NearestUpToIsFirstNearest` | data_mining_project/data_mining/service/kmeans_algorithm.py:55-56 | the scan over the centroids finds the first index of minimal distance, as `np.argmin` does |
| `KMeans.FirstNearestUnique` | data_mining_project/data_mining/service/kmeans_algorithm.py:56 | only one index is the first of minimal distance, so the tie-break decides every label |
| `KMeans.Assign` | data_mining_project/data_mining/service/kmeans_algorithm.py:44-58 | one label per point, each in [0, k) |
| `KMeans.AssignIsFirstNearest` | data_mining_project/data_mining/service/kmeans_algorithm.py:51-58 | every label is the first nearest centroid of its point, and no other index is |
| `KMeans.NearestOfCentroidIsExact` | data_mining_project/data_mining/service/kmeans_algorithm.py:55-56 | a point that is itself a centroid is labelled with a centroid at distance zero |
| `KMeans.Members` | data_mining_project/data_mining/service/kmeans_algorithm.py:72 | `data[labels == c]` is drawn from the data and never larger than it |
| `KMeans.Clusters` | data_mining_project/data_mining/service/kmeans_algorithm.py:171-174 | one group per cluster index in [0, k) |
| `KMeans.ClustersPartition` | data_mining_project/data_mining/service/kmeans_algorithm.py:137-139 | the groups together hold every data point exactly as often as the data does |
| `KMeans.PointInOwnCluster` | data_mining_project/data_mining/service/kmeans_algorithm.py:172 | every point lies in the group of its own label |
| `KMeans.MembersCarryLabel` | data_mining_project/data_mining/service/kmeans_algorithm.py:172 | a group holds only points whose label is that group's index |
| `KMeans.Mean` | data_mining_project/data_mining/service/kmeans_algorithm.py:76 | the mean of points of dimension d has dimension d |
| `KMeans.MeanOfCopies` | data_mining_project/data_mining/service/kmeans_algorithm.py:76 | the mean of copies of one point is that point |
| `KMeans.NewCentroid` | data_mining_project/data_mining/service/kmeans_algorithm.py:72-79 | a cluster's new centroid keeps the dimension of the current one |
| `KMeans.Update` | data_mining_project/data_mining/service/kmeans_algorithm.py:60-81 | the update returns k centroids of the data's dimension, shaped like the current ones |
| `KMeans.UpdateAt` | data_mining_project/data_mining/service/kmeans_algorithm.py:70-79 | a non-empty cluster's centroid becomes the mean of its members; an empty cluster keeps its centroid |
| `KMeans.UpdateKeepsExactCentroids` | data_mining_project/data_mining/service/kmeans_algorithm.py:60-81 | when every point sits on its labelled centroid, the update leaves all centroids in place |
| `KMeans.Sse` | data_mining_project/data_mining/service/kmeans_algorithm.py:83-92 | the SSE is never negative |
| `KMeans.SseZeroIff` | data_mining_project/data_mining/service/kmeans_algorithm.py:83-92 | the SSE is zero exactly when every point coincides with its labelled centroid |
| `KMeans.ShiftOfUnmoved` | data_mining_project/data_mining/service/kmeans_algorithm.py:144-145 | centroids that did not move have a total shift of zero |
| `KMeans.SampleFitsPopulation` | data_mining_project/data_mining/service/kmeans_algorithm.py:40 | k distinct indices below n exist only when k is at most n |
| `KMeans.InitializeCentroids` | data_mining_project/data_mining/service/kmeans_algorithm.py:35-42 | succeeds exactly when k is at most n, with k rows, each a copy of a distinct data row; otherwise the ValueError of sampling without replacement |
| `KMeans.Round` | data_mining_project/data_mining/service/kmeans_algorithm.py:119-141 | a history entry carries its round number and the centroids before the update, with valid labels and one group per cluster |
| `KMeans.Iterate` | data_mining_project/data_mining/service/kmeans_algorithm.py:117-160 | after n passes there are at most n rounds (exactly n unless it broke off), and the centroids keep the shape of the initial ones |
| `KMeans.Pass` | data_mining_project/data_mining/service/kmeans_algorithm.py:117-160 | after pass n at least one and at most n rounds are recorded, the last with valid labels |
| `KMeans.Advance` | data_mining_project/data_mining/service/kmeans_algorithm.py:117-160 | a pass that runs records round number n with valid labels |
| `KMeans.FitSpec` | data_mining_project/data_mining/service/kmeans_algorithm.py:94-175 | `fit` fails exactly when k exceeds the number of points (ValueError from the sample) or no round runs (the final SSE reads missing labels) |
| `KMeans.FitSpecOfLoop` | data_mining_project/data_mining/service/kmeans_algorithm.py:117-175 | `fit`'s result is read off the state the loop ends in: its centroids, its last labels, their SSE against the adopted centroids, the round count, the history and the grouping |
| `KMeans.IterateAfterBreak` | data_mining_project/data_mining/service/kmeans_algorithm.py:153-158 | once the loop has broken off, later passes change nothing |
| `KMeans.IterateStep` | data_mining_project/data_mining/service/kmeans_algorithm.py:117-160 | one more pass from an unconverged state appends its round, adopts the updated centroids and breaks off exactly when the shift is below the tolerance |
| `KMeans.RunExtends` | data_mining_project/data_mining/service/kmeans_algorithm.py:119-160 | a run that has not converged extends by one round to a run |
| `KMeans.IterateIsRun` | data_mining_project/data_mining/service/kmeans_algorithm.py:117-160 | what the loop records is a run from the initial centroids, round by round |
| `KMeans.RunConverged` | data_mining_project/data_mining/service/kmeans_algorithm.py:154-158 | a run reports convergence exactly when its last round moved the centroids by less than the tolerance |
| `KMeans.RunRoundAt` | data_mining_project/data_mining/service/kmeans_algorithm.py:119-160 | every round of a run starts from the centroids the previous one adopted, assigns against them and, unless it is the last, did not converge |
| `KMeans.RunEnds` | data_mining_project/data_mining/service/kmeans_algorithm.py:112-163 | a run starts from the initial centroids, and its last labels are the assignment against its last pre-update centroids |
| `KMeans.FitGuarantees` | data_mining_project/data_mining/service/kmeans_algorithm.py:94-175 | on success: 1 <= iterations <= max_iters and equals len(history); history numbers rounds from the initial centroids; fewer than max_iters rounds means it converged; k centroids; labels in [0, k) against the last pre-update centroids; sse against the adopted centroids; clusters partition the data |
| `KMeans.FirstShiftBelowTolerance` | data_mining_project/data_mining/service/kmeans_algorithm.py:144-158 | when the first update moves the centroids by less than the tolerance, the loop makes exactly one round and adopts the update |
| `KMeans.ExactStartConverges` | data_mining_project/data_mining/service/kmeans_algorithm.py:117-163 | when every point starts on its centroid, one round converges, keeps the centroids and has SSE zero |
| `KMeans.PredictReproducesStableFit` | data_mining_project/data_mining/service/kmeans_algorithm.py:163-188 | when the last update left the centroids in place, predicting on the training data gives back the fit labels |
| `KMeans.PredictAfterFitCanDiffer` | data_mining_project/data_mining/service/kmeans_algorithm.py:119-188 | points 0, 1, 10 with k = 2 and one round: fit labels [0, 1, 1], yet predict with the adopted centroids gives [0, 0, 1] |
| `KMeans.AssignClusters` | data_mining_project/data_mining/service/kmeans_algorithm.py:44-58 | the label loop computes the assignment: first nearest centroid per point |
| `KMeans.UpdateCentroids` | data_mining_project/data_mining/service/kmeans_algorithm.py:60-81 | the cluster loop computes the update: means of non-empty clusters, old centroids for empty ones |
| `KMeans.CalculateSse` | data_mining_project/data_mining/service/kmeans_algorithm.py:83-92 | the accumulating loop computes the SSE |
| `KMeans.GroupByCluster` | data_mining_project/data_mining/service/kmeans_algorithm.py:137-139 | the grouping loop puts the points labelled c, in input order, in group c |
| `KMeans.RunRound` | data_mining_project/data_mining/service/kmeans_algorithm.py:119-145 | one round's history entry, and the updated centroids computed from its labels |
| `KMeans.KMeansClustering.constructor` | data_mining_project/data_mining/service/kmeans_algorithm.py:14-29 | a fresh model keeps k, max_iters and tolerance, has no centroids or labels, zero iterations and an empty history |
| `KMeans.KMeansClustering.Fit` | data_mining_project/data_mining/service/kmeans_algorithm.py:94-175 | returns `FitSpec`'s result; on success the fields hold its centroids, labels, iterations and history; a sample failure changes nothing; with no round, the initial centroids and an empty history stay behind |
| `KMeans.KMeansClustering.RunPasses` | data_mining_project/data_mining/service/kmeans_algorithm.py:117-160 | the loop leaves the fields in the state `Iterate` describes after max_iters passes, or untouched when no pass runs |
| `KMeans.KMeansClustering.RunPass` | data_mining_project/data_mining/service/kmeans_algorithm.py:119-160 | one pass moves the fields to the next state of the loop and reports whether it broke off |
| `KMeans.KMeansClustering.Predict` | data_mining_project/data_mining/service/kmeans_algorithm.py:177-188 | fails (ValueError) exactly when no centroids are set; otherwise the assignment of the rows to the stored centroids |
| `PointParsers.AppendToken` | data_mining_project/data_mining/service/kmeans_algorithm.py:212-215 | a token either leaves the group as it was or appends one coordinate after the existing ones |
| `PointParsers.AppendNumbers` | data_mining_project/data_mining/service/kmeans_algorithm.py:211-215 | the tokens add at most one coordinate each, after the existing ones |
| `PointParsers.ScanPart` | data_mining_project/data_mining/service/kmeans_algorithm.py:201-232 | a comma-part either leaves the emitted points alone or, when it closes without opening, appends exactly one non-empty point |
| `PointParsers.ScanPartsEmitted` | data_mining_project/data_mining/service/kmeans_algorithm.py:216-226 | no more points are emitted than there are closing parts, and none is empty |
| `PointParsers.ParsedPointsAreClosedGroups` | data_mining_project/data_mining/service/kmeans_algorithm.py:191-234 | the parser emits only non-empty points, at most one per part that closes a group |
| `PointParsers.NoCloseNoEmit` | data_mining_project/data_mining/service/kmeans_algorithm.py:234 | parts after the last closing one emit nothing, so a trailing unclosed group is dropped |
| `PointParsers.NonClosingKeepsPoints` | data_mining_project/data_mining/service/kmeans_algorithm.py:203-232 | a part that does not close a group leaves the emitted points unchanged |
| `PointParsers.UnparseablePartSkipped` | data_mining_project/data_mining/service/kmeans_algorithm.py:227-232 | a brace-free part that is not a number leaves the whole loop state unchanged |
| `PointParsers.UnparseableTokensSkipped` | data_mining_project/data_mining/service/kmeans_algorithm.py:211-215 | tokens that are not numbers are skipped |
| `PointParsers.SingleGroupPartNotEmitted` | data_mining_project/data_mining/service/kmeans_algorithm.py:203-215 | a group written inside one comma-part, such as `{5}`, yields no point |
| `PointParsers.DocumentedExample` | data_mining_project/data_mining/service/kmeans_algorithm.py:194 | `x1={1,3}, x2={1.5,3.2}` parses to (1, 3) and (1.5, 3.2) |
| `PointParsers.ExampleParts` | data_mining_project/data_mining/service/kmeans_algorithm.py:198 | the documented example splits into `x1={1`, `3}`, ` x2={1.5`, `3.2}` |
| `PointParsers.OpensWith` | data_mining_project/data_mining/service/kmeans_algorithm.py:203-215 | a part `prefix{number` starts a fresh group holding that number |
| `PointParsers.ClosesWith` | data_mining_project/data_mining/service/kmeans_algorithm.py:216-226 | a part `number}` adds the number to the group, emits it and empties the buffer |
| `PointParsers.AppendParsed` | data_mining_project/data_mining/service/kmeans_algorithm.py:211-215 | the token loop appends exactly the tokens that read as numbers, in order |
| `PointParsers.ParsePointsFromString` | data_mining_project/data_mining/service/kmeans_algorithm.py:191-234 | the comma-part loop with its group buffer emits exactly the points of the parse |
| `PointParsers.NumericValues` | data_mining_project/data_mining/service/kmeans_algorithm.py:255 | filtering numeric entries yields no more values than entries, and the only error it raises is `float`'s OverflowError |
| `PointParsers.NumericValuesFails` | data_mining_project/data_mining/service/kmeans_algorithm.py:255 | the comprehension raises exactly when one of the entries is an int beyond the float range |
| `PointParsers.NumericValuesOfNumbers` | data_mining_project/data_mining/service/kmeans_algorithm.py:255 | a list of numbers that all convert keeps every entry, in order, as its float |
| `PointParsers.NumericValuesOfNonNumbers` | data_mining_project/data_mining/service/kmeans_algorithm.py:253-257 | a list without numbers yields nothing, so the item is dropped |
| `PointParsers.InsertMember` | data_mining_project/data_mining/service/kmeans_algorithm.py:250 | insertion adds exactly the one member |
| `PointParsers.SortMembers` | data_mining_project/data_mining/service/kmeans_algorithm.py:250 | sorting keeps exactly the members of the object |
| `PointParsers.InsertMemberSorted` | data_mining_project/data_mining/service/kmeans_algorithm.py:250 | inserting a member with a new key keeps the keys strictly ascending |
| `PointParsers.SortMembersSorted` | data_mining_project/data_mining/service/kmeans_algorithm.py:250 | an object's members come out in strictly ascending key order |
| `PointParsers.SortedUnique` | data_mining_project/data_mining/service/kmeans_algorithm.py:250 | there is only one key-ascending order of a set of members |
| `PointParsers.XYPoint` | data_mining_project/data_mining/service/kmeans_algorithm.py:247 | `[float(x), float(y)]`: succeeds exactly when both convert, with those two values; a failing x raises x's error first |
| `PointParsers.ItemPoint` | data_mining_project/data_mining/service/kmeans_algorithm.py:244-257 | a list gives what the comprehension over its entries gives (its numeric entries, or `float`'s OverflowError); anything that is neither list nor object gives nothing |
| `PointParsers.FailureSticks` | data_mining_project/data_mining/service/kmeans_algorithm.py:243-247 | once an item raises, the items after it are never looked at |
| `PointParsers.ParseListBounds` | data_mining_project/data_mining/service/kmeans_algorithm.py:242-258 | at most one point per item, and never an empty one |
| `PointParsers.ParseListFails` | data_mining_project/data_mining/service/kmeans_algorithm.py:243-258 | the parse raises exactly when some item raises |
| `PointParsers.FailingItem` | data_mining_project/data_mining/service/kmeans_algorithm.py:243-258 | a failed parse has an item that raised |
| `PointParsers.FailingItemFails` | data_mining_project/data_mining/service/kmeans_algorithm.py:243-258 | an item that raises makes the whole parse raise |
| `PointParsers.ParseListAppend` | data_mining_project/data_mining/service/kmeans_algorithm.py:242-258 | output order follows input order: a concatenation of item lists parses to the concatenation of the points |
| `PointParsers.XYIgnoresOtherKeys` | data_mining_project/data_mining/service/kmeans_algorithm.py:246-247 | an object with `x` and `y` yields exactly (float(x), float(y)), whatever its other keys |
| `PointParsers.XYRaises` | data_mining_project/data_mining/service/kmeans_algorithm.py:247 | a non-numeric `x` or `y` makes the item raise, with x's error when x fails |
| `PointParsers.ItemPointIgnoresMemberOrder` | data_mining_project/data_mining/service/kmeans_algorithm.py:244-252 | an object's point depends only on the dict it decodes to: not on the order its members were written in, nor on values a repeated key overwrote |
| `PointParsers.ObjectPointInKeyOrder` | data_mining_project/data_mining/service/kmeans_algorithm.py:248-250 | without an x/y pair, an object gives the numeric values of its dict in strictly ascending key order, one member per key |
| `PointParsers.ParsePointsFromList` | data_mining_project/data_mining/service/kmeans_algorithm.py:237-258 | the item loop with its appends computes exactly the parse, error included |
| `ClusteringViews.Len` | data_mining_project/data_mining/service/clustering_views.py:51 | `len()` is defined for strings, lists and dicts only, and is positive exactly for a truthy one |
| `ClusteringViews.Iterated` | data_mining_project/data_mining/service/clustering_views.py:57 | iteration is defined exactly where `len` is, yields `len` elements, a list's own items, and strings for a string or a dict |
| `ClusteringViews.GetOr` | data_mining_project/data_mining/service/clustering_views.py:37-39 | `data.get(key, default)`: the default when the key is absent, the stored value otherwise |
| `ClusteringViews.StringsParseToNothing` | data_mining_project/data_mining/service/kmeans_algorithm.py:243-258 | a list of strings parses to no points and no error |
| `ClusteringViews.ClusterStatus` | data_mining_project/data_mining/service/clustering_views.py:93-104 | a method other than POST is 405, any other exception (`except Exception`) is 500, and every other error — the guards and a ValueError — is 400 |
| `ClusteringViews.ReadClusterRequest` | data_mining_project/data_mining/service/clustering_views.py:34-71 | a body that is not an object is a 500; `k` and `max_iters` are `int()` of their fields (defaults 2 and 100), read in that order, and an `int()` that raises ends the request with that error; what passes the guards is a truthy point list with at least k raw items, k >= 1, and its parse: non-empty points of one dimension |
| `ClusteringViews.KMeansClusterView` | data_mining_project/data_mining/service/clustering_views.py:16-104 | the view builds the model, fits it and answers exactly as `ClusterOutcome` describes |
| `ClusteringViews.ClusterResponseGuarantees` | data_mining_project/data_mining/service/clustering_views.py:73-91 | a success echoes k and the parsed points and copies iterations, sse, centroids, labels, clusters and history from `fit`; hence k centroids, labels in [0, k), 1..max_iters rounds, and clusters that partition the points |
| `ClusteringViews.ClusterFailsOnlyInFit` | data_mining_project/data_mining/service/clustering_views.py:51-100 | past the guards the view fails exactly when k exceeds the parsed points (400) or max_iters is below 1 (500) |
| `ClusteringViews.ClusterGuardOrder` | data_mining_project/data_mining/service/clustering_views.py:41-54 | an empty point list, then k < 1, then fewer raw items than k, each with its own error |
| `ClusteringViews.ClusterParsedGuards` | data_mining_project/data_mining/service/clustering_views.py:56-71 | after the raw guards: a raising parse, then no parsed point, then mixed dimensions; accepted exactly when none applies |
| `ClusteringViews.ClusterDefaults` | data_mining_project/data_mining/service/clustering_views.py:37-39 | without `k` and `max_iters`, k is 2 and `max_iters` is 100 |
| `ClusteringViews.TextOrDictPointsParseToNothing` | data_mining_project/data_mining/service/clustering_views.py:37-62 | a string or dict passed as `points` gets past the raw guards but parses to nothing |
| `ClusteringViews.RawCountLetsTooFewPointsThrough` | data_mining_project/data_mining/service/clustering_views.py:51-75 | two raw items with k = 2, one of them junk, pass the guards with one point and then fail in `fit` with a 400 |
| `ClusteringViews.ZeroMaxItersPassesGuards` | data_mining_project/data_mining/service/clustering_views.py:39-100 | `max_iters` 0 passes every guard and ends in the 500 answer |
| `ClusteringViews.RepeatedKeyTakesLastValue` | data_mining_project/data_mining/service/clustering_views.py:34-38 | `{"points": [[1, 2]], "k": 5, "k": 1}` is read with k = 1 and accepted |
| `ClusteringViews.OverflowingCoordinateIsInternal` | data_mining_project/data_mining/service/clustering_views.py:93-100 | a coordinate of 2^1024 - 2^970 makes the parse raise OverflowError, answered by the generic handler as 500 |
| `ClusteringViews.GuardsAccept` | data_mining_project/data_mining/service/clustering_views.py:36-71 | a request whose fields pass every guard is accepted with its parsed points, k and `max_iters` |
| `ClusteringViews.IntFieldErrors` | data_mining_project/data_mining/service/clustering_views.py:38-39 | an `int()` of `k` or `max_iters` that raises answers at once: a string that is not an integer is a 400, null, a list or a dict a 500 |
| `ClusteringViews.MatrixOf` | data_mining_project/data_mining/service/clustering_views.py:142 | `np.array(centroids)`: one row per entry, all of one length, each coordinate the float of its entry |
| `ClusteringViews.ReadPredictRequest` | data_mining_project/data_mining/service/clustering_views.py:118-142 | what passes is a numeric centroid matrix, every entry of which converts to a float, with k = len(centroids) >= 1 rows and the parse of the points, all of the centroids' dimension |
| `ClusteringViews.KMeansPredictView` | data_mining_project/data_mining/service/clustering_views.py:108-160 | the view installs the supplied centroids and answers exactly as `PredictOutcome` describes |
| `ClusteringViews.PredictViewAssigns` | data_mining_project/data_mining/service/clustering_views.py:136-151 | a success echoes the parsed points and gives each the unique first nearest of the len(centroids) supplied centroids |
| `ClusteringViews.PredictGuardOrder` | data_mining_project/data_mining/service/clustering_views.py:122-133 | empty centroids are rejected first, then an empty point list |
| `ClusteringViews.NothingParsedPredictsNothing` | data_mining_project/data_mining/service/clustering_views.py:135-151 | points that all parse to nothing give an empty success, not an error |
| `ClusteringViews.PredictGuardsAccept` | data_mining_project/data_mining/service/clustering_views.py:122-151 | non-empty numeric centroids and a non-empty point list whose parse has the centroids' dimension are accepted, and every parsed point is labelled against those centroids |
| `ClusteringViews.ExampleSelection` | data_mining_project/data_mining/service/clustering_views.py:170-182 | only GET, and only `bai1` (also the default) and `bai2` select a file: `Bai1_k2_data.csv` with k = 2 and `Bai2_k3_data.csv` with k = 3 |
| `ClusteringViews.SelectExample` | data_mining_project/data_mining/service/clustering_views.py:170-182 | a method other than GET is refused; a GET succeeds exactly for `bai1`, `bai2` or no `file` parameter, any other name is refused as unknown; k is 3 for `bai2` and 2 otherwise |
| `ClassificationViews.ConfigOrderCoversConfigs` | data_mining_project/data_mining/service/classification_decisionTrees_views.py:18-35 | the import-time loop visits exactly the configured models, each once |
| `ClassificationViews.Dict.Copy` | data_mining_project/data_mining/service/classification_decisionTrees_views.py:108 | a copy is a new dict with the same entries |
| `ClassificationViews.Dict.Pop` | data_mining_project/data_mining/service/classification_decisionTrees_views.py:113 | `pop` returns the value and removes only that key |
| `ClassificationViews.Dict.Set` | data_mining_project/data_mining/service/classification_decisionTrees_views.py:114 | item assignment stores the value under the key and changes nothing else |
| `ClassificationViews.NormalizeInputData` | data_mining_project/data_mining/service/classification_decisionTrees_views.py:103-117 | works on a fresh copy, which ends with the normalised entries; the caller's dict is untouched |
| `ClassificationViews.NormalizeRenamesTemp` | data_mining_project/data_mining/service/classification_decisionTrees_views.py:111-114 | for GINI_CART and NAIVE_BAYES, `Temp` moves to `Temperature`, overwriting it, and every other key keeps its value |
| `ClassificationViews.NormalizeIdentity` | data_mining_project/data_mining/service/classification_decisionTrees_views.py:108-117 | for ID3_Entropy, or without `Temp`, the result equals the input |
| `ClassificationViews.FeatureRow` | data_mining_project/data_mining/service/classification_decisionTrees_views.py:79 | one cell per configured feature, in the configured order, named by it and holding the request's value for it or the empty string |
| `ClassificationViews.FeatureRowIgnoresExtraKeys` | data_mining_project/data_mining/service/classification_decisionTrees_views.py:79 | the row depends only on the configured features; extra keys are ignored |
| `ClassificationViews.MissingFeatureIsEmpty` | data_mining_project/data_mining/service/classification_decisionTrees_views.py:79 | a missing feature is sent as the empty string |
| `ClassificationViews.TempFillsTemperatureFeature` | data_mining_project/data_mining/service/classification_decisionTrees_views.py:19-34 | after normalisation `Temp` fills `Temperature` for GINI_CART and NAIVE_BAYES and `Temp` for ID3_Entropy |
| `ClassificationViews.Id3IgnoresTemperature` | data_mining_project/data_mining/service/classification_decisionTrees_views.py:25-29 | ID3_Entropy reads only `Temp`: a request naming `Temperature` sends it an empty cell |
| `ClassificationViews.Id3RawRowIsNormalizedRow` | data_mining_project/data_mining/service/classification_decisionTrees_views.py:159-161 | passing the raw request to the ID3 model gives the same row as the normalised one |
| `ClassificationViews.ModelName` | data_mining_project/data_mining/service/classification_decisionTrees_views.py:137-183 | every endpoint names a configured model |
| `ClassificationViews.ModelPath` | data_mining_project/data_mining/service/classification_decisionTrees_views.py:53-56 | a model file's path is the base directory, then `/data_mining/models/`, then the file name |
| `ClassificationViews.ModelPathInjective` | data_mining_project/data_mining/service/classification_decisionTrees_views.py:53-56 | two file names give the same path exactly when they are the same name, so each cache entry is read from its own file |
| `ClassificationViews.ModelStore.constructor` | data_mining_project/data_mining/service/classification_decisionTrees_views.py:37-39 | both caches start empty |
| `ClassificationViews.ModelStore.LoadModel` | data_mining_project/data_mining/service/classification_decisionTrees_views.py:42-64 | no-op when both caches hold the name; ValueError for an unconfigured name; otherwise loads the pipeline, then the encoder, caching each as it loads, and succeeds exactly when both load; every other model's entries stay as they were |
| `ClassificationViews.ModelStore.LoadAll` | data_mining_project/data_mining/service/classification_decisionTrees_views.py:90-96 | the import-time loop gets through exactly when every configured model was already cached or both its files load, and then every configured model is cached; otherwise it stops at the first model in `MODEL_CONFIGS` order that was not cached and does not load: the models before it are cached and those after it are untouched; caches only grow |
| `ClassificationViews.ModelStore.RunSinglePrediction` | data_mining_project/data_mining/service/classification_decisionTrees_views.py:67-88 | succeeds exactly when the model was cached before the call or is configured and both its files load; a cached model leaves the caches unchanged, a load caches the pipeline once it loads and the encoder once both load, and every other model's entries stay as they were; on success the cached pipeline and encoder (those loaded from its files) get the feature row of the given data |
| `ClassificationViews.ModelStore.PredictView` | data_mining_project/data_mining/service/classification_decisionTrees_views.py:125-192 | each endpoint succeeds exactly when its model was cached or both its files load, changes only its own model's cache entries, hands the pipeline and encoder loaded from its files the feature row of the normalised request |

## Left out

- HTTP and JSON plumbing: the request is reduced to whether it is a POST or GET and to its decoded body (`None` when the body is not JSON). An object in the body keeps its members as written; `Json.DictOf` is the dict `json.loads` builds from them. The response is reduced to an error value or the fields it carries. The JSON text syntax, `JsonResponse`, error messages and CSRF are not modelled.
- The CSV read in `load_example_data_view`: the path, the 404 for a missing file and the loop over CSV rows are file I/O. Only the selector is modelled (`ClusteringViews.SelectExample`).
- `joblib.load`, the pandas DataFrame, `pipeline.predict` and `encoder.inverse_transform` are foreign calls. The loader is the parameter `load`. A prediction ends with the `PipelineCall` it would hand to the trained objects.
- Floating point: coordinates are `real`. `round(sse, 4)` in the response is display rounding and is not applied.
- The square root in the shift is the parameter `sqrt`. The argmin and the SSE use the squared distance. `np.random.choice` is the parameter `indices`. The string syntax of Python's `float()` and `int()` is the parameters `parseFloat` and `parseInt`.
- `verbose` printing in `fit`, and the message printed by the import-time loading loop.
- `os.path.join` is modelled as joining with `/`.
- ClassificationViews.ModelStore.RunSinglePrediction: the model files are taken as unchanging while the server runs, because `load` is a fixed function of the path. So a cached pipeline never goes stale after its file is replaced (source lines 44-45 return from the cache without looking at the file), and a model whose files failed to load never loads later once they appear (line 72 retries the load on every request). The same holds for `LoadModel`, `LoadAll` and `PredictView`.
- Dict key order in the classifier requests: a request is a map. The feature row takes its order from the configuration, so nothing observable depends on the request's key order.
- The classifier endpoints' request handling: a non-POST method (405), a body that is not a JSON object, and the 400 wrapping of exceptions. `ClassificationViews.ModelStore.PredictView` starts from the request dict.
- KMeans.KMeansClustering.Fit: a model fitted before and then refitted with `max_iters` below 1 would reuse its stale labels for the final SSE. Its precondition leaves that case out. Every view builds a fresh model.
- ClusteringViews.ReadClusterRequest: newer numpy raises ValueError at `np.array(points)` for points of mixed length, before the explicit dimension check. The model answers with the explicit check's error; both are 400 answers.
- ClusteringViews.ReadPredictRequest: numpy broadcasting can make some malformed predictions succeed. Examples are a flat list of numbers as centroids, or one-dimensional points against wider centroids. The model rejects every centroid list that is not a numeric matrix of the points' dimension with the generic 400 answer.
- ClusteringViews.ReadPredictRequest: when no point parses, `predict` never touches the centroids, so the program answers an empty labelling for any truthy centroids that `np.array` accepts (a flat list of numbers, say). The model gives that answer only for a numeric centroid matrix and rejects the rest with 400.
- Json.FloatOf: JSON's non-finite values (`Infinity`, `NaN`, and literals such as `1e400` that overflow to infinity) are not values of `JFloat`, whose payload is a finite `real`. So `float` of an infinity or a NaN, and the OverflowError (500) of `int()` on an infinity in `k` or `max_iters`, are not modelled.
- SSE monotonicity across rounds is not stated, because the code does not rely on it.
