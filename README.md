# Heart-disease prediction backend: a Dafny model

This project models the core of a backend that predicts heart disease. The
backend trains its global model by federated learning, watches every patient
for concept drift, swaps in a specialised model when drift is found, and
evaluates and monitors the models it serves. The Dafny model covers nine
Python files, one module per file, plus a shared `Common` module:

- `Aggregation` (backend/federated/aggregation.py): FedAvg, FedProx, FedNova,
  Krum, trimmed mean, coordinate-wise median, metric-weighted averaging and
  the plain average over state dicts. A state dict is a map from parameter
  name to its flattened tensor.
- `Server` (backend/federated/server.py): the buffer of pending client
  updates, the quorum of three clients, the round counter, the training
  history and the save cadence.
- `Detector` (backend/drift/detector.py): the per-patient observation
  buffer, the four detection methods with their sample-count guards, the
  vote that combines them, and the typing of a drift by physiological
  category.
- `Monitor` (backend/drift/monitor.py): the alert rules on drift patterns,
  model performance and system health, the clean-up of old records, and the
  alert log with its file capped at 1000 entries.
- `Swapper` (backend/services/model_swapper.py): the table from drift type
  to specialised model, the per-patient active model, the swap log capped at
  100 entries, and the threshold rule that suggests a model.
- `Prediction` (backend/services/prediction_service.py): the bookkeeping of
  `predict`, the risk bands of the disease probability and the confidence of
  a prediction.
- `Evaluation` (backend/services/evaluation_service.py): the alert rule on
  metric thresholds, the per-day, per-week and per-model buckets, the
  performance summary and the accuracy trend.
- `Scaler` (backend/utils/scaler.py): min-max scaling, standardisation, fit
  and the inverse transform of the thirteen features.
- `Helpers` (backend/utils/helpers.py): request validation, the combined
  risk score, the clinical reading of single features and the API response.

Conventions used throughout:

- Numbers are `real`. Python's integer truncation, `round`, negative-index
  slices (`s[-n:]`) and string ordering are written out in `Common`.
- Library calls whose mathematics is out of scope are parameters or inputs:
  square roots, logarithms, the statistical tests, k-means,
  `np.std`/`np.var`, the trained classifiers, and loading a model from disk.
  The wall clock is a parameter `now`.
- Where the Python object changes its fields in place, the model has two
  parts. A state value with functions says what one call does to that
  state. A `class` holds the same state in fields, and its methods are
  proved to follow those functions. Lemmas about the functions carry the
  properties the code promises.
- The model follows the code as written wherever the code and its
  documentation disagree. For example, the detector copies a history entry
  before the drift type is attached, so the monitor groups every drift under
  `unknown`. The accuracy trend divides a sample covariance (ddof 1) by a
  population variance (ddof 0), so a linear series with slope b has a trend
  of b*m/(m-1) (`Evaluation.SlopeOfLine`).

## Model

| member | source | states |
|---|---|---|
| Common.PyHead | backend/federated/aggregation.py:123 | Python's `s[:m]` for any int: a prefix of the list, m elements for a non-negative m (all when shorter), and the last −m elements dropped for a negative m |
| Common.PyTail | backend/drift/detector.py:161-163 | Python's `s[-n:]` for any int: a suffix of the list, n elements for a positive n (all when shorter), the whole list for 0, and the first −n elements dropped for a negative n |
| Common.Clip | backend/utils/scaler.py:121 | `max(lo, min(hi, v))` lies in [lo, hi] and leaves a value already inside unchanged |
| Common.RoundTo | backend/utils/helpers.py:131 | `round(x, d)` is never further from x than half a unit in the last place |
| Common.MinOf | backend/utils/scaler.py:74 | the minimum is an element and below every element |
| Common.MaxOf | backend/utils/scaler.py:75 | the maximum is an element and above every element |
| Common.Sort | backend/federated/aggregation.py:152 | the sort is ascending and a permutation of its input |
| Common.MeanBounds | backend/services/evaluation_service.py:288 | a mean lies between any common lower and upper bound of its inputs |
| Common.LexLessTransitive | backend/drift/monitor.py:246 | Python's string comparison is transitive |
| Aggregation.UnionKeys | backend/federated/aggregation.py:28-30 | the accumulator's keys are exactly the keys some client holds |
| Aggregation.UnionSize | backend/federated/aggregation.py:28-30 | with compatible clients the accumulator holds each key at the size every holder of that key has |
| Aggregation.UniformUnion | backend/federated/aggregation.py:28-30 | clients of one architecture are compatible, and the accumulator has that architecture |
| Aggregation.SameShapesCompatible | backend/federated/aggregation.py:28-31 | clients pairwise of the same shapes are compatible together or not at all |
| Aggregation.SameShapesUnion | backend/federated/aggregation.py:28-30 | clients pairwise of the same shapes give accumulators of the same shape |
| Aggregation.WeightedCombinationKeys | backend/federated/aggregation.py:25-31 | the weighted combination holds exactly the keys some client holds |
| Aggregation.ClashIsIncompatible | backend/federated/aggregation.py:28-31 | a client whose tensor clashes in size with the accumulator's under some key makes the clients incompatible |
| Aggregation.CompatibleStep | backend/federated/aggregation.py:28-31 | a client that fits the accumulator keeps the clients seen so far compatible |
| Aggregation.WeightedSum | backend/federated/aggregation.py:23-31 | the accumulation loop (zeros for a new key, then `value * factor` added, key by key over every client) fails exactly when the clients are incompatible, and otherwise computes the coordinate-wise weighted combination over the union of their keys, each key summed over the clients that hold it |
| Aggregation.FedAvg | backend/federated/aggregation.py:19-33 | no clients give `{}`; an empty sample list raises IndexError, a zero total ZeroDivisionError; fewer counts than clients raise IndexError after the counted clients, or a size error among those first; otherwise incompatible clients raise and compatible ones give the union combination weighted by `samples[i] / total`, within the clients' range when the counts are non-negative |
| Aggregation.FedAvgWeightsSumToOne | backend/federated/aggregation.py:22-26 | the weights `samples[i] / total` sum to one |
| Aggregation.ConvexCombinationInRange | backend/federated/aggregation.py:25-31 | a combination with non-negative weights summing to one lies, coordinate by coordinate, between the clients' smallest and largest value, and has the shape of the union of their keys |
| Aggregation.FedAvgEqualSamplesIsMean | backend/federated/aggregation.py:19-33 | clients with equal sample counts are averaged plainly (FedAvg equals the simple average) |
| Aggregation.EqualWeightsIsMean | backend/federated/aggregation.py:215-228 | weights of 1/n each make the weighted combination the plain mean |
| Aggregation.KeyFaultNone | backend/federated/aggregation.py:209-211 | walking a dict's keys against another dict raises nothing exactly when the other holds every walked key at the same size |
| Aggregation.KeyFaultAdmitted | backend/federated/aggregation.py:47-53 | a client's key walk against the global dict raises nothing exactly when the global dict holds each of its keys at the client's size |
| Aggregation.ProxFaultNone | backend/federated/aggregation.py:44-53 | FedProx meets no error from a client on exactly when every later client has a sample count and is admitted by the global dict |
| Aggregation.AdmittedCompatible | backend/federated/aggregation.py:47-53 | clients all admitted by one global dict are compatible, and so are their pulled versions |
| Aggregation.FedProx | backend/federated/aggregation.py:36-55 | the same empty, IndexError and ZeroDivisionError cases as FedAvg; then the first client past the counts raises IndexError and the first key a client holds that the global dict lacks (or holds at another size) raises, in the loop's order; with no such error the result is the union combination of the pulled clients `value - mu * (value - global)` weighted by sample share |
| Aggregation.FedProxIsBlend | backend/federated/aggregation.py:44-53 | for clients of one architecture with one count per client FedProx is `(1 - mu) * FedAvg + mu * global`; at mu = 0 it is FedAvg |
| Aggregation.ProximalZero | backend/federated/aggregation.py:52-53 | with mu = 0 the proximal pull `value - mu * (value - global)` leaves every client as it is |
| Aggregation.FedProxZeroIsFedAvg | backend/federated/aggregation.py:36-55 | for clients of any key sets, whenever FedProx with mu = 0 gets past its errors the clients have their counts and are compatible, so FedAvg succeeds too, with the same result |
| Aggregation.BlendZero | backend/federated/aggregation.py:52-53 | blending with mu = 0 leaves the average unchanged |
| Aggregation.FedNova | backend/federated/aggregation.py:58-93 | the three lists are zipped (the shortest decides the client count), each client normalised; no client gives `{}`, incompatible zipped clients raise, otherwise the plain average of the normalised clients over the union of their keys |
| Aggregation.FedNovaWithoutGradientsIsMean | backend/federated/aggregation.py:69-79 | when no client reports a positive gradient norm, FedNova is the plain average of the zipped clients |
| Aggregation.SquaredDistanceSymmetric | backend/federated/aggregation.py:205-212 | the summed squared difference is symmetric and zero from a dict to itself |
| Aggregation.PairFaultNone | backend/federated/aggregation.py:109-116 | the pair loop raises nothing from pair (i, j) on exactly when every pair it still visits is comparable over the lower client's keys |
| Aggregation.PairFaultNoneIsKrumInput | backend/federated/aggregation.py:109-116 | the whole pair loop raises nothing exactly when every pair of clients can be measured |
| Aggregation.FillRow | backend/federated/aggregation.py:110-116 | one row of the pair loop writes the distance of clients i and j at [i, j] and [j, i] for every j > i, stops at the first pair that raises, and leaves every other entry unchanged |
| Aggregation.DistanceMatrix | backend/federated/aggregation.py:107-116 | the first pair in row-major order that cannot be measured raises; otherwise the fresh n-by-n matrix holds at [p, q] the distance of clients p and q (zero on the diagonal) |
| Aggregation.DistanceEntryIsDistance | backend/federated/aggregation.py:107-116 | every matrix entry is the Euclidean distance of the two clients, symmetric and non-negative |
| Aggregation.MatrixRows | backend/federated/aggregation.py:122 | the rows of the filled matrix are the clients' distance rows |
| Aggregation.ScoreRows | backend/federated/aggregation.py:119-124 | each score is `np.sum(sorted_dists[:n-f-2])` of the client's sorted row, with Python's slice for any f |
| Aggregation.ArgMin | backend/federated/aggregation.py:127 | `np.argmin`: the first index holding the minimum score |
| Aggregation.Krum | backend/federated/aggregation.py:96-131 | for any integer tolerance f: with n <= 2f + 1 the result is the simple average (or its error) and nobody is chosen; otherwise a pair that cannot be measured raises, no clients at all (reachable only with a negative f) make `np.argmin` raise, and else the chosen client is the first minimiser of the scores and is returned unchanged |
| Aggregation.KrumScoreCountsSelf | backend/federated/aggregation.py:119-124 | a sorted distance row starts with the client's own zero distance, so whenever n - f - 2 >= 1 the score sums that zero and only the other counted entries (the n - f - 3 nearest other clients for f >= 0) |
| Aggregation.NegativeToleranceScoresWholeRow | backend/federated/aggregation.py:121-123 | a tolerance of −2 or below makes the slice the whole row, so the score is the client's total distance to every client |
| Aggregation.TruncateToInt | backend/federated/aggregation.py:138 | Python's `int()` on a float truncates toward zero |
| Aggregation.MedianOfIsMiddleValue | backend/federated/aggregation.py:166 | `torch.median` (the lower median) is one of the values, with the lower half at or below it and the upper half at or above it |
| Aggregation.StackFaultNone | backend/federated/aggregation.py:163-165 | stacking the clients' tensors key by key raises nothing exactly when every client holds each key of the first client at the first client's size |
| Aggregation.MedianIsAClientValue | backend/federated/aggregation.py:159-168 | the median raises exactly on no clients or unstackable ones; otherwise it has the first client's shape and every coordinate is one of the clients' values there, hence within their range |
| Aggregation.SortedRunInRange | backend/federated/aggregation.py:152-154 | the mean of any non-empty run of the sorted column lies within the column's range |
| Aggregation.TrimmedOfInRange | backend/federated/aggregation.py:152-154 | the mean of `sorted[k:n-k]`, for a positive, zero or negative k, lies within the column's range |
| Aggregation.TrimmedOfZeroIsMean | backend/federated/aggregation.py:152-154 | trimming nothing leaves the plain mean |
| Aggregation.TrimmedMeanInRange | backend/federated/aggregation.py:134-156 | whichever branch it takes, the trimmed mean raises exactly on no clients or unstackable ones, and otherwise has the first client's shape and lies within the clients' range |
| Aggregation.TrimmedMeanWithoutTrimIsMean | backend/federated/aggregation.py:137-154 | when `int(ratio * n)` is zero every coordinate of the trimmed mean is the plain mean of the clients there; for clients of one architecture it equals the simple average |
| Aggregation.Normalize | backend/federated/aggregation.py:188-192 | the weights are divided by their sum when it is positive and shared equally otherwise: a non-empty list then sums to one, and non-negative weights stay non-negative |
| Aggregation.AdaptiveAggregation | backend/federated/aggregation.py:171-202 | the clients are combined over the union of their keys with the normalised weights `accuracy * log(samples) / (loss + 1e-8)`; incompatible clients raise, and a client past the reports raises IndexError when it has a key, after the reported clients are summed; with one report per client and non-negative weights the result lies within the clients' range |
| Aggregation.SimpleAverage | backend/federated/aggregation.py:215-228 | no clients give `{}`; incompatible clients raise; otherwise the coordinate-wise mean over the union of keys, within the clients' range |
| Aggregation.MeanMapInRange | backend/federated/aggregation.py:225-226 | the coordinate-wise mean lies within the clients' range |
| Server.Initial | backend/federated/server.py:20-44 | a fresh server is well formed, at round 0, with no pending client |
| Server.MakeUpdate | backend/federated/server.py:88-93 | the stored record keeps the weights and metrics, and `samples` is `samples_used` or 0 when that is absent |
| Server.ResubmissionKeepsCount | backend/federated/server.py:88-93 | storing an update overwrites the client's entry: a known client keeps the pending count, a new one adds one, other clients' entries are untouched |
| Server.Put | backend/federated/server.py:88-93 | storing an update keeps the state well formed: a new id goes to the end, a known id keeps its place |
| Server.Register | backend/federated/server.py:83-105 | registering keeps the state well formed (distinct pending ids, aligned history lists) |
| Server.RegisterBelowQuorumWaits | backend/federated/server.py:97-105 | below `min_clients` = 3 the call only stores the update and answers `waiting` with the pending count and 3; round, history and global weights are unchanged |
| Server.RegisterAtQuorumAggregates | backend/federated/server.py:97-99 | reaching the quorum runs `aggregate_updates` within the same call, which advances the round by one |
| Server.InsufficientClientsChangesNothing | backend/federated/server.py:116-120 | `aggregate_updates` below the quorum answers `insufficient_clients` and changes nothing |
| Server.AggregateAdvancesRound | backend/federated/server.py:122-123 | with a quorum the round advances by exactly one whether the aggregation then succeeds or raises |
| Server.SuccessfulRound | backend/federated/server.py:122-156 | a successful round loads the new weights, appends one entry to each history list, saves exactly when the new round is a multiple of 10, empties the buffer and reports the round, the pending count and the method |
| Server.FailedRoundKeepsBuffer | backend/federated/server.py:158-163 | a failed aggregation keeps the buffer, the history and the saves although the round has advanced |
| Server.UnknownMethodIsFedAvg | backend/federated/server.py:126-131 | any method name other than `weighted_avg` aggregates as `fedavg` |
| Server.SampleWeights | backend/federated/server.py:170-178 | the weights `samples / total` fail with ZeroDivisionError exactly when clients are present and the total is zero |
| Server.ServerFedAvgIsFedAvg | backend/federated/server.py:165-185 | the server's FedAvg is the strategy module's FedAvg on the pending clients in insertion order, and with non-negative sample counts stays within their range |
| Server.LastOrZero | backend/federated/server.py:194 | `metrics.get('accuracy', [0])[-1]`: 0 for an absent list, the last entry of a present one, IndexError for a present empty list |
| Server.Lasts | backend/federated/server.py:193-196 | the collected last accuracies have one entry per client, and a failure is the empty-list IndexError |
| Server.LastsFailsAt | backend/federated/server.py:193-196 | one client with a present but empty accuracy list makes the whole collection raise |
| Server.LastsPointwise | backend/federated/server.py:193-196 | collecting the last accuracies succeeds exactly when each client's does, and then holds each client's last value in order |
| Server.AccuracyWeights | backend/federated/server.py:198-209 | one accuracy weight per client |
| Server.AccuracyWeightsSumToOne | backend/federated/server.py:198-209 | the accuracy weights (accuracy over total, or 1/n each when the total is 0) sum to one |
| Server.AccuracyWeightsShares | backend/federated/server.py:198-209 | non-negative accuracies give non-negative weights; a zero total gives every client 1/n |
| Server.WeightedAvgInRange | backend/federated/server.py:187-222 | accuracy weighting with non-negative last accuracies succeeds and stays within the clients' range |
| Server.ZeroAccuracyIsPlainMean | backend/federated/server.py:199-204 | clients whose last accuracies total zero are averaged plainly |
| Server.Combine | backend/federated/server.py:211-220 | the accumulation over the union of the clients' keys succeeds exactly when the clients are compatible (any two holding one key hold it at one size), and then is the weighted combination |
| Server.Aggregate | backend/federated/server.py:114-163 | `aggregate_updates` keeps the state well formed in every branch |
| Server.Load | backend/federated/server.py:133-163 | loading the new weights or the exception keeps the state well formed |
| Server.LoadCopiesMatching | backend/federated/server.py:134 | strict `load_state_dict` keeps the architecture, copies every tensor the dict holds at the model's size and keeps every other, whether it then raises or not; it raises exactly when the dict's shape differs, and otherwise the model holds the dict |
| Server.Finish | backend/federated/server.py:137-156 | the history append, the periodic save and the clearing keep the state well formed |
| Server.MetricsOf | backend/federated/server.py:224-244 | the round metrics carry the current round, the pending count and the client ids in insertion order |
| Server.MeanOrZero | backend/federated/server.py:294-297 | `np.mean(xs) if xs else 0`: 0 for no entries, otherwise between the smallest and the largest |
| Server.Status | backend/federated/server.py:284-300 | the status reports the round, the pending count, the quorum, the method and the number of rounds, with an average accuracy within the history's range and 0 participation for an empty history |
| Server.FederatedServer.constructor | backend/federated/server.py:20-44 | the server object starts in the state `Initial` |
| Server.FederatedServer.RegisterClientUpdate | backend/federated/server.py:83-112 | the fields change as `Register` says and the call returns its outcome |
| Server.FederatedServer.AggregateUpdates | backend/federated/server.py:114-163 | the fields change as `Aggregate` says and the call returns its outcome |
| Server.FederatedServer.NewGlobalWeights | backend/federated/server.py:125-131 | the method switch returns the weights of the selected rule |
| Server.FederatedServer.LoadWeights | backend/federated/server.py:133-163 | `load_state_dict` of the new weights (partly copied when refused), then the metrics, the save and the clearing, as `Load` says |
| Server.FederatedServer.FinishRound | backend/federated/server.py:137-156 | the metrics, the periodic save and the clearing of the buffer, as `Finish` says |
| Server.FederatedServer.FedAvgAggregation | backend/federated/server.py:165-185 | the total-then-accumulate loops compute the FedAvg rule on the pending updates |
| Server.FederatedServer.WeightedAverageAggregation | backend/federated/server.py:187-222 | the accuracy pass and the accumulation compute the accuracy-weighted rule on the pending updates |
| Server.FederatedServer.CalculateAggregationMetrics | backend/federated/server.py:224-252 | returns the round metrics and appends one entry to each history list; when a metric list is empty it raises and the history is unchanged |
| Detector.Column | backend/drift/detector.py:359 | `features[:, c]` has one entry per buffered row |
| Detector.ExtractPatternMetrics | backend/drift/detector.py:349-381 | an empty window yields no metric; each metric group is present only when the rows are wide enough |
| Detector.Deviation | backend/drift/detector.py:329-334 | the relative deviation from a profile range is non-negative and zero exactly inside the range |
| Detector.Matches | backend/drift/detector.py:326-327 | at most one matched range per metric |
| Detector.DeviationsShape | backend/drift/detector.py:324-335 | one deviation per metric the current category has a range for, each non-negative and zero exactly for a metric inside its range |
| Detector.CustomVerdictRule | backend/drift/detector.py:337-339 | the average deviation is non-negative, drift is reported exactly above 0.3, the confidence is the average capped at 1, and no matched metric means no drift with confidence 0 |
| Detector.InsideProfileIsQuiet | backend/drift/detector.py:324-339 | metrics all inside the category's ranges give zero deviations and a zero average |
| Detector.CustomConfidence | backend/drift/detector.py:305-347 | the custom pattern test always reports a confidence in [0, 1] |
| Detector.Votes | backend/drift/detector.py:393-395 | the drift votes never exceed the number of results |
| Detector.Confidences | backend/drift/detector.py:396 | one confidence per result, in order |
| Detector.EnsembleRule | backend/drift/detector.py:383-413 | the ensemble reports drift exactly when more than half the methods vote for it and the mean confidence exceeds 0.6; its confidence is that mean, which stays in [0, 1] when every method's does |
| Detector.EnsembleExample | backend/drift/detector.py:400-405 | three of four votes with confidences 0.9, 0.8, 0.7 and 0.1 give a detection with confidence 0.625 |
| Detector.CombinedConfidence | backend/drift/detector.py:383-413 | combining four confidences in [0, 1] gives one in [0, 1] |
| Detector.InRangeCount | backend/drift/detector.py:431-437 | the in-range count never exceeds the matched count |
| Detector.CategoryScore | backend/drift/detector.py:439-440 | a category has a score exactly when some metric matches it, and the score lies in [0, 1] |
| Detector.Winner | backend/drift/detector.py:427-443 | the winning category, when there is one, is one of the categories |
| Detector.WinnerIsFirstMaximum | backend/drift/detector.py:424-443 | the best match is the first category with the highest score and that score is positive; without a positive score the answer is `typical` with score 0 |
| Detector.WinnerStep | backend/drift/detector.py:439-443 | one iteration replaces the best match only on a strictly higher score of a category with a match |
| Detector.NewPatient | backend/drift/detector.py:131-144 | a new patient starts in `typical` with empty buffers, no category history and no cluster centers |
| Detector.TailLength | backend/drift/detector.py:161 | `s[-n:]` with a positive n keeps at most n entries, exactly n when the list is that long |
| Detector.TailKeepsLast | backend/drift/detector.py:161-163 | `s[-n:]` of a non-empty list with a non-negative n keeps its last element |
| Detector.ObserveAppends | backend/drift/detector.py:150-163 | recording an observation keeps the three buffers aligned, makes the features a suffix of the old buffer plus the new vector, and with a non-negative window ends the buffers with the new vector, prediction and time; nothing else in the record changes |
| Detector.ObserveKeepsWindow | backend/drift/detector.py:160-163 | with a positive window a buffer of at most twice the window stays so, and one that overflows is cut to exactly the window |
| Detector.ObserveWithinWindow | backend/drift/detector.py:160-163 | the same bound, stated for any window |
| Detector.ZeroWindowKeepsEverything | backend/drift/detector.py:160-163 | a zero window never cuts, since `[-0:]` is the whole list |
| Detector.SwitchRule | backend/drift/detector.py:445-453 | the category changes, and its history grows by one entry with the new category, time and score, exactly when the best match differs from it and scores above 0.7; otherwise the record is unchanged |
| Detector.AppendCapped | backend/drift/detector.py:467-471 | appending to the detection history keeps at most 100 entries, the newest last, as a suffix of the old history plus the entry; below the cap nothing is dropped |
| Detector.GuardsAreQuiet | backend/drift/detector.py:170-171 | the statistical and distribution tests report no drift below twice the window, the clustering test below 50 samples, and a first clustering run reports no drift with confidence 0 |
| Detector.UnknownMethodIsStatistical | backend/drift/detector.py:100-104 | a method name outside the four, other than `auto`, runs the statistical test |
| Detector.TestsConfidence | backend/drift/detector.py:165-303 | with tests whose confidences lie in [0, 1], the guarded tests report confidences in [0, 1] |
| Detector.RunAllConfidence | backend/drift/detector.py:92-99 | `auto` reports a confidence in [0, 1] |
| Detector.RunMethodConfidence | backend/drift/detector.py:91-104 | every method the dispatch selects reports a confidence in [0, 1] |
| Detector.InitialDetector | backend/drift/detector.py:18-58 | a new detector tracks no patient and is well formed |
| Detector.ReplaceKeepsWellFormed | backend/drift/detector.py:150-163 | replacing a tracked patient's record and history by bounded ones keeps the state well formed |
| Detector.Admit | backend/drift/detector.py:76-77 | after the admission gate the patient is tracked and the state well formed |
| Detector.Record | backend/drift/detector.py:150-163 | `_update_patient_data` changes only the patient's record |
| Detector.RecordKeepsWellFormed | backend/drift/detector.py:150-163 | recording keeps every buffer aligned and within twice the window |
| Detector.Prepare | backend/drift/detector.py:75-80 | admission then recording keeps the state well formed and tracks the patient |
| Detector.Detect | backend/drift/detector.py:60-129 | a call keeps the state well formed and leaves the patient tracked with a history |
| Detector.Assess | backend/drift/detector.py:91-121 | past the data gate the state stays well formed and no patient is added |
| Detector.Conclude | backend/drift/detector.py:106-121 | after the dispatch the state stays well formed |
| Detector.Store | backend/drift/detector.py:106-107 | storing changes only the patient's cluster centers flag and appends the result to its capped history |
| Detector.Classify | backend/drift/detector.py:110-112 | a detected drift is typed by the best match on the recent window, and the patient is switched by the switch rule; the history is untouched |
| Detector.ConcludeRecords | backend/drift/detector.py:106-129 | after the dispatch the buffer stays; an exception records nothing; a completed run appends its result to the history |
| Detector.ConcludeQuiet | backend/drift/detector.py:118-119 | a run without drift reports the type `none` and keeps the category |
| Detector.ConcludeTyped | backend/drift/detector.py:110-112 | a run with drift reports the best match as its type and the category follows the switch rule |
| Detector.AssessRecords | backend/drift/detector.py:91-129 | past the data gate the buffer stays; an exception records nothing; a completed run appends its result |
| Detector.AssessQuiet | backend/drift/detector.py:118-119 | past the data gate a run without drift reports `none` and keeps the category |
| Detector.AssessTyped | backend/drift/detector.py:110-112 | past the data gate a detected drift is typed by the best match and the category follows the switch rule |
| Detector.NewPatientStartsTypical | backend/drift/detector.py:131-146 | admitting an unseen patient adds it at the end, as `typical` with empty buffers and an empty detection history |
| Detector.InsufficientDataGate | backend/drift/detector.py:82-89 | the call answers `Insufficient data` exactly when fewer than a window of samples are buffered, and then reports no drift, confidence 0, the sample count, and an unchanged detection history |
| Detector.FailureRecordsNothing | backend/drift/detector.py:123-129 | an exception reports no drift with confidence 0 and records no detection |
| Detector.CallRecordsObservation | backend/drift/detector.py:79-80 | every call records the observation, whatever follows |
| Detector.AssessedCallRecords | backend/drift/detector.py:106-107 | a completed detection is appended to the patient's history, which stays within 100 entries |
| Detector.QuietCallKeepsCategory | backend/drift/detector.py:118-119 | without a detection the drift type is `none` and the category stays |
| Detector.DetectedCallTyping | backend/drift/detector.py:109-112 | a detected drift is typed by the best match on the recent window of the updated buffer and the category follows the switch rule |
| Detector.ReportedConfidence | backend/drift/detector.py:60-129 | with tests whose confidences lie in [0, 1] the reported confidence always does |
| Detector.CallKeepsBounds | backend/drift/detector.py:150-163 | after any call every tracked patient's buffers are aligned, within twice a positive window, and its history within 100 entries |
| Detector.CallMakesPatientKnown | backend/drift/detector.py:477-490 | after a call the patient is known, holds at least one sample and was last updated at the call's time |
| Detector.PreparedPatient | backend/drift/detector.py:150-157 | once recorded the patient holds the new sample and its time last |
| Detector.CallKeepsTimestamps | backend/drift/detector.py:91-121 | past the data gate the timestamps stay as recorded |
| Detector.UnseenPatient | backend/drift/detector.py:473-480 | an unseen patient has the category `unknown` and an empty drift history |
| Detector.HistoryEndsWithResult | backend/drift/detector.py:457-475 | after a completed detection the drift history ends with its result stamped with the call's time |
| Detector.DriftDetector.constructor | backend/drift/detector.py:18-58 | the detector object starts in the state `InitialDetector` |
| Detector.DriftDetector.DetectDrift | backend/drift/detector.py:60-129 | the fields change as `Detect` says and the call returns its outcome |
| Detector.DriftDetector.InitializePatient | backend/drift/detector.py:131-148 | the fields change as `Admit` says |
| Detector.DriftDetector.UpdatePatientData | backend/drift/detector.py:150-163 | the fields change as `Record` says |
| Detector.DriftDetector.AssessPatient | backend/drift/detector.py:91-121 | the fields change as `Assess` says |
| Detector.DriftDetector.FinishDetection | backend/drift/detector.py:106-121 | the fields change as `Conclude` says |
| Detector.DriftDetector.UpdateDetectionHistory | backend/drift/detector.py:457-471 | only the patient's history changes: the entry is appended and the last 100 kept |
| Detector.DriftDetector.DetermineDriftType | backend/drift/detector.py:415-455 | returns the best match on the recent window and applies the switch rule to the patient |
| Detector.RunDetection | backend/drift/detector.py:91-104 | the dispatch computes `RunMethod` |
| Detector.CustomPatternDetection | backend/drift/detector.py:305-347 | the deviation loop computes the custom pattern test |
| Detector.CombineDetectionResults | backend/drift/detector.py:383-413 | the voting loop computes the ensemble |
| Detector.ScoreCategory | backend/drift/detector.py:428-437 | the inner loop returns the in-range and matched counts |
| Detector.TypeRecentWindow | backend/drift/detector.py:417-421 | the metrics of the recent window scored against every category |
| Detector.BestCategory | backend/drift/detector.py:424-443 | the outer loop keeps the first category with the strictly highest score |
| Swapper.SelectionTable | backend/services/model_swapper.py:132-151 | the selected model is always a specialised model: the drift type's own model for `athletic`, `diver`, `elderly` and `diabetic`, `typical` for anything else; the confidence takes no part |
| Swapper.FailedSwapChangesNothing | backend/services/model_swapper.py:95-98 | a target model that cannot be loaded fails the swap, names the target, and changes neither the assignments nor the logs |
| Swapper.SuccessfulSwap | backend/services/model_swapper.py:91-121 | a successful swap reports the previous model (`federated` for a new patient) and the target, makes the target the patient's active model, and changes no other patient's model or log |
| Swapper.UnknownPatientIsFederated | backend/services/model_swapper.py:183-189 | a patient never swapped uses `federated` and has an empty swap log |
| Swapper.TrackAppends | backend/services/model_swapper.py:168-181 | a swap appends an entry numbered one past the log's length; the log keeps at most 100 entries, dropping the oldest once it overflows |
| Swapper.SwapCountSaturates | backend/services/model_swapper.py:176-181 | once 100 swaps are logged every further swap is numbered 101: the number counts the kept entries, not the swaps made |
| Swapper.FirstExceededIsFirst | backend/services/model_swapper.py:200-205 | the suggestion is the first drift type, in table order, whose thresholds the pattern exceeds, and none exactly when no type's are |
| Swapper.DiverNeverSuggested | backend/services/model_swapper.py:211-219 | the analysed pattern never holds the keys of the `diver` thresholds, so `diver` is never suggested |
| Swapper.SuggestionExamples | backend/services/model_swapper.py:207-216 | a vector of at most seven values raises and suggests nothing; a heart rate (value 7) more than 30% away from 72 suggests `athletic` |
| Swapper.ModelSwapper.constructor | backend/services/model_swapper.py:18-44 | the swapper object starts with no assignment and no log |
| Swapper.ModelSwapper.SwapModel | backend/services/model_swapper.py:78-130 | the fields change as `Swap` says and the call returns its record |
| Swapper.ModelSwapper.UpdatePerformanceTracking | backend/services/model_swapper.py:168-181 | the fields change as `Track` says |
| Swapper.ModelSwapper.GetAllActiveModels | backend/services/model_swapper.py:229-231 | the copy holds exactly the patients with an assigned model; every other patient's active model is `federated` |
| Swapper.CheckDriftThresholds | backend/services/model_swapper.py:221-227 | true exactly when some threshold whose key the pattern has is strictly exceeded |
| Swapper.SuggestModelImprovement | backend/services/model_swapper.py:191-209 | the scan computes `Suggestion` |
| Scaler.RangesForShape | backend/utils/scaler.py:44-49 | the initialisation loop makes exactly one entry per configured name, copied from its configuration with `min` 0 and `max` 1 as defaults |
| Scaler.InitialRanges | backend/utils/scaler.py:22-49 | `feature_ranges` has an entry for every configured feature and no other, each made from its configuration |
| Scaler.ConfigurationShape | backend/utils/scaler.py:25-41 | thirteen distinct feature names, each configured and each configuration named; no feature uses the `standard` scaler; every min-max feature has increasing configured bounds |
| Scaler.NamesConfigured | backend/utils/scaler.py:41 | every feature name has a configuration |
| Scaler.ScaleWith | backend/utils/scaler.py:105-121 | min-max scaling always lands in [0, 1] |
| Scaler.ValueRoundTrip | backend/utils/scaler.py:103-134 | for a min-max value inside a non-empty range, a standardisation with a positive deviation or without statistics, or any other scaler, `inverse_transform` undoes `transform` on that value |
| Scaler.Transform | backend/utils/scaler.py:77-138 | `transform` returns one value per feature name |
| Scaler.InverseTransform | backend/utils/scaler.py:140-186 | `inverse_transform` returns one value per feature name |
| Scaler.TransformAt | backend/utils/scaler.py:92-136 | position i of the result is 0.0 past the input's end and otherwise the i-th value scaled by the i-th name's range |
| Scaler.InverseTransformAt | backend/utils/scaler.py:152-184 | position i of the result is 0.0 past the input's end and otherwise the i-th value unscaled by the i-th name's range |
| Scaler.TransformShape | backend/utils/scaler.py:92-96 | the missing positions are 0.0 and input values past the last name are ignored |
| Scaler.MinMaxInUnitInterval | backend/utils/scaler.py:105-121 | every min-max feature lands in [0, 1], and one whose bounds are not increasing lands on 0.0 |
| Scaler.UnscaledPassThrough | backend/utils/scaler.py:103-104 | a feature whose scaler is `none` passes through both directions unchanged |
| Scaler.StandardScaling | backend/utils/scaler.py:123-132 | standardisation is (v - mean) / std for a positive deviation, 0.0 for any other, and the value itself before statistics exist |
| Scaler.LearnedBoundsTakePrecedence | backend/utils/scaler.py:106-113 | once learned bounds exist the configured ones no longer matter, in either direction |
| Scaler.RoundTrip | backend/utils/scaler.py:77-186 | a vector of one value per name, each value invertible for its range, comes back unchanged from `transform` then `inverse_transform` |
| Scaler.Column | backend/utils/scaler.py:65 | `X[:, i]` has one entry per row |
| Scaler.FitOutcome | backend/utils/scaler.py:63-75 | `fit` raises exactly on a matrix without rows that has a column for a configured min-max feature (the minimum of an empty column), and otherwise keeps the set of entries |
| Scaler.FitKeepsOthers | backend/utils/scaler.py:63-64 | an entry whose name has no column, such as a name past `X.shape[1]`, is left as it was |
| Scaler.FitRecordsColumnRange | backend/utils/scaler.py:73-75 | a min-max feature with a column, named once, gets that column's minimum and maximum as its learned bounds |
| Scaler.FitThenTransform | backend/utils/scaler.py:51-121 | after a successful `fit`, `transform` scales such a feature by its column's own minimum and maximum, clipped to [0, 1] |
| Scaler.DataScaler.constructor | backend/utils/scaler.py:13-49 | a new scaler keeps its scaler type and holds the thirteen configured names and their initial entries |
| Scaler.DataScaler.Fit | backend/utils/scaler.py:51-75 | a non-empty `feature_names` replaces the names before any column is read; the entries become the fitted ones, or stay as they were when `fit` raises |
| Scaler.DataScaler.TransformFeatures | backend/utils/scaler.py:77-138 | the loop computes `Transform` with the current entries and names |
| Scaler.DataScaler.InverseTransformFeatures | backend/utils/scaler.py:140-186 | the loop computes `InverseTransform` with the current entries and names |
| Helpers.FirstNonNumeric | backend/utils/helpers.py:41-44 | the scan stops at the first value that is not a number, or at the end: every value before it is a number |
| Helpers.ValueWarningsSound | backend/utils/helpers.py:46-51 | each value warning names a scanned built-in number and its value, and says truly that it is negative or above 1000 |
| Helpers.WarningSource | backend/utils/helpers.py:46-51 | every value warning was raised by the check of the position it names, which the scan has passed |
| Helpers.ValueWarningsComplete | backend/utils/helpers.py:46-51 | every negative and every unusually large built-in number the scan passes is warned about |
| Helpers.WarnedAt | backend/utils/helpers.py:41-51 | a warning raised at position i is kept once the scan has gone past it |
| Helpers.ItemWarningsContent | backend/utils/helpers.py:47-51 | the check of one value warns exactly for a built-in number below 0 and for one above 1000, naming the position and the value |
| Helpers.ValidIffWellTyped | backend/utils/helpers.py:12-69 | a request is valid exactly when it has `features`, they are a list or an array of numbers only, and `patient_id` is absent or a string |
| Helpers.ValidationMessages | backend/utils/helpers.py:26-58 | a missing `features` is the only error then reported, without warnings; a wrong count is a warning (with the count) and never an error; value and model-type messages are never errors |
| Helpers.ScanStopsAtFirstNonNumeric | backend/utils/helpers.py:40-51 | the only `must be numeric` error names the first non-number, value warnings concern only the values before it, and each negative or large built-in number before it is warned about |
| Helpers.ScanValues | backend/utils/helpers.py:40-51 | the loop with its `break` produces the scan's errors and the warnings of the values before the first non-number |
| Helpers.ValidatePatientData | backend/utils/helpers.py:12-69 | the method computes `Validate` |
| Helpers.BandIndex | backend/utils/helpers.py:113-128 | one of the five bands |
| Helpers.BandIsInterval | backend/utils/helpers.py:113-128 | band k holds [0.2·k, 0.2·(k+1)), the lowest open below and the highest open above, so a larger risk never falls in a lower band |
| Helpers.DotBounds | backend/utils/helpers.py:107-108 | a weighted sum of values in [0, 1] with non-negative weights lies between 0 and the sum of the weights |
| Helpers.WeightsSumToOne | backend/utils/helpers.py:99-111 | the factor weights sum to 1, and the prediction and the features are weighted 0.7 and 0.3 |
| Helpers.RiskInUnitInterval | backend/utils/helpers.py:85-128 | with non-negative feature values, a 0/1 prediction and a confidence in [0, 1], every factor, the weighted risk and the final risk lie in [0, 1]; a prediction of 0 caps the risk at 0.3, so its level is `Very Low` or `Low` |
| Helpers.LevelMatchesRecommendation | backend/utils/helpers.py:113-133 | the risk level and the recommendation come from the same band, the band of the unrounded final risk |
| Helpers.Reached | backend/utils/helpers.py:230-240 | at most as many thresholds reached as there are |
| Helpers.ReachedMonotone | backend/utils/helpers.py:230-240 | a larger value reaches at least as many thresholds |
| Helpers.InterpretationFollowsBandings | backend/utils/helpers.py:228-248 | a banded feature reads the label of the band its value falls in, and a larger value never a lower band; `Sex` reads `Female` exactly for 0; any other name reads `Unknown` |
| Helpers.FeatureUnit | backend/utils/helpers.py:217-226 | the unit of a listed feature, and the empty string exactly for an unlisted one |
| Helpers.FormatResponse | backend/utils/helpers.py:340-368 | `status` and `timestamp` always; `data` whenever it is not `None`, even when falsy; a message or an error only when non-empty |
| Helpers.ResponseShape | backend/utils/helpers.py:354-368 | a response starts with `status` and `timestamp`, names each key once, has two to five keys, and has `message` exactly for a non-empty message and `data` exactly for non-`None` data |
| Prediction.InitialService | backend/services/prediction_service.py:21-45 | the service knows exactly the five configured models, starts well formed with all counters at zero and one usage counter per model |
| Prediction.PredictCounts | backend/services/prediction_service.py:97-147 | every call counts one more prediction; a success counts one success, one use of the model asked for, and stamps the time; a failure counts one failure and, when it is the usage update that raised, one success as well; models and feature names never change |
| Prediction.PredictKeepsInvariants | backend/services/prediction_service.py:97-147 | the state stays well formed, and successes plus failures exceed the total only by the calls whose model type was unknown |
| Prediction.UnknownModelTypeCountsTwice | backend/services/prediction_service.py:111-147 | an unknown model type falls back to the federated model, so the prediction succeeds and is counted, then the usage counter raises KeyError and the call is counted as failed too |
| Prediction.SuccessfulPrediction | backend/services/prediction_service.py:101-137 | a success requires a loaded model asked for by name and one feature per name; it reports the probability of disease, the band of that probability, the confidence, the predicted class, the model asked for and the feature names |
| Prediction.ConfidenceBounds | backend/services/prediction_service.py:164-168 | the confidence is the largest probability as a percentage, to two places; it lies in [0, 100] for probabilities in [0, 1], and is at least 50 for two probabilities summing to one |
| Prediction.ReadinessDecidesModelErrors | backend/services/prediction_service.py:198-204 | a ready service never refuses a model as not loaded, and a service with a model that did not load is not ready and refuses the requests that name it |
| Prediction.PredictionService.constructor | backend/services/prediction_service.py:21-47 | the service object starts in the state `InitialService` |
| Prediction.PredictionService.Predict | backend/services/prediction_service.py:84-147 | the counters change as `PredictCall` says and the call returns its result or its exception |
| Evaluation.AlertsExactly | backend/services/evaluation_service.py:115-129 | an alert is raised for a listed metric exactly when the metric is present and strictly below its threshold, at most one per threshold; it carries the value and the threshold and is `high` exactly when the value is below 0.8 of the threshold |
| Evaluation.CheckForAlerts | backend/services/evaluation_service.py:115-129 | the loop over the thresholds computes `Alerts` with the five configured thresholds |
| Evaluation.ExtendLookup | backend/services/evaluation_service.py:161-163 | appending under one key adds to that key's list and to no other |
| Evaluation.ExtendRecords | backend/services/evaluation_service.py:161-163 | appending keeps the keys distinct, adds the key when new, and adds exactly the new records |
| Evaluation.Keys | backend/services/evaluation_service.py:236 | the keys of a bucket, in insertion order |
| Evaluation.CollectDistinct | backend/services/evaluation_service.py:270-273 | with distinct keys, collecting a key's lists gives that key's list |
| Evaluation.CollectAbsent | backend/services/evaluation_service.py:270-273 | an absent key collects nothing |
| Evaluation.ExtendAllLookup | backend/services/evaluation_service.py:270-273 | merging a bucket into the aggregate extends each key's list by that key's lists from the bucket |
| Evaluation.StoreAppendsOnce | backend/services/evaluation_service.py:151-175 | storing adds the record once to its day, once to its week and, with a model type, once to that model; nothing else changes, and the monthly and per-group buckets are never filled |
| Evaluation.AggregateConcatenates | backend/services/evaluation_service.py:264-275 | the aggregate holds under each key that key's lists from the five buckets, one after another in bucket order |
| Evaluation.ExtendAllDistinct | backend/services/evaluation_service.py:268-273 | merging a bucket with distinct keys appends each key's list once |
| Evaluation.OfModelAppend | backend/services/evaluation_service.py:237-240 | filtering distributes over concatenation |
| Evaluation.OfModelContent | backend/services/evaluation_service.py:237-240 | a record survives the filter exactly when it carries the model type |
| Evaluation.FilterKeepsModel | backend/services/evaluation_service.py:234-243 | filtering keeps, in order, exactly the records of the model type, leaves no empty list behind and invents no key |
| Evaluation.Values | backend/services/evaluation_service.py:305 | one value per record, 0 where the metric is missing |
| Evaluation.SqSum | backend/services/evaluation_service.py:312-319 | a sum of squares is non-negative |
| Evaluation.TrendUsesLastTen | backend/services/evaluation_service.py:305-306 | only the last ten values decide the trend |
| Evaluation.DevSumClosed | backend/services/evaluation_service.py:312-319 | Σ (i − c) over i < m is m(m−1)/2 − m·c |
| Evaluation.SqSumAtLeastFirst | backend/services/evaluation_service.py:316-319 | the sum of squares is at least its first term |
| Evaluation.Line | backend/services/evaluation_service.py:312-313 | the points a·i + b, one per index |
| Evaluation.CrossSumLine | backend/services/evaluation_service.py:319 | the cross sum of a line splits into its slope times the sum of squares plus a multiple of the deviation sum |
| Evaluation.SlopeOfLine | backend/services/evaluation_service.py:312-319 | on m points of a line with slope a the computed slope is a·m/(m−1), because `np.cov` divides by m−1 and `np.var` by m |
| Evaluation.LineCrossSum | backend/services/evaluation_service.py:319 | about the centre, a line's cross sum is its slope times the sum of squares |
| Evaluation.SlopeOfScaledSums | backend/services/evaluation_service.py:319 | the slope of a series whose cross sum is a times its sum of squares |
| Evaluation.SlopeFromSums | backend/services/evaluation_service.py:319 | the slope as the sample covariance over the population variance of the indices |
| Evaluation.ConstantIsStable | backend/services/evaluation_service.py:299-326 | a constant series is `stable` |
| Evaluation.CenteredSums | backend/services/evaluation_service.py:316-319 | about (m−1)/2 the deviations cancel and, for two or more points, their squares do not, so `np.std(x)` is never 0 there |
| Evaluation.RatioCancels | backend/services/evaluation_service.py:319 | (a·q/(n−1)) / (q/n) = a·n/(n−1) |
| Evaluation.SummaryBounds | backend/services/evaluation_service.py:277-297 | no data gives the empty summary; otherwise it counts every record and every accuracy, and the average, lies between the minimum and the maximum, a missing accuracy counting as 0 |
| Evaluation.PooledIsSum | backend/services/evaluation_service.py:280-288 | the per-bucket average accuracies weighted by their record counts add up to the total accuracy of all records |
| Evaluation.SummaryAveragePools | backend/services/evaluation_service.py:280-293 | the summary is absent exactly when no bucket holds a record; otherwise its average accuracy pools the buckets: the count-weighted mean of each bucket's average accuracy |
| Evaluation.ReportCountsFilteredRecords | backend/services/evaluation_service.py:215-254 | with a model type the report counts exactly that type's records of the period, without one all of them, and it has a summary exactly when it counts any |
| Evaluation.EvaluationService.constructor | backend/services/evaluation_service.py:22-52 | the service starts with five empty buckets |
| Evaluation.EvaluationService.StoreMetrics | backend/services/evaluation_service.py:151-182 | the buckets change as `Store` says and stay with distinct keys |
| Evaluation.EvaluationService.EvaluateModel | backend/services/evaluation_service.py:94-101 | once the metrics are computed, the call returns the alerts `Alerts` gives for them and stores the record as `Store` says |
| Monitor.RecentDriftsUnknown | backend/drift/monitor.py:136-147 | at most one recent drift per patient, and every one has the type `unknown`, since the detector's history entries carry no drift type |
| Monitor.RecentDriftSource | backend/drift/monitor.py:137-147 | every recent drift is the last detection of some patient, and that detection reported drift |
| Monitor.RecentDriftIncluded | backend/drift/monitor.py:137-147 | a patient whose last detection reported drift contributes it |
| Monitor.CollectRecentDrifts | backend/drift/monitor.py:129-147 | the loop over the detector's patients collects exactly `RecentDrifts` |
| Monitor.AddDriftLength | backend/drift/monitor.py:161-165 | adding a drift keeps the groups when its type has one and appends a new group otherwise |
| Monitor.AddDriftAt | backend/drift/monitor.py:161-165 | adding a drift extends its own type's group and leaves every other group as it was |
| Monitor.GroupShape | backend/drift/monitor.py:159-165 | the grouping has distinct types and holds under each type exactly the drifts of that type, in order |
| Monitor.OfTypeSnoc | backend/drift/monitor.py:161-165 | the drifts of a type after one more drift |
| Monitor.GroupStep | backend/drift/monitor.py:161-165 | one step of the grouping loop keeps the grouping exact |
| Monitor.GroupDrifts | backend/drift/monitor.py:159-165 | the grouping loop computes `Group` |
| Monitor.OfTypeContent | backend/drift/monitor.py:159-165 | a type's group holds every drift of that type and no other |
| Monitor.OfSingleType | backend/drift/monitor.py:159-165 | when all drifts share one type, that type holds them all and every other type none |
| Monitor.Confidences | backend/drift/monitor.py:190 | one confidence per drift |
| Monitor.HighConfidenceContent | backend/drift/monitor.py:181-184 | the high-confidence drifts are exactly those with confidence above 0.7 |
| Monitor.MeanAbove | backend/drift/monitor.py:190 | a mean of values all above a bound is above it |
| Monitor.HighConfidenceAverage | backend/drift/monitor.py:181-191 | the average confidence a high-confidence alert reports is above 0.7 and at most the largest confidence it averages |
| Monitor.PatternAlertSource | backend/drift/monitor.py:170-191 | every pattern alert comes from one group |
| Monitor.PatternAlertIncluded | backend/drift/monitor.py:170-191 | every alert of a group is raised |
| Monitor.PatternAlertsPerType | backend/drift/monitor.py:156-191 | every alert raised is a frequent-drift or high-confidence alert computed from the drifts of its own type |
| Monitor.AlertsForType | backend/drift/monitor.py:172-191 | a group's alerts are drift alerts of the group's type |
| Monitor.TypeRaisesItsAlerts | backend/drift/monitor.py:156-191 | each type that occurs raises the alerts of its own drifts |
| Monitor.DriftPatternRules | backend/drift/monitor.py:170-191 | a type gets a frequent-drift alert exactly when it has at least 3 drifts, naming their count and their patients, and a high-confidence alert exactly when some drift of it has confidence above 0.7, naming the count and the average of exactly those drifts |
| Monitor.FrequentDriftFromDetector | backend/drift/monitor.py:129-191 | over a detector's state a frequent-drift alert is raised exactly when at least 3 patients' last detections reported drift |
| Monitor.CollectPatternAlerts | backend/drift/monitor.py:168-191 | the alert loop computes `PatternAlerts` |
| Monitor.PerformanceCheckRule | backend/drift/monitor.py:200-232 | an alert is raised exactly when the daily and the weekly buckets both hold evaluations and the weekly average accuracy exceeds the daily one by more than 0.15; it reports both averages and the drop in percent |
| Monitor.PerformanceCheckSummaries | backend/drift/monitor.py:204-221 | the check reads the daily and the weekly summaries without a model type |
| Monitor.DegradationRule | backend/drift/monitor.py:208-232 | given summaries whose presence and average accuracy match their buckets, the alert follows the rule above, a missing weekly average counting as the daily one |
| Monitor.KeepNewerContent | backend/drift/monitor.py:243-258 | clean-up keeps exactly the records stamped strictly after the cut-off, in order |
| Monitor.KeepNewerTwice | backend/drift/monitor.py:237-258 | cleaning with a cut-off and then a later one is cleaning with the later one; with the same cut-off clean-up is idempotent |
| Monitor.LastRecords | backend/drift/monitor.py:303-305 | at most 1000 records kept |
| Monitor.SaveAlertsKeepsLast | backend/drift/monitor.py:291-305 | after saving alerts the file holds the last 1000 of all alerts ever saved to it, ending with the newest |
| Monitor.LastRecordsStep | backend/drift/monitor.py:301-305 | saving onto the last records is taking the last records of the extended list |
| Monitor.Stamped | backend/drift/monitor.py:269 | one stamped alert per alert |
| Monitor.RecentAlertsEndWithNewest | backend/drift/monitor.py:350-352 | `[-limit:]` returns the last `limit` alerts for a positive limit, ending with the newest, and all of them for a limit of 0 |
| Monitor.DriftMonitor.constructor | backend/drift/monitor.py:21-50 | the monitor starts with no alerts, no system checks, and the alerts file as found |
| Monitor.DriftMonitor.TriggerAlert | backend/drift/monitor.py:266-289 | the stamped alert joins the alert history and the capped file; the system checks are untouched |
| Monitor.DriftMonitor.TriggerAll | backend/drift/monitor.py:193-195 | the alerts are triggered in order, each joining the history and the capped file |
| Monitor.DriftMonitor.AnalyzeDriftPatterns | backend/drift/monitor.py:156-198 | the pattern alerts of the grouped drifts are triggered in order |
| Monitor.DriftMonitor.AnalyzeRecentPredictions | backend/drift/monitor.py:129-154 | the pattern alerts of the detector's recent drifts are triggered in order |
| Monitor.DriftMonitor.CheckModelPerformance | backend/drift/monitor.py:200-235 | the degradation alert, when the rule raises one, is triggered, and nothing else changes |
| Monitor.DriftMonitor.CheckSystemHealth | backend/drift/monitor.py:95-127 | the check is recorded; a CPU or memory usage of 90% or more triggers a system-health alert with it, and a healthy check triggers nothing |
| Monitor.DriftMonitor.CleanupOldData | backend/drift/monitor.py:237-264 | the system checks and the saved alerts stamped at or before the cut-off are dropped; the alert history is untouched |

## Left out

- Numbers are exact reals: float rounding, `nan` and `inf` are not modelled. This includes the `nan`/`inf` guard on the stability score in backend/services/model_swapper.py.
- Torch tensors are flattened to sequences of reals. Tensor shapes, dtypes and devices are not modelled.
- File and disk I/O is not modelled, because it sits outside the logic. This covers model pickles and checkpoints, the metrics, alerts and monitoring-state JSON files, `save_prediction_log`, `load_config`, and the scaler's `save`/`load` (backend/utils/scaler.py:188-208). Whether a model loads is a parameter predicate instead.
- The monitor's alerts file is modelled as a field holding its list of alerts, not as a file.
- Logging, exception messages and `traceback` output are not modelled. An exception is a `Result` error or a counted failure wherever the caller's behaviour depends on it.
- The wall clock is the parameter `now`, and date keys are parameters. `datetime.now()` is not modelled.
- Library mathematics is given as inputs or parameter functions, because its numerics are out of scope: square root, logarithm, `np.std`, `np.var`, the Kolmogorov-Smirnov and Welch tests, histogram KL divergence, k-means and the silhouette score, the scikit-learn metrics in `evaluate_model`, and classifier `predict_proba`.
- Detector: the movement of k-means centres is not modelled. The `threshold` field is read only by the statistical test (`combined_p < self.threshold`, backend/drift/detector.py:199), so that comparison is part of the statistical-test oracle, together with the Fisher combination of p-values. `is_ready` (backend/drift/detector.py:492) is a constant and is not modelled.
- Aggregation: torch's broadcasting of a size-1 tensor against a larger one is not modelled. Every size clash under one key is reported as `ShapeMismatch`.
- Aggregation: a tensor's size is its flattened length, so two tensors of one length and different shapes count as compatible.
- AdaptiveAggregation: `ReportUsable` keeps out reports whose `log(samples)` or `loss + 1e-8` would give `nan` or `inf` (a non-positive sample count, a loss of exactly −1e-8). Those are floating-point cases.
- FedProxIsBlend: the blend identity is stated for clients of one architecture. With differing key sets a key missing from some clients is summed over its holders only, and FedProx is then not a blend with the global dict under that key. The mu = 0 case holds for any key sets (`FedProxZeroIsFedAvg`).
- Detector: windows of size zero or below are modelled only as far as the guards in front of the tests.
- Monitor: threads are not modelled, because they are concurrency. This covers `start_monitoring`/`stop_monitoring`, the monitoring loop, callbacks and `register_callback`.
- Monitor: psutil figures other than CPU and memory usage are not modelled.
- Monitor: `monitor_id`, the `drift_events` and `model_swaps` lists, `get_monitoring_status` and `_save_monitoring_state` are not modelled, because they only report or persist state.
- Server: building the torch model, loading it from disk, saving it, `get_global_model` and `evaluate_global_model` are not modelled (backend/federated/server.py:51-81, 254-282, 302-334). They are torch and disk I/O. The global model is its state dict.
- Server: timestamps in the history are not modelled.
- Server: `max_clients` and `rounds_before_eval` are set but never read, so they are not modelled.
- Swapper: `_load_model_metadata` and the metadata copied into a swap record are not modelled, because they are file contents.
- Prediction: `get_model_status` and `retrain_model` are not modelled (backend/services/prediction_service.py:170-196). They only report the load state or return a fixed message.
- Prediction: the `drift_detector` field is not modelled, because `predict` never uses it.
- Prediction: the feature-name file is the parameter `configuredNames`.
- Evaluation: `get_system_metrics` (backend/services/evaluation_service.py:328 onward) is not modelled. `_trigger_alerts`, `_store_alert` and `_save_metrics_to_file` are not modelled either. These are I/O and process statistics.
- Evaluation: the confusion matrix, timestamp and alerts keys of the evaluation record are not modelled, because no rule reads them.
- Evaluation: the monthly and per-group buckets, which the code never fills, are modelled as written (always empty).
- Helpers: `anonymize_patient_id` is not modelled, because it is a SHA-256 hash.
- Scaler: `get_feature_info` (backend/utils/scaler.py:210-216) is not modelled, because it only reports state: the feature names, their configurations, the scaler type and the feature count.
- Scaler: the model assumes that the scaler module loads. As written it does not on Python 3.13 and earlier. backend/utils/scaler.py:7 imports only `List`, `Union` and `Optional` from `typing`, but the annotation `-> Dict[str, Any]` of `get_feature_info` (line 210) is evaluated when the class body runs, so the import raises a NameError. backend/services/prediction_service.py:13 imports `DataScaler`, so the prediction service fails to load with it. From Python 3.14 annotations are evaluated lazily and both modules load. `Scaler` and `Prediction` model a working `DataScaler`.
- Helpers: `create_patient_summary` (backend/utils/helpers.py:161-215) is not modelled. It calls `self._get_feature_unit` inside a module-level function, which raises a NameError as written. The unit table and feature interpretation it relies on are modelled as `Helpers.FeatureUnit` and `Helpers.InterpretFeature`.
- Scaler: the branch of `fit` that learns a mean and a standard deviation is not modelled. No feature in the fixed table is configured for standardisation, so that branch is never taken (`Scaler.ConfigurationShape` proves this).
