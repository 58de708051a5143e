# llm-eval-platform: a verified model of the evaluation pipeline

This project models the evaluation-and-decision core of llm-eval-platform
in Dafny. The platform takes one model variant and a registered dataset
and runs every item through a model backend. It scores each answer and
aggregates the scores into run metrics. It then applies release gates
against optional thresholds and a baseline run, and raises drift alerts.
It ranks and clusters failures, and resolves a release status: APPROVED,
DRIFT_WARNING or BLOCKED. Runs, item results, tag slices and alerts are
kept in a store. A service layer compares runs, pages through failures,
tag slices and alerts, and applies command-line overrides. A report
builder ranks the most degraded tag slices.

One module per source file:

| module | source | form |
|---|---|---|
| `Models` (`models.dfy`) | `domain/models.py` | datatypes with their defaults |
| `Metrics` (`metrics.dfy`) | `scoring/metrics.py` | functions and lemmas |
| `Gates` (`gates.dfy`) | `scoring/gates.py` | the two check loops as methods, proved against a fold |
| `Analysis` (`analysis.dfy`) | `analysis.py` | loop methods proved against specification functions |
| `Config` (`config.dfy`) | `config.py` | functions over an abstract `json.dumps`/SHA-256 |
| `Retrieval` (`retrieval.dfy`) | `runner/retrieval.py` | a function |
| `Experiment` (`experiment.dfy`) | `runner/experiment.py` | the item loop as a method; `ExperimentRunner` as a class over the store |
| `Repository` (`repository.dfy`) | `storage/repository.py` | class `EvalRepository` over five in-memory tables |
| `Db` (`db.dfy`) | `storage/db.py` | class `Database`: column sets per table and the schema-version row |
| `Service` (`service.dfy`) | `service.py` | class `EvalService` plus the pure paging and comparison logic |
| `Exporter` (`exporter.dfy`) | `reporting/exporter.py` | the slice loop as a method; the report as a value |

Helper modules carry no source of their own:

- `Outcomes`: `Option` and `Result`.
- `Text`: `strip`, `lower`, substring search, `replace`, integer printing and string order.
- `Dicts`: insertion-ordered Python dicts as sequences of pairs.
- `Stats`: sum, mean and population variance.
- `Sorting`: a stable descending sort by a real key, an ascending sort, and a sort by string key.
- `Tables`: SQL `WHERE`, and `LIMIT`/`OFFSET` as SQLite applies them.

Modelling choices:

- **Numbers.** Scores, metrics and latencies are `real`; IEEE rounding is not modelled.
- **Volatility.** The source compares the population standard deviation with 0.15. The model keeps the variance and compares it with 0.0225, which is equivalent for non-negative values.
- **Dicts.** A Python dict is a sequence of (key, value) pairs in insertion order, with distinct keys. `json.dumps(sort_keys=True)` becomes a sort by key.
- **Abstract operations.** These are function-typed parameters:
  - SHA-256 and `json.dumps`;
  - `"%.6f"` formatting;
  - `float()` parsing of the judge's text;
  - JSON-Schema validation;
  - the model backend;
  - dataset loading;
  - the clock and the measured latencies.
- **Failures.** Exceptions become `Err` values carrying the message the source's exception carries, including Python's own `AttributeError` and `TypeError` texts when a drift threshold names a metric that cannot be read.
- **Truthiness.** Python's rules are kept: an empty `error` string is not an error, and an empty model-name override is ignored.
- **SQL order.** `ORDER BY` is a stable sort over insertion order. SQL leaves ties unspecified.

The model follows the code in these places:

- `get_failure_analysis` slices with Python slice rules.
- The listings apply SQLite's rules for negative `LIMIT`/`OFFSET`.
- `run_from_config` calls a repository method that does not exist (see Findings).

## Model

| member | source | states |
|---|---|---|
| Metrics.ExactMatchScore | src/llm_eval_platform/scoring/metrics.py:11-14 | 0 or 1; 1 exactly when an expected answer exists and equals the output after strip and lower-case on both sides |
| Metrics.ExactMatchIgnoresCase | src/llm_eval_platform/scoring/metrics.py:14 | lower-casing the output first never changes the exact-match score |
| Metrics.ExactMatchIgnoresSurroundingSpace | src/llm_eval_platform/scoring/metrics.py:14 | stripping the output first never changes the exact-match score |
| Metrics.CountFoundAll | src/llm_eval_platform/scoring/metrics.py:21 | every keyword is counted exactly when every keyword occurs case-insensitively in the output |
| Metrics.CountFoundNone | src/llm_eval_platform/scoring/metrics.py:21 | no keyword is counted exactly when no keyword occurs in the output |
| Metrics.KeywordCoverageScore | src/llm_eval_platform/scoring/metrics.py:17-22 | in [0,1]; 1.0 with no keywords; 1.0 exactly when every keyword is found; with keywords, 0.0 exactly when none is found |
| Metrics.KeywordMissesComplement | src/llm_eval_platform/runner/experiment.py:145-147 | misses + found = number of keywords, and every keyword not found is listed as a miss |
| Metrics.CoverageFullIffNoMisses | src/llm_eval_platform/runner/experiment.py:145-147 | keyword coverage is 1.0 exactly when the item's list of keyword misses is empty |
| Metrics.SchemaValidityScore | src/llm_eval_platform/scoring/metrics.py:25-33 | 0 or 1; 1 exactly when there is no schema or the output parses and conforms |
| Metrics.Clamp01 | src/llm_eval_platform/scoring/metrics.py:40 | result in [0,1], equal to the input inside it, 0 below, 1 above |
| Metrics.LlmJudgeFromText | src/llm_eval_platform/scoring/metrics.py:36-47 | in [0,1]; a number is clamped; otherwise 1 iff "pass"/"good" occurs, 0 iff neither occurs but "fail"/"bad" does, and 0.5 iff none of the four words occurs |
| Metrics.ScoreItem | src/llm_eval_platform/scoring/metrics.py:50-61 | the three computed scores come from expected answer, keywords and schema; the judge score is copied; all fields are in [0,1] iff the judge score is |
| Metrics.JudgeValuesEmpty | src/llm_eval_platform/scoring/metrics.py:67 | the list of present judge scores is empty exactly when no item has one |
| Metrics.AggregateScores | src/llm_eval_platform/scoring/metrics.py:64-74 | error exactly on an empty list; each field is the mean over all items; judge is None iff no item has one, else the mean of the present ones; sample_count = n |
| Metrics.AggregateScoresBounds | src/llm_eval_platform/scoring/metrics.py:64-74 | means of scores in [0,1] are in [0,1], the judge mean included |
| Gates.MinOutcome | src/llm_eval_platform/scoring/gates.py:22-31 | the min check passes iff the metric is present and ≥ threshold; the value is −1.0 when missing; a reason exactly when it fails |
| Gates.DropOutcome | src/llm_eval_platform/scoring/gates.py:33-46 | without baseline or either value the check fails with drop 999.0; otherwise drop = base − cand and it passes iff drop ≤ max drop |
| Gates.GateDecisionOf | src/llm_eval_platform/scoring/gates.py:13-48 | status is fail exactly when there is a reason |
| Gates.EvaluateGates | src/llm_eval_platform/scoring/gates.py:13-48 | the two loops build exactly the decision the specification fold describes |
| Gates.CheckMinimums | src/llm_eval_platform/scoring/gates.py:22-31 | the min_metric loop's reasons and checks equal the fold over the thresholds |
| Gates.CheckDrops | src/llm_eval_platform/scoring/gates.py:33-46 | the max_drop loop's reasons and checks equal the fold continued from the min checks |
| Gates.RunKeys | src/llm_eval_platform/scoring/gates.py:26-42 | check keys stay distinct, each new key carries its section prefix, and earlier keys are kept |
| Gates.RunGetOwn | src/llm_eval_platform/scoring/gates.py:26-42 | the check under "prefix.name" is the one computed from that threshold |
| Gates.ReasonsEmptyIffAllPass | src/llm_eval_platform/scoring/gates.py:22-46 | a section adds no reason exactly when all its checks pass |
| Gates.GateReasonsOrder | src/llm_eval_platform/scoring/gates.py:22-33 | all min_metric reasons come before all max_drop reasons |
| Gates.GatePassIffAllChecksPass | src/llm_eval_platform/scoring/gates.py:13-48 | the gate passes exactly when every configured min and drop check passes |
| Gates.EmptyConfigPasses | src/llm_eval_platform/scoring/gates.py:19-48 | an empty configuration passes with no reasons and no checks |
| Gates.GateMinCheck | src/llm_eval_platform/scoring/gates.py:22-31 | the decision's "min_metric.<name>" check is pass iff value ≥ threshold, value −1.0 when missing |
| Gates.GateDropCheck | src/llm_eval_platform/scoring/gates.py:33-46 | the decision's "max_drop.<name>" check has the drop and verdict above, or 999.0 and fail |
| Gates.GateCheckCount | src/llm_eval_platform/scoring/gates.py:22-33 | one check per configured threshold |
| Gates.MinimumMetExample | src/llm_eval_platform/scoring/gates.py:22-31 | exact_match 0.6 against minimum 0.5 passes |
| Gates.DropExceededExample | src/llm_eval_platform/scoring/gates.py:33-46 | a drop of 0.2 against an allowed 0.1 fails with a reason |
| Analysis.ComputeReleaseStatus | src/llm_eval_platform/analysis.py:18-23 | BLOCKED iff the gate failed; DRIFT_WARNING iff it passed with alerts; APPROVED iff it passed without |
| Analysis.ReleaseBlockedIffCheckFails | src/llm_eval_platform/analysis.py:18-20 | through the gate: blocked exactly when some configured check fails |
| Analysis.P95Index | src/llm_eval_platform/analysis.py:30-31 | a valid index i with i+1 the least integer ≥ 0.95·n |
| Analysis.P95 | src/llm_eval_platform/analysis.py:26-32 | None iff no values; otherwise one of the values |
| Analysis.P95Rank | src/llm_eval_platform/analysis.py:26-32 | for any number of values, the p95 has at most P95Index(n) values strictly below it and at least P95Index(n)+1 at or below it, so it is the value of nearest rank ceil(0.95·n) |
| Analysis.P95OrderStatistic | src/llm_eval_platform/analysis.py:26-32 | a number meets both rank bounds exactly when it is the p95, so the bounds determine the value |
| Analysis.SortedRank | src/llm_eval_platform/analysis.py:29-32 | the element at index i of the sorted values has at most i values strictly below it and at least i+1 at or below it |
| Analysis.P95IsMaxBelowTwenty | src/llm_eval_platform/analysis.py:26-32 | with 1 to 19 values (10 included) the p95 is the maximum |
| Analysis.TagRecord | src/llm_eval_platform/analysis.py:43-56 | a slice record carries its run, tag key and value, and sample_count = number of rows |
| Analysis.TagRecordMeans | src/llm_eval_platform/analysis.py:47-54 | each score is the mean over the slice; judge is None iff no row in the slice has one |
| Analysis.TagRecords | src/llm_eval_platform/analysis.py:41-57 | one record per group, in group order |
| Analysis.BuildTagMetrics | src/llm_eval_platform/analysis.py:35-58 | the two loops produce the records of the specification |
| Analysis.GroupByTag | src/llm_eval_platform/analysis.py:36-39 | the grouping loop equals grouping of all (tag, result) pairs |
| Analysis.AddTags | src/llm_eval_platform/analysis.py:38-39 | one result's tags are added to their groups |
| Analysis.TagGroupsCarrying | src/llm_eval_platform/analysis.py:36-39 | the group of a (key, value) pair is exactly the results carrying that tag, in order |
| Analysis.TagMetricsForPair | src/llm_eval_platform/analysis.py:35-58 | a pair has a group iff some result carries it, and then a record over exactly those results |
| Analysis.Volatility | src/llm_eval_platform/analysis.py:71 | non-negative, and 0 with fewer than two points |
| Analysis.SummarizeTrends | src/llm_eval_platform/analysis.py:61-72 | the loop builds the three series (runs with metrics only, in order) and their volatilities |
| Analysis.SeriesLength | src/llm_eval_platform/analysis.py:64-68 | a series has one point per run that has aggregate metrics |
| Analysis.SeriesAppend | src/llm_eval_platform/analysis.py:64-68 | the series keeps run order: the series of two stretches of history is the first's followed by the second's |
| Analysis.SteadyMetricNoVolatility | src/llm_eval_platform/analysis.py:71 | a metric that never changes has volatility 0 |
| Analysis.ThresholdAlert | src/llm_eval_platform/analysis.py:84-110 | critical iff drop > threshold; warning iff 0.7·threshold < drop ≤ threshold; delta −drop, threshold −threshold, scope global |
| Analysis.VolatilityAlert | src/llm_eval_platform/analysis.py:111-120 | a global warning with no delta exactly when the variance exceeds 0.15² |
| Analysis.BuildDriftAlerts | src/llm_eval_platform/analysis.py:75-121 | the loop builds the alerts of the specification, or the exception message of a metric that cannot be read |
| Analysis.CollectThresholdAlerts | src/llm_eval_platform/analysis.py:83-110 | the threshold loop equals the specification fold |
| Analysis.ThresholdErrorSticks | src/llm_eval_platform/analysis.py:86-87 | once a metric lookup fails, the whole call fails with that error |
| Analysis.NoBaselineOnlyVolatility | src/llm_eval_platform/analysis.py:84-85 | without a baseline only volatility alerts are raised |
| Analysis.MissingMetricFails | src/llm_eval_platform/analysis.py:86-87 | a configured metric missing from either side makes the call fail |
| Analysis.ReadableNoError | src/llm_eval_platform/analysis.py:83-110 | when every configured metric reads on both sides, the threshold pass does not fail |
| Analysis.FirstUnreadableMetricNamed | src/llm_eval_platform/analysis.py:86-87 | the call fails with the message Python raises for the first unreadable metric: the `float(None)` TypeError for an absent judge score, the `getattr` AttributeError for any other name |
| Analysis.ThresholdAlertsShape | src/llm_eval_platform/analysis.py:83-110 | at most one threshold alert per configured metric, each global with a delta |
| Analysis.VolatilityAlertsShape | src/llm_eval_platform/analysis.py:111-120 | at most one volatility alert per metric, each a global warning without delta or threshold |
| Analysis.VolatilityAlertFor | src/llm_eval_platform/analysis.py:111-120 | a metric is warned about exactly when its variance exceeds the limit |
| Analysis.NotInMessages | src/llm_eval_platform/analysis.py:111-120 | a metric without volatility is never warned about |
| Analysis.Severity | src/llm_eval_platform/analysis.py:127-134 | for unit scores, severity is in [0,14], at least 4 with an error, and bounded without error flags |
| Analysis.ErrorsRankFirst | src/llm_eval_platform/analysis.py:127-134 | a row with an error ranks at least as high as a clean, schema-valid one |
| Analysis.TakePrefix | src/llm_eval_platform/analysis.py:149 | Python's `[:limit]`: the prefix of length min(limit, n), or n+limit for a negative limit |
| Analysis.WorstFailures | src/llm_eval_platform/analysis.py:124-149 | the loop plus the sort give the first `limit` of the stable descending ranking |
| Analysis.WorstFailuresRanked | src/llm_eval_platform/analysis.py:148-149 | the result is sorted by severity, ties keep input order, and nothing left out outranks anything kept |
| Analysis.ClusterFailures | src/llm_eval_platform/analysis.py:152-167 | the loop builds the clusters of the specification |
| Analysis.CountMisses | src/llm_eval_platform/analysis.py:158-159 | the inner loop counts each missed keyword |
| Analysis.ClusterCounts | src/llm_eval_platform/analysis.py:152-167 | an entry (message, n) is listed iff the message occurs n times; both lists descend by count |
| Analysis.OverlayRowOf | src/llm_eval_platform/analysis.py:177-186 | actual drop = max(0, −delta), breach = max(0, actual drop − allowed drop), passed iff breach is 0 iff actual drop ≤ allowed |
| Analysis.BuildThresholdOverlay | src/llm_eval_platform/analysis.py:170-187 | the loop builds the overlay of the specification |
| Analysis.OverlayRows | src/llm_eval_platform/analysis.py:176-186 | one row per delta key, in order, with allowed drop defaulting to 0 |
| Analysis.OverlayAgreesWithGate | src/llm_eval_platform/analysis.py:177-186 | for a non-negative allowance the overlay passes iff −delta ≤ allowed, as the gate does |
| Analysis.OverlayDisagreesForNegativeAllowance | src/llm_eval_platform/analysis.py:178-179 | with a negative allowance, an improving metric passes the gate rule but fails the overlay |
| Analysis.OverlayExample | src/llm_eval_platform/analysis.py:170-187 | a drop of 0.04 within 0.05 passes; 0.2 against 0.1 breaches by 0.1; a gain has no drop |
| Config.CanonicalFlat | src/llm_eval_platform/config.py:24 | serialising with sorted keys sees a flat payload in key order |
| Config.StableHashOrderIndependent | src/llm_eval_platform/config.py:23-25 | two payloads with the same entries hash alike, whatever their key order |
| Config.StableHashDetermines | src/llm_eval_platform/config.py:23-25 | with injective serialising and hashing, equal hashes mean equal entries |
| Config.SameEntry | src/llm_eval_platform/config.py:23-25 | equal hashes give equal values for every key |
| Config.RunKeyPayload | src/llm_eval_platform/config.py:38-46 | the run-key payload is flat with distinct keys |
| Config.BuildRunKey | src/llm_eval_platform/config.py:28-47 | the key is the first 16 characters of the payload's hash, or all of a shorter hash |
| Config.RunKeyIgnoresOtherFields | src/llm_eval_platform/config.py:38-47 | temperature, template, checksum and judge model never change the run key |
| Config.BuildFingerprints | src/llm_eval_platform/config.py:50-102 | each of the four fingerprints hashes its own payload, the config payload including both earlier fingerprints |
| Config.FingerprintScopes | src/llm_eval_platform/config.py:64-76 | the dataset fingerprint depends only on name, version and checksum; the prompt fingerprint only on prompt version and template |
| Config.PromptFingerprintSeesTemplate | src/llm_eval_platform/config.py:71-76 | different templates give different prompt fingerprints |
| Config.ChecksumReachesSignature | src/llm_eval_platform/config.py:64-96 | a changed checksum changes the dataset and config fingerprints and the signature |
| Config.ConfigPayloadsDiffer | src/llm_eval_platform/config.py:77-88 | config payloads that differ in any entry hash differently |
| Config.ConfigFingerprintSeesTemperature | src/llm_eval_platform/config.py:83 | temperatures that format differently to six places give different config fingerprints |
| Config.ConfigFingerprintSeesJudgeModel | src/llm_eval_platform/config.py:82 | a different judge model gives a different config fingerprint |
| Retrieval.BuildRetrievalContext | src/llm_eval_platform/runner/retrieval.py:6-9 | the fixed head followed by domain (default "general"), the difficulty label and difficulty (default "unknown") |
| Retrieval.UntaggedContext | src/llm_eval_platform/runner/retrieval.py:7-9 | an untagged item gives "domain=general; difficulty=unknown" |
| Retrieval.ContextDependsOnTwoTags | src/llm_eval_platform/runner/retrieval.py:6-9 | items that agree on the domain and difficulty tags get the same context |
| Retrieval.ContextNamesDomain | src/llm_eval_platform/runner/retrieval.py:7-9 | with the same difficulty, equal contexts mean equal domains |
| Experiment.DefaultTemplateSendsPrompt | src/llm_eval_platform/runner/experiment.py:107 | the default template sends the item prompt unchanged |
| Experiment.TemplateWithoutSlot | src/llm_eval_platform/runner/experiment.py:107 | a template without "{prompt}" is sent as is |
| Experiment.RetrievalPrefixesContext | src/llm_eval_platform/runner/experiment.py:108-109 | with retrieval, the prompt is the context, "\n\n", then the plain rendering |
| Experiment.Generate | src/llm_eval_platform/runner/experiment.py:111-140 | a failed backend call leaves output "" with the error and no judge score; the judge runs only with flag and model set; its score is in [0,1] |
| Experiment.SchemaErrorMessage | src/llm_eval_platform/runner/experiment.py:339-345 | no schema error exactly when the schema score is 1 |
| Experiment.EstimateTokens | src/llm_eval_platform/runner/experiment.py:336 | the fallback estimate is len // 4 |
| Experiment.ItemResultsOf | src/llm_eval_platform/runner/experiment.py:106-165 | one result per item, in item order |
| Experiment.ItemResultFacts | src/llm_eval_platform/runner/experiment.py:142-165 | ids, tags and keywords copied; misses are the keywords not found; the schema error only with a schema, and iff validity is 0; token fallbacks |
| Experiment.FailedBackendStillScored | src/llm_eval_platform/runner/experiment.py:136-142 | a backend failure does not stop the item: it is scored on "" and records the error |
| Experiment.RunItem | src/llm_eval_platform/runner/experiment.py:107-165 | the loop body builds the item's result |
| Experiment.RunItems | src/llm_eval_platform/runner/experiment.py:103-165 | the item loop produces exactly one result per item, in order |
| Experiment.LoadBaselineMetrics | src/llm_eval_platform/runner/experiment.py:238-244 | no id gives no baseline; an id fails exactly when no run with it has metrics; success returns that run's metrics |
| Experiment.ComputeMetricDeltas | src/llm_eval_platform/runner/experiment.py:247-255 | candidate − baseline for the three base metrics; the judge delta iff both have a judge score |
| Experiment.NoDeltaAgainstItself | src/llm_eval_platform/runner/experiment.py:247-255 | comparing metrics with themselves gives only zero deltas |
| Experiment.TagKeysCollide | src/llm_eval_platform/runner/experiment.py:262 | the "name:value" key merges distinct tag pairs such as ("a:b","c") and ("a","b:c") |
| Experiment.BreakdownOfSpec | src/llm_eval_platform/runner/experiment.py:274-281 | a group's breakdown holds the three means, and the judge mean iff some member has a judge score |
| Experiment.BreakdownFromSpec | src/llm_eval_platform/reporting/exporter.py:28-33 | the summary of aggregate metrics lists the three metrics and the judge score iff present |
| Experiment.BreakdownForKey | src/llm_eval_platform/runner/experiment.py:258-282 | a key has a breakdown iff some result carries the tag, and it averages exactly those results |
| Experiment.BreakdownsOfGet | src/llm_eval_platform/runner/experiment.py:273-281 | one breakdown per group, keyed as the group |
| Experiment.PerTagBreakdown | src/llm_eval_platform/runner/experiment.py:258-282 | the loops build the breakdown of the specification |
| Experiment.Breakdowns | src/llm_eval_platform/runner/experiment.py:272-282 | the averaging loop equals the specification |
| Experiment.FileScores | src/llm_eval_platform/runner/experiment.py:261-271 | the setdefault/append loop files one result's scores under its keys |
| Experiment.ScoredStage | src/llm_eval_platform/runner/experiment.py:168-169 | no results means failure; the aggregate counts every result; no baseline id means no baseline |
| Experiment.CompletionOf | src/llm_eval_platform/runner/experiment.py:167-203 | an empty run fails; release is BLOCKED iff the gate fails, APPROVED iff it passes with no alerts; without a baseline only volatility alerts |
| Experiment.DriftRecords | src/llm_eval_platform/runner/experiment.py:187-201 | one stored record per alert, with the run's dataset and the alert's fields |
| Experiment.LatenciesAllPresent | src/llm_eval_platform/runner/experiment.py:205 | when every result has a latency, the latency list is all of them, in order |
| Experiment.LatencyForEveryItem | src/llm_eval_platform/runner/experiment.py:116-140 | every item has a measured latency, whether or not its call failed |
| Experiment.TokenTotalsOfItems | src/llm_eval_platform/runner/experiment.py:208-209 | the token totals are non-negative and at most a quarter of the text length |
| Experiment.ErrorCount | src/llm_eval_platform/runner/experiment.py:223 | at most one per result, and 0 exactly when no result has an error |
| Experiment.AlertJson | src/llm_eval_platform/analysis.py:90-119 | an alert dict has delta and threshold keys exactly when the alert has them |
| Experiment.MetadataOf | src/llm_eval_platform/runner/experiment.py:222-227 | metadata holds the error count and one entry per drift alert |
| Experiment.UpdateOf | src/llm_eval_platform/runner/experiment.py:204-228 | the completion write carries metrics, gate, release and cost 0; average and p95 latency exactly when latencies exist, the p95 being one of them |
| Experiment.LatencySummaryOfRun | src/llm_eval_platform/runner/experiment.py:205-207 | a non-empty run always has an average and a p95 latency, the p95 being some item's latency |
| Experiment.RunIdsDistinct | src/llm_eval_platform/runner/experiment.py:80 | two versions of one run key never share a run id |
| Experiment.FinalRecord | src/llm_eval_platform/runner/experiment.py:210-234 | the run keeps its identity, gets completed_at, and is completed with the results or failed with nothing else changed |
| Experiment.EmptyDatasetFails | src/llm_eval_platform/runner/experiment.py:168-235 | a dataset without items always ends in a failed run |
| Experiment.ExperimentRunner.Execute | src/llm_eval_platform/runner/experiment.py:167-209 | stores one row per item, replaces the run's tag and alert rows when those stages are reached, and returns the completion update or the error |
| Experiment.ExperimentRunner.Run | src/llm_eval_platform/runner/experiment.py:47-235 | an unregistered dataset is refused with nothing written; otherwise exactly one new run ends completed or failed, with its item rows, and a returned run is the stored one |
| Experiment.ExperimentRunner.Complete | src/llm_eval_platform/runner/experiment.py:103-235 | after creation the run ends as the final record, completed with the results or failed, and is returned as stored |
| Repository.RowRoundTrip | src/llm_eval_platform/storage/repository.py:116-158 | flattening a result into a row and reading it back are inverse |
| Repository.ToRows | src/llm_eval_platform/storage/repository.py:115-123 | one row per result, in order |
| Repository.FromRows | src/llm_eval_platform/storage/repository.py:132-159 | one result per row, in order |
| Repository.UpdateKeepsIdentity | src/llm_eval_platform/storage/repository.py:86-88 | an update sets the status, keeps identity, and sets completed_at iff the status is completed or failed |
| Repository.UpdateWritesGivenFields | src/llm_eval_platform/storage/repository.py:89-108 | a field changes exactly when its argument is given |
| Repository.ApplyUpdateIdempotent | src/llm_eval_platform/storage/repository.py:86-110 | applying the same update twice is applying it once |
| Repository.StatusOnlyUpdate | src/llm_eval_platform/storage/repository.py:86-110 | a running update without fields changes only the status |
| Repository.UpdateWhere | src/llm_eval_platform/storage/repository.py:110 | only rows with that run_id change |
| Repository.MaxVersion | src/llm_eval_platform/storage/repository.py:60-62 | None iff no run has the key; otherwise the largest version of that key |
| Repository.NextVersionIn | src/llm_eval_platform/storage/repository.py:58-63 | above every version of the key: 1 when there are none, else max + 1 |
| Repository.NextVersionCountsUp | src/llm_eval_platform/storage/repository.py:58-63 | creating a run at the next version moves that key's next version up by one and no other key's |
| Repository.ReplaceTagMetricsRows | src/llm_eval_platform/storage/repository.py:185-189 | after a replace, the run's rows are exactly the new list and other runs' rows are unchanged |
| Repository.ReplaceDriftAlertRows | src/llm_eval_platform/storage/repository.py:216-220 | the same for drift alerts |
| Repository.UpsertLeavesOneRow | src/llm_eval_platform/storage/repository.py:35-44 | after an upsert exactly one row has (name, version), the record, and keys stay unique |
| Repository.FindDataset | src/llm_eval_platform/storage/repository.py:46-56 | found iff some row has the name and version, and then it is such a row |
| Repository.FindRun | src/llm_eval_platform/storage/repository.py:161-166 | found iff some run has the id, and then it is that run |
| Repository.DatasetHistory | src/llm_eval_platform/storage/repository.py:173-183 | exactly the runs of that dataset version, ordered by started_at ascending |
| Repository.FindRunAppended | src/llm_eval_platform/storage/repository.py:161-166 | get_run finds a run that create_run inserted, by its id |
| Repository.UpdateAppended | src/llm_eval_platform/storage/repository.py:110 | updating a just-created run rewrites only that last row |
| Repository.OrderedPage | src/llm_eval_platform/storage/repository.py:198-207 | a page is sorted descending, drawn from the rows, at most `limit` long, and as long as the LIMIT/OFFSET window |
| Repository.OrderedPageWindow | src/llm_eval_platform/storage/repository.py:198-207 | the page is exactly the LIMIT/OFFSET window of the rows sorted by the key |
| Repository.OrderedPageKeepsRows | src/llm_eval_platform/storage/repository.py:198-207 | a page holds no row more often than the table, and the unbounded page from offset 0 holds every row |
| Repository.EvalRepository.constructor | src/llm_eval_platform/storage/repository.py:32-33 | a new store is empty |
| Repository.EvalRepository.UpsertDataset | src/llm_eval_platform/storage/repository.py:35-44 | deletes (name, version) rows, appends the record, which is then what get_dataset returns; no other table changes |
| Repository.EvalRepository.GetDataset | src/llm_eval_platform/storage/repository.py:46-56 | the row with that name and version, if any |
| Repository.EvalRepository.NextRunVersion | src/llm_eval_platform/storage/repository.py:58-63 | the next version of the key over the runs table |
| Repository.EvalRepository.CreateRun | src/llm_eval_platform/storage/repository.py:65-68 | appends the run when its id is new, otherwise changes nothing and reports it |
| Repository.EvalRepository.UpdateRunStatus | src/llm_eval_platform/storage/repository.py:70-110 | rewrites the rows with that id by the partial update; no other table changes |
| Repository.EvalRepository.InsertItemResults | src/llm_eval_platform/storage/repository.py:112-125 | appends one flattened row per result (none for an empty list); no other table changes |
| Repository.RunResults | src/llm_eval_platform/storage/repository.py:127-159 | exactly the results rebuilt from the run's stored rows: every listed result is stored and every stored row of the run is listed |
| Repository.InsertThenList | src/llm_eval_platform/storage/repository.py:112-159 | inserting a run's results and listing the run gives its earlier results followed by the inserted ones, in order; for a new run, exactly the inserted results |
| Repository.FromToRows | src/llm_eval_platform/storage/repository.py:116-158 | results written as rows are read back unchanged |
| Repository.EvalRepository.ListItemResults | src/llm_eval_platform/storage/repository.py:127-159 | only results of that run, each from a stored row, and every stored row of the run is listed (the table-order listing RunResults) |
| Repository.EvalRepository.GetRun | src/llm_eval_platform/storage/repository.py:161-166 | the run with that id, if any |
| Repository.EvalRepository.ListRuns | src/llm_eval_platform/storage/repository.py:168-171 | all runs, newest first |
| Repository.EvalRepository.ListRunsByDataset | src/llm_eval_platform/storage/repository.py:173-183 | the dataset history of the runs table |
| Repository.EvalRepository.ReplaceTagMetrics | src/llm_eval_platform/storage/repository.py:185-189 | drops the run's rows and appends the new ones; no other table changes; listing the run afterwards gives exactly the new rows |
| Repository.EvalRepository.ListTagMetrics | src/llm_eval_platform/storage/repository.py:191-196 | exactly the stored rows of that run: only those, and all of them |
| Repository.EvalRepository.ListTagMetricsPaginated | src/llm_eval_platform/storage/repository.py:198-207 | rows of that run, by sample_count descending, at most `limit`; the OrderedPage window of the run's rows |
| Repository.EvalRepository.CountTagMetrics | src/llm_eval_platform/storage/repository.py:209-214 | at most the table size, and equal to the length of the unbounded listing from offset 0 |
| Repository.CountTagMetricsIsFullPage | src/llm_eval_platform/storage/repository.py:198-214 | the unbounded listing from offset 0 holds each of the run's rows exactly as often as the table, and its length is the count |
| Repository.EvalRepository.ReplaceDriftAlerts | src/llm_eval_platform/storage/repository.py:216-220 | drops the run's alerts and appends the new ones; no other table changes; the run's rows afterwards are exactly the new alerts |
| Repository.EvalRepository.ListDriftAlerts | src/llm_eval_platform/storage/repository.py:222-229 | exactly the run's alerts, newest first |
| Repository.EvalRepository.FilteredAlerts | src/llm_eval_platform/storage/repository.py:250-260 | exactly the stored alerts that pass the dataset, severity and metric filters |
| Repository.EvalRepository.ListDriftAlertsForDatasetPaginated | src/llm_eval_platform/storage/repository.py:243-264 | newest first, every row passes the dataset, severity and metric filters, at most `limit`; the OrderedPage window of the filtered alerts |
| Repository.EvalRepository.CountDriftAlertsForDataset | src/llm_eval_platform/storage/repository.py:266-284 | at most the table size, and equal to the length of the unbounded listing with the same filters |
| Repository.CountDriftAlertsIsFullPage | src/llm_eval_platform/storage/repository.py:243-284 | the unbounded listing from offset 0 holds every stored alert that passes the filters, and its length is the count |
| Db.AdditiveColumnsDistinct | src/llm_eval_platform/storage/db.py:175-201 | the additive column lists have no duplicates |
| Db.CreatedAll | src/llm_eval_platform/storage/db.py:137 | create_all adds missing declared tables and leaves existing ones alone |
| Db.MissingColumns | src/llm_eval_platform/storage/db.py:208-212 | the columns added are exactly the listed ones not already present |
| Db.NothingMissing | src/llm_eval_platform/storage/db.py:210-211 | when all columns exist nothing is added |
| Db.EnsureColumnsIdempotent | src/llm_eval_platform/storage/db.py:205-212 | a second call adds nothing |
| Db.Widened | src/llm_eval_platform/storage/db.py:205-212 | the table gains the columns, keeps its own, and other tables are unchanged |
| Db.MigratedHasAdditiveColumns | src/llm_eval_platform/storage/db.py:171-202 | after migration runs and item_results have every additive column |
| Db.Database.constructor | src/llm_eval_platform/storage/db.py:132-133 | a database with the given tables and version row |
| Db.Database.CreateAll | src/llm_eval_platform/storage/db.py:137 | creates the declared tables that are missing |
| Db.Database.EnsureColumns | src/llm_eval_platform/storage/db.py:205-212 | adds exactly the missing columns, and fails on a table that does not exist |
| Db.Database.MigrateAdditiveColumns | src/llm_eval_platform/storage/db.py:171-202 | widens runs then item_results |
| Db.Database.CreateAndMigrate | src/llm_eval_platform/storage/db.py:137-138 | create then migrate never fails |
| Db.Database.GateSchemaVersion | src/llm_eval_platform/storage/db.py:139-158 | fails iff the stored version exceeds 3; otherwise the version is 3 afterwards |
| Db.Database.InitDb | src/llm_eval_platform/storage/db.py:136-158 | tables migrated; error iff the stored version exceeds 3, leaving it; otherwise version 3 |
| Db.Database.GetSchemaVersion | src/llm_eval_platform/storage/db.py:161-168 | the stored version, or the "not initialized" error without a row |
| Db.InitThenRead | src/llm_eval_platform/storage/db.py:136-168 | a successful init always reads back version 3; a newer stored version stops at the init error, before any read, and is kept |
| Service.SliceBound | src/llm_eval_platform/service.py:152 | a Python slice bound clamped into [0, n] |
| Service.PySlice | src/llm_eval_platform/service.py:152 | `s[start:stop]` for non-negative bounds is the clamped window |
| Service.PySliceSplit | src/llm_eval_platform/service.py:152 | consecutive windows neither skip nor repeat an element |
| Service.PageHasMore | src/llm_eval_platform/service.py:201-213 | for a non-negative window, has_more iff rows remain after the page |
| Service.FailureReportOf | src/llm_eval_platform/service.py:149-161 | total is the number of results, the page is no longer, has_more iff offset + limit < total |
| Service.FailurePageWindow | src/llm_eval_platform/service.py:150-160 | the page is the [offset, offset+limit) window of the full ranking, sorted by severity, and has_more iff results remain after it |
| Service.FailurePagesTile | src/llm_eval_platform/service.py:152 | two consecutive pages make up the double-size page |
| Service.RunInOwnHistory | src/llm_eval_platform/service.py:129-133 | a run appears in its own dataset history |
| Service.Compare | src/llm_eval_platform/service.py:84-114 | fails iff either run lacks metrics, with the source's messages, baseline first; the gate uses the given or empty config; one overlay row per delta with the allowed drop |
| Service.CompareWithItself | src/llm_eval_platform/service.py:103-113 | a run compared with itself has zero deltas and no drop; without config every overlay row passes |
| Service.OverridesApplied | src/llm_eval_platform/service.py:45-52 | each override replaces its field exactly when supplied (a model name when non-empty); nothing else changes |
| Service.OverridesIdempotent | src/llm_eval_platform/service.py:45-52 | no overrides change nothing, and applying overrides twice is applying them once |
| Service.ApplyOverrides | src/llm_eval_platform/service.py:42-53 | the step-by-step payload edits give the overridden configuration |
| Service.MergeOverrides | src/llm_eval_platform/service.py:55-64 | the step-by-step metadata edits give the merged metadata |
| Service.OverrideMetadataGet | src/llm_eval_platform/service.py:55-64 | config_path is set; each override key holds its value iff supplied; every other key is the run's own |
| Service.OverridesRecordedExactly | src/llm_eval_platform/service.py:55-64 | an override key is present iff that override was supplied, and no other key changes |
| Service.SetMetadataFound | src/llm_eval_platform/service.py:65-68 | after the metadata write, reading the run gives it with the new metadata |
| Service.UpdateRunMetadata | src/llm_eval_platform/service.py:65 | the intended write: the run's metadata is replaced, no other table changes |
| Service.EvalService.constructor | src/llm_eval_platform/service.py:23-31 | the service and its runner share one store, whose keys hold |
| Service.EvalService.CompareRuns | src/llm_eval_platform/service.py:84-114 | the comparison of the two stored runs; success implies both exist |
| Service.EvalService.GetFailureAnalysis | src/llm_eval_platform/service.py:149-161 | the report of the run's stored results |
| Service.EvalService.TagMetricsPage | src/llm_eval_platform/service.py:204-214 | the page and the count of the run's tag rows; has_more iff rows remain after the page |
| Service.EvalService.AlertTimeline | src/llm_eval_platform/service.py:166-202 | an unknown run fails with "Run X not found."; otherwise the run's alerts, a filtered page of its dataset's alerts, the count, and has_more iff alerts remain |
| Service.EvalService.AlertTimelineFirstPage | src/llm_eval_platform/service.py:163-164 | at most 50 unfiltered alerts from offset 0 |
| Service.EvalService.GetRunTrends | src/llm_eval_platform/service.py:128-147 | an unknown run fails; trends of its dataset history; persisted alerts, or the metadata's "drift_alerts" only when none are persisted |
| Service.EvalService.RunFromConfigAsWritten | src/llm_eval_platform/service.py:33-69 | as written, the run of the overridden configuration is executed and stored exactly as `run` stores it (unregistered dataset: nothing written), and every call then fails, with the missing-method message when the run completed |
| Service.EvalService.RunFromConfig | src/llm_eval_platform/service.py:33-69 | the run executed is the one of the overridden configuration: an unregistered dataset writes nothing; otherwise its item rows are appended, a failure is returned with the failed run stored, and a completed run is stored and returned with the merged override metadata, its model, seed and temperature those of the overrides |
| Service.EvalService.StoreOverrides | src/llm_eval_platform/service.py:56-69 | the run just stored gains the merged override metadata and is re-read: it is the last row, found by its id, and records the config path; no other table changes |
| Exporter.DegradationScore | src/llm_eval_platform/reporting/exporter.py:177 | for unit metrics the score is in [0,1] |
| Exporter.DegradationZeroIffPerfect | src/llm_eval_platform/reporting/exporter.py:177 | 0 exactly for a perfect slice, 1 for an all-zero one |
| Exporter.DegradationMonotone | src/llm_eval_platform/reporting/exporter.py:177 | better metrics never give a higher degradation |
| Exporter.SliceOf | src/llm_eval_platform/reporting/exporter.py:174-185 | a missing metric reads as 0.0, and the score is that of the three values |
| Exporter.SlicesOf | src/llm_eval_platform/reporting/exporter.py:173-186 | one row per breakdown entry, in order |
| Exporter.DegradedSlicesRanked | src/llm_eval_platform/reporting/exporter.py:171-188 | a permutation of the rows, sorted by descending score, ties in input order, each from an entry |
| Exporter.DegradedSlices | src/llm_eval_platform/reporting/exporter.py:171-188 | the loop and the sort give the ranked slices |
| Exporter.TagRowsSorted | src/llm_eval_platform/reporting/exporter.py:109-113 | the per-tag rows are in strictly increasing tag order, each from an entry, whatever the dict order |
| Exporter.MarkdownReport | src/llm_eval_platform/reporting/exporter.py:10-114 | fails iff the run has no aggregate metrics; at most 10 worst slices and 20 timeline alerts, the first ones; one tag row per entry |
| Exporter.ReportSummary | src/llm_eval_platform/reporting/exporter.py:21-33 | the summary lists the three metrics and the judge score iff present |
| Exporter.ReportShowsWorstSlices | src/llm_eval_platform/reporting/exporter.py:49-89 | no slice left out of the report is worse than one shown |
| Sorting.SortDescStable | src/llm_eval_platform/analysis.py:148 | the descending sort keeps the input order of equal keys, as `list.sort` does |
| Tables.Page | src/llm_eval_platform/storage/repository.py:204-205 | `LIMIT`/`OFFSET` take the contiguous window from the clamped offset; a negative limit has no bound |
| Stats.ConstantSeriesVariance | src/llm_eval_platform/analysis.py:71 | a constant series has variance 0 |
| Text.StripLower | src/llm_eval_platform/scoring/metrics.py:14 | stripping and lower-casing commute |

## Left out

- I/O is not modelled: YAML loading, dataset file reading and checksums, the HTTP model backend, report file writes, and deleting report files.
- `api.py` and `cli.py` are not modelled; they forward to the service.
- `reset_application_data` (service.py:71-82) is not modelled. It calls a repository method that does not exist, then deletes files.
- Analysis.FirstUnreadableMetricNamed: a drift threshold named after another attribute of the pydantic model (a method such as `copy`, or `model_fields`) reads that attribute in the source, and `float()` then raises a TypeError naming its type; the model gives the missing-attribute message for every name other than the five metrics. Names are quoted with `'` as `repr` quotes names without a quote in them.
- `export_reports`, `metrics_snapshot_payload` and `serialize_json` are not modelled; they produce text and files only.
- The markdown text of `build_markdown_report` is not modelled. `:.4f` formatting, the per-line layout and the alert timestamp cut are left out. The report is a value holding what the text shows.
- `load_gate_config_file`, `schema_version`, `list_local_models` and `AppConfig` are not modelled. They read files, read the database, or call the backend.
- Floating point is not modelled: scores are reals, and `float(delta)` and `int(seed)` conversions are identities.
- Analysis.Volatility: holds the population variance, not the standard deviation. An alert is raised above 0.0225 = 0.15². The `volatility` values stored in metadata are therefore variances.
- Token estimates keep only the `len // 4` fallback; tiktoken and its encoding cache are left out.
- Elapsed times are inputs of the environment: per-item latency and run duration.
- Pydantic is not modelled: `model_validate`, `model_dump` and JSON conversion are the identity on the model's records.
- A JSON-Schema document that is itself invalid (`SchemaError`, which the source does not catch) is not modelled; the validator always returns a verdict.
- Experiment.ExperimentRunner.Run: a run id that already exists is returned as an error with nothing written. The source's insert would raise an integrity error instead.
- Experiment.ExperimentRunner.Complete: the re-read after completion always finds the run, so the branch that raises there and rewrites the run as failed is not modelled.
- Service.EvalService.RunFromConfig: the re-read after the metadata write always finds the run, so the "not found after metadata update" error is not modelled.
- Repository.EvalRepository.ListDriftAlertsForDatasetPaginated: the `LIKE '%text%'` filter is modelled as substring search after folding ASCII A-Z to lower case, as SQLite's `LIKE` does. The `%` and `_` wildcards inside the text are left out.
- Text.Lower: case mapping covers the ASCII and Latin-1 upper-case letters only and keeps the length. Python's `str.lower()` maps all of Unicode: Greek and Cyrillic letters, the Kelvin sign to `k`, and `İ` to two characters. Metrics.ExactMatchScore, Metrics.KeywordCoverageScore and Metrics.KeywordMisses therefore differ from the source on such text.
- Metrics.ExactMatchScore: "equal after lower-casing" uses Text.Lower, so for example expected "Ω" against output "ω" scores 0.0 here and 1.0 in the source.
- Metrics.ExactMatchIgnoresCase: holds for the case mapping of Text.Lower, that is for ASCII and Latin-1 letters only.
- Metrics.KeywordCoverageScore: "found" compares under Text.Lower, so for example keyword "Ω" in output "ω" is a miss here and a hit in the source.
- Repository.OrderedPage: ties under `ORDER BY` keep insertion order; SQL leaves their order unspecified. The tag-metric `id` tie-break is therefore the insertion order.
- Service.PageHasMore: stated for non-negative limit and offset. With a negative window, `has_more` is still the source's formula, but its meaning for SQLite's unbounded pages is not stated.
- Service.EvalService.AlertTimeline: stated for non-negative windows in the same way.
- Db.Database: SQL column types and DDL are not modelled; only each table's set of column names is.
- Exporter.MarkdownReport: the gate, drift and comparison sections are carried over unchanged and not rendered. The `alert.get('metric', 'global')` default is not modelled.

## Findings

| source | as written | input that shows it | evidently intended | confidence | as-written member | corrected member |
|---|---|---|---|---|---|---|
| src/llm_eval_platform/service.py:65 | `run_from_config` calls `self.repository.update_run_metadata`. `EvalRepository` has no such method, so every call raises `AttributeError` after the run has completed and been stored. | Any configuration whose run completes, e.g. a registered dataset with one item and no overrides. The run is stored, then the call fails. | Store the merged override metadata on the run, then return the re-read run. | not executed | Service.EvalService.RunFromConfigAsWritten | Service.EvalService.RunFromConfig (with Service.EvalService.StoreOverrides, Service.UpdateRunMetadata and Service.OverridesRecordedExactly) |
