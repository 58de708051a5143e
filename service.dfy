/** The service the API and CLI call: comparing two stored runs, the
    failure-analysis page, the tag-metric and alert-timeline pages with
    their `has_more` flags, a run's trends, and running a configuration
    with command-line overrides recorded in the run's metadata. */
module Service {
  import opened Outcomes
  import opened Text
  import opened Dicts
  import opened Sorting
  import opened Models
  import opened Gates
  import opened Analysis
  import opened Tables
  import opened Repository
  import opened Experiment

  // ---- Windows ----

  /** A bound of a Python slice: a negative bound counts from the end, then
      it is clamped into `[0, n]`. */
  function SliceBound(i: int, n: nat): (b: nat)
    ensures b <= n
    ensures 0 <= i <= n ==> b == i
    ensures i > n ==> b == n
  {
    if i < 0 then (if n + i < 0 then 0 else n + i) else if i > n then n else i
  }

  /** Python's `s[start:stop]`. */
  function PySlice<T>(s: seq<T>, start: int, stop: int): (r: seq<T>)
    ensures |r| <= |s|
    ensures 0 <= start <= stop ==> r == s[SliceBound(start, |s|)..SliceBound(stop, |s|)]
  {
    var lo, hi := SliceBound(start, |s|), SliceBound(stop, |s|);
    if lo < hi then s[lo..hi] else []
  }

  /** Consecutive windows neither skip nor repeat an element. */
  lemma PySliceSplit<T>(s: seq<T>, a: int, b: int, c: int)
    requires 0 <= a <= b <= c
    ensures PySlice(s, a, b) + PySlice(s, b, c) == PySlice(s, a, c)
  {
    var lo, mid, hi := SliceBound(a, |s|), SliceBound(b, |s|), SliceBound(c, |s|);
    assert s[lo..mid] + s[mid..hi] == s[lo..hi];
  }

  /** For a non-negative window, `offset + limit < total` says exactly
      that rows remain past the page `LIMIT limit OFFSET offset` returns. */
  lemma PageHasMore<T>(rows: seq<T>, limit: int, offset: int)
    requires limit >= 0 && offset >= 0
    ensures offset + limit < |rows| <==> offset + |Page(rows, limit, offset)| < |rows|
  {
  }

  // ---- Failure analysis ----

  /** The answer of `get_failure_analysis`. */
  datatype FailureReport = FailureReport(
    runId: string,
    worstSamples: seq<FailureSample>,
    clusters: Clusters,
    total: nat,
    offset: int,
    limit: int,
    hasMore: bool)

  /** A window of a ranking is ranked. */
  lemma SortedWindow<T>(s: seq<T>, key: T -> real, lo: nat, hi: nat)
    requires SortedDesc(s, key) && lo <= hi <= |s|
    ensures SortedDesc(s[lo..hi], key)
  {
    forall i, j | 0 <= i < j < hi - lo
      ensures key(s[lo..hi][i]) >= key(s[lo..hi][j])
    {
      assert s[lo..hi][i] == s[lo + i] && s[lo..hi][j] == s[lo + j];
    }
  }

  /** All samples of a run, worst first (`worst_failures` with no cut). */
  function Ranked(results: seq<ItemResult>): (r: seq<FailureSample>)
    ensures |r| == |results|
  {
    SortDesc(Samples(results), SeverityKey)
  }

  /** Every result ranked worst first, then the window
      `[offset, offset + limit)` of the ranking. */
  function FailureReportOf(runId: string, results: seq<ItemResult>, limit: int, offset: int): (f: FailureReport)
    ensures f.total == |results|
    ensures |f.worstSamples| <= |results|
    ensures f.hasMore <==> offset + limit < |results|
  {
    var ranked := Ranked(results);
    FailureReport(runId, PySlice(ranked, offset, offset + limit), ClustersOf(results), |ranked|,
                  offset, limit, offset + limit < |ranked|)
  }

  /** For a non-negative window the page is the ranking from `offset` on,
      at most `limit` samples, worst first, and `has_more` holds exactly
      when ranked samples remain past it. */
  lemma FailurePageWindow(runId: string, results: seq<ItemResult>, limit: int, offset: int)
    requires limit >= 0 && offset >= 0
    ensures var f := FailureReportOf(runId, results, limit, offset);
      var ranked := Ranked(results);
      var n := |ranked|;
      f.worstSamples == ranked[(if offset < n then offset else n)..(if offset + limit < n then offset + limit else n)]
      && SortedDesc(f.worstSamples, SeverityKey)
      && (f.hasMore <==> offset + |f.worstSamples| < f.total)
  {
    var ranked := Ranked(results);
    var lo, hi := SliceBound(offset, |ranked|), SliceBound(offset + limit, |ranked|);
    assert FailureReportOf(runId, results, limit, offset).worstSamples == ranked[lo..hi];
    SortDescSorted(Samples(results), SeverityKey);
    SortedWindow(ranked, SeverityKey, lo, hi);
  }

  /** The samples of a report are the Python slice of the ranking. */
  lemma FailureReportSamples(runId: string, results: seq<ItemResult>, limit: int, offset: int, stop: int)
    requires stop == offset + limit
    ensures FailureReportOf(runId, results, limit, offset).worstSamples == PySlice(Ranked(results), offset, stop)
  {
  }

  /** Paging through the ranking with a fixed `limit` neither skips nor
      repeats a sample. */
  lemma FailurePagesTile(runId: string, results: seq<ItemResult>, limit: int, offset: int)
    requires limit >= 0 && offset >= 0
    ensures FailureReportOf(runId, results, limit, offset).worstSamples
          + FailureReportOf(runId, results, limit, offset + limit).worstSamples
         == FailureReportOf(runId, results, 2 * limit, offset).worstSamples
  {
    var ranked := Ranked(results);
    var mid, end := offset + limit, offset + 2 * limit;
    FailureReportSamples(runId, results, limit, offset, mid);
    FailureReportSamples(runId, results, limit, mid, end);
    FailureReportSamples(runId, results, 2 * limit, offset, end);
    PySliceSplit(ranked, offset, mid, end);
  }

  // ---- Pages ----

  /** A page of rows with its window and the count of all rows. */
  datatype Window<T> = Window(runId: string, rows: seq<T>, limit: int, offset: int, total: nat, hasMore: bool)

  /** The answer of `get_alert_timeline_paginated`. */
  datatype Timeline = Timeline(
    runId: string,
    runAlerts: seq<DriftAlertRecord>,
    datasetAlerts: seq<DriftAlertRecord>,
    limit: int,
    offset: int,
    total: nat,
    hasMore: bool)

  /** `get_alert_timeline` reads the first fifty alerts, unfiltered. */
  const TimelineLimit := 50

  // ---- Trends ----

  /** The alerts of a drift summary: the persisted alert rows, or, when a
      run has none, whatever its metadata holds under "drift_alerts". */
  datatype AlertView = Persisted(records: seq<DriftAlertRecord>) | FromMetadata(value: Json)

  datatype DriftSummary = DriftSummary(
    runId: string,
    datasetName: string,
    datasetVersion: string,
    trends: Trends,
    alerts: AlertView)

  /** A run is part of the history of its own dataset version. */
  lemma RunInOwnHistory(runs: seq<RunRecord>, run: RunRecord)
    requires run in runs
    ensures run in DatasetHistory(runs, run.datasetName, run.datasetVersion)
  {
    var selected := Select(runs, RunOfDataset(run.datasetName, run.datasetVersion));
    assert run in selected;
    assert run in multiset(DatasetHistory(runs, run.datasetName, run.datasetVersion));
  }

  // ---- Comparison ----

  /** The answer of `compare_runs`. */
  datatype CompareResult = CompareResult(
    baselineRunId: string,
    candidateRunId: string,
    baselineMetrics: AggregateMetrics,
    candidateMetrics: AggregateMetrics,
    deltas: Dict<string, real>,
    gateDecision: GateDecision,
    thresholdOverlay: Dict<string, OverlayRow>)

  /** The aggregate metrics of a stored run, if it exists and has them. */
  function StoredMetrics(run: Option<RunRecord>): Option<AggregateMetrics>
  {
    if run.Some? then run.value.aggregateMetrics else None
  }

  /** `compare_runs` over the two stored runs: both must have metrics; the
      gate uses the given configuration or none at all, and the deltas and
      the overlay both come from `compute_metric_deltas`. */
  function Compare(baselineRunId: string, candidateRunId: string,
                   baseline: Option<RunRecord>, candidate: Option<RunRecord>,
                   gateConfig: Option<GateConfig>): (r: Result<CompareResult, string>)
    ensures r.Ok? <==> StoredMetrics(baseline).Some? && StoredMetrics(candidate).Some?
    ensures StoredMetrics(baseline).None? ==> r == Err("Baseline run " + baselineRunId + " missing metrics.")
    ensures StoredMetrics(baseline).Some? && StoredMetrics(candidate).None? ==>
      r == Err("Candidate run " + candidateRunId + " missing metrics.")
    ensures r.Ok? ==>
      r.value.baselineRunId == baselineRunId && r.value.candidateRunId == candidateRunId
      && r.value.baselineMetrics == StoredMetrics(baseline).value
      && r.value.candidateMetrics == StoredMetrics(candidate).value
    ensures r.Ok? ==>
      r.value.gateDecision
      == GateDecisionOf(r.value.candidateMetrics, gateConfig.GetOr(DefaultGateConfig), Some(r.value.baselineMetrics))
    ensures r.Ok? && gateConfig.None? ==> r.value.gateDecision == GateDecision(Pass, [], [])
    ensures r.Ok? ==> var allowed := gateConfig.GetOr(DefaultGateConfig).maxDropFromBaseline;
      |r.value.thresholdOverlay| == |r.value.deltas|
      && forall i :: 0 <= i < |r.value.deltas| ==>
           r.value.thresholdOverlay[i]
           == (r.value.deltas[i].0, OverlayRowOf(r.value.deltas[i].1, GetOr(allowed, r.value.deltas[i].0, 0.0)))
  {
    var b, c := StoredMetrics(baseline), StoredMetrics(candidate);
    if b.None? then Err("Baseline run " + baselineRunId + " missing metrics.")
    else if c.None? then Err("Candidate run " + candidateRunId + " missing metrics.")
    else
      var config := gateConfig.GetOr(DefaultGateConfig);
      var deltas := ComputeMetricDeltas(c.value, b.value);
      EmptyConfigPasses(c.value, Some(b.value));
      OverlayRows(deltas, config.maxDropFromBaseline);
      Ok(CompareResult(baselineRunId, candidateRunId, b.value, c.value, deltas,
                       GateDecisionOf(c.value, config, Some(b.value)),
                       OverlayOf(deltas, config.maxDropFromBaseline)))
  }

  /** A run compared with itself shows no change: every delta is zero, no
      row of the overlay records a drop, and without a gate configuration
      every row passes. */
  lemma CompareWithItself(runId: string, run: Option<RunRecord>, gateConfig: Option<GateConfig>)
    requires Compare(runId, runId, run, run, gateConfig).Ok?
    ensures var r := Compare(runId, runId, run, run, gateConfig).value;
      (forall i :: 0 <= i < |r.deltas| ==> r.deltas[i].1 == 0.0)
      && (forall i :: 0 <= i < |r.thresholdOverlay| ==> r.thresholdOverlay[i].1.actualDrop == 0.0)
      && (gateConfig.None? ==> forall i :: 0 <= i < |r.thresholdOverlay| ==> r.thresholdOverlay[i].1.passed)
  {
    var r := Compare(runId, runId, run, run, gateConfig).value;
    NoDeltaAgainstItself(r.baselineMetrics);
    forall i | 0 <= i < |r.thresholdOverlay|
      ensures r.thresholdOverlay[i].1.actualDrop == 0.0
      ensures gateConfig.None? ==> r.thresholdOverlay[i].1.passed
    {
      assert r.deltas[i].1 == 0.0;
    }
  }

  // ---- Running a configuration ----

  /** The optional command-line overrides of `run_from_config`. */
  datatype Overrides = Overrides(
    modelName: Option<string>,
    seed: Option<int>,
    temperature: Option<real>,
    baselineRunId: Option<string>)

  const NoOverrides := Overrides(None, None, None, None)

  /** The configuration with the overrides written into it: the model only
      when a non-empty name is given, the others whenever given. */
  function OverriddenConfig(config: EvalRunConfig, o: Overrides): EvalRunConfig
  {
    var v := config.variant;
    EvalRunConfig(
      v.(modelName := if Truthy(o.modelName) then o.modelName.value else v.modelName,
         seed := o.seed.GetOr(v.seed),
         temperature := o.temperature.GetOr(v.temperature)),
      config.gates.(baselineRunId := if o.baselineRunId.Some? then o.baselineRunId else config.gates.baselineRunId))
  }

  /** Each override replaces its field only when it is supplied, and no
      other field changes. */
  lemma OverridesApplied(config: EvalRunConfig, o: Overrides)
    ensures var c := OverriddenConfig(config, o);
      (c.variant.modelName == if Truthy(o.modelName) then o.modelName.value else config.variant.modelName)
      && (c.variant.seed == if o.seed.Some? then o.seed.value else config.variant.seed)
      && (c.variant.temperature == if o.temperature.Some? then o.temperature.value else config.variant.temperature)
      && (c.gates.baselineRunId == if o.baselineRunId.Some? then o.baselineRunId else config.gates.baselineRunId)
      && c.variant.(modelName := config.variant.modelName, seed := config.variant.seed,
                    temperature := config.variant.temperature) == config.variant
      && c.gates.(baselineRunId := config.gates.baselineRunId) == config.gates
  {
  }

  /** Without overrides the configuration runs as loaded; applying the
      same overrides twice is applying them once. */
  lemma OverridesIdempotent(config: EvalRunConfig, o: Overrides)
    ensures OverriddenConfig(config, NoOverrides) == config
    ensures OverriddenConfig(OverriddenConfig(config, o), o) == OverriddenConfig(config, o)
  {
  }

  /** `payload[...] = ...` for each supplied override, in the order of
      the source. */
  method ApplyOverrides(config: EvalRunConfig, o: Overrides) returns (c: EvalRunConfig)
    ensures c == OverriddenConfig(config, o)
  {
    var variant := config.variant;
    var gates := config.gates;
    if Truthy(o.modelName) {
      variant := variant.(modelName := o.modelName.value);
    }
    if o.seed.Some? {
      variant := variant.(seed := o.seed.value);
    }
    if o.temperature.Some? {
      variant := variant.(temperature := o.temperature.value);
    }
    if o.baselineRunId.Some? {
      gates := gates.(baselineRunId := o.baselineRunId);
    }
    c := EvalRunConfig(variant, gates);
  }

  /** `d[key] = v` when `c` holds; `d` otherwise. */
  function PutIf(d: Dict<string, Json>, c: bool, key: string, v: Json): Dict<string, Json>
  {
    if c then Put(d, key, v) else d
  }

  /** The run's metadata with the configuration path and each supplied
      override added. */
  function OverrideMetadata(base: Dict<string, Json>, path: string, o: Overrides): Dict<string, Json>
  {
    var m0 := Put(base, "config_path", JStr(path));
    var m1 := PutIf(m0, Truthy(o.modelName), "model_override", JStr(o.modelName.GetOr("")));
    var m2 := PutIf(m1, o.seed.Some?, "seed_override", JInt(o.seed.GetOr(0)));
    var m3 := PutIf(m2, o.temperature.Some?, "temperature_override", JReal(o.temperature.GetOr(0.0)));
    PutIf(m3, o.baselineRunId.Some?, "baseline_run_id_override", JStr(o.baselineRunId.GetOr("")))
  }

  /** `metadata = dict(run.metadata or {})`, then one assignment per
      supplied override. */
  method MergeOverrides(base: Dict<string, Json>, path: string, o: Overrides) returns (metadata: Dict<string, Json>)
    ensures metadata == OverrideMetadata(base, path, o)
  {
    metadata := base;
    metadata := Put(metadata, "config_path", JStr(path));
    if Truthy(o.modelName) {
      metadata := Put(metadata, "model_override", JStr(o.modelName.value));
    }
    if o.seed.Some? {
      metadata := Put(metadata, "seed_override", JInt(o.seed.value));
    }
    if o.temperature.Some? {
      metadata := Put(metadata, "temperature_override", JReal(o.temperature.value));
    }
    if o.baselineRunId.Some? {
      metadata := Put(metadata, "baseline_run_id_override", JStr(o.baselineRunId.value));
    }
  }

  /** The keys the overrides are recorded under. */
  predicate OverrideKey(k: string)
  {
    k == "config_path" || k == "model_override" || k == "seed_override"
    || k == "temperature_override" || k == "baseline_run_id_override"
  }

  /** A lookup in the merged metadata: the path always, each override when
      it was supplied, and the run's own entry for every other key. */
  lemma OverrideMetadataGet(base: Dict<string, Json>, path: string, o: Overrides, k: string)
    ensures DistinctKeys(base) ==> DistinctKeys(OverrideMetadata(base, path, o))
    ensures Get(OverrideMetadata(base, path, o), k) ==
      if k == "config_path" then Some(JStr(path))
      else if k == "model_override" && Truthy(o.modelName) then Some(JStr(o.modelName.value))
      else if k == "seed_override" && o.seed.Some? then Some(JInt(o.seed.value))
      else if k == "temperature_override" && o.temperature.Some? then Some(JReal(o.temperature.value))
      else if k == "baseline_run_id_override" && o.baselineRunId.Some? then Some(JStr(o.baselineRunId.value))
      else Get(base, k)
  {
    var m0 := Put(base, "config_path", JStr(path));
    PutGet(base, "config_path", JStr(path), k);
    var m1 := PutIf(m0, Truthy(o.modelName), "model_override", JStr(o.modelName.GetOr("")));
    PutIfGet(m0, Truthy(o.modelName), "model_override", JStr(o.modelName.GetOr("")), k);
    var m2 := PutIf(m1, o.seed.Some?, "seed_override", JInt(o.seed.GetOr(0)));
    PutIfGet(m1, o.seed.Some?, "seed_override", JInt(o.seed.GetOr(0)), k);
    var m3 := PutIf(m2, o.temperature.Some?, "temperature_override", JReal(o.temperature.GetOr(0.0)));
    PutIfGet(m2, o.temperature.Some?, "temperature_override", JReal(o.temperature.GetOr(0.0)), k);
    PutIfGet(m3, o.baselineRunId.Some?, "baseline_run_id_override", JStr(o.baselineRunId.GetOr("")), k);
  }

  /** What a conditional `d[key] = v` does to lookups and to distinct keys. */
  lemma PutIfGet(d: Dict<string, Json>, c: bool, key: string, v: Json, k: string)
    ensures DistinctKeys(d) ==> DistinctKeys(PutIf(d, c, key, v))
    ensures Get(PutIf(d, c, key, v), k) == if c && k == key then Some(v) else Get(d, k)
  {
    PutGet(d, key, v, k);
  }

  /** When the run's metadata has none of these keys, the merged metadata
      records exactly the overrides that were supplied. */
  lemma OverridesRecordedExactly(base: Dict<string, Json>, path: string, o: Overrides)
    requires forall k :: OverrideKey(k) ==> !HasKey(base, k)
    ensures var m := OverrideMetadata(base, path, o);
      Get(m, "config_path") == Some(JStr(path))
      && (HasKey(m, "model_override") <==> Truthy(o.modelName))
      && (HasKey(m, "seed_override") <==> o.seed.Some?)
      && (HasKey(m, "temperature_override") <==> o.temperature.Some?)
      && (HasKey(m, "baseline_run_id_override") <==> o.baselineRunId.Some?)
      && (forall k :: !OverrideKey(k) ==> Get(m, k) == Get(base, k))
  {
    OverrideMetadataGet(base, path, o, "config_path");
    OverrideMetadataGet(base, path, o, "model_override");
    OverrideMetadataGet(base, path, o, "seed_override");
    OverrideMetadataGet(base, path, o, "temperature_override");
    OverrideMetadataGet(base, path, o, "baseline_run_id_override");
    forall k | !OverrideKey(k)
      ensures Get(OverrideMetadata(base, path, o), k) == Get(base, k)
    {
      OverrideMetadataGet(base, path, o, k);
    }
  }

  /** The runs with the metadata of one run replaced. */
  function SetMetadata(runs: seq<RunRecord>, runId: string, metadata: Dict<string, Json>): (rs: seq<RunRecord>)
    ensures |rs| == |runs|
    ensures forall i :: 0 <= i < |runs| ==> rs[i].runId == runs[i].runId
  {
    seq(|runs|, i requires 0 <= i < |runs| =>
      if runs[i].runId == runId then runs[i].(metadata := metadata) else runs[i])
  }

  /** Replacing a run's metadata keeps run ids unique and is what a lookup
      of that run then finds. */
  lemma SetMetadataFound(runs: seq<RunRecord>, run: RunRecord, metadata: Dict<string, Json>)
    requires UniqueRunIds(runs) && FindRun(runs, run.runId) == Some(run)
    ensures UniqueRunIds(SetMetadata(runs, run.runId, metadata))
    ensures FindRun(SetMetadata(runs, run.runId, metadata), run.runId) == Some(run.(metadata := metadata))
  {
    var rs := SetMetadata(runs, run.runId, metadata);
    var i :| 0 <= i < |runs| && runs[i] == run;
    assert rs[i] == run.(metadata := metadata);
    assert UniqueRunIds(rs);
    FindRunUnique(rs, i);
  }

  /** The metadata write `run_from_config` expects of the repository:
      repository.py defines no such method, so this is the intended
      behaviour (see the corrected `EvalService.RunFromConfig`). */
  method UpdateRunMetadata(repository: EvalRepository, runId: string, metadata: Dict<string, Json>)
    requires repository.Valid()
    modifies repository
    ensures repository.Valid()
    ensures repository.runs == SetMetadata(old(repository.runs), runId, metadata)
    ensures repository.datasets == old(repository.datasets) && repository.itemRows == old(repository.itemRows)
    ensures repository.tagMetrics == old(repository.tagMetrics) && repository.driftAlerts == old(repository.driftAlerts)
  {
    repository.runs := SetMetadata(repository.runs, runId, metadata);
  }

  /** Writing the metadata of a run just appended changes only that run. */
  lemma SetMetadataAppended(runs: seq<RunRecord>, run: RunRecord, metadata: Dict<string, Json>)
    requires FindRun(runs, run.runId).None?
    ensures SetMetadata(runs + [run], run.runId, metadata) == runs + [run.(metadata := metadata)]
  {
  }

  /** What the missing method's lookup raises. */
  const MissingMetadataWrite := "'EvalRepository' object has no attribute 'update_run_metadata'"

  class EvalService {
    const repository: EvalRepository
    const runner: ExperimentRunner

    /** The runner writes to the service's repository, whose keys hold. */
    ghost predicate Valid()
      reads repository
    {
      runner.repository == repository && repository.Valid()
    }

    constructor(repository: EvalRepository)
      requires repository.Valid()
      ensures Valid()
      ensures this.repository == repository && runner.repository == repository
    {
      this.repository := repository;
      runner := new ExperimentRunner(repository);
    }

    /** `compare_runs` */
    function CompareRuns(baselineRunId: string, candidateRunId: string, gateConfig: Option<GateConfig>)
      : (r: Result<CompareResult, string>)
      reads repository
      ensures r == Compare(baselineRunId, candidateRunId, repository.GetRun(baselineRunId),
                           repository.GetRun(candidateRunId), gateConfig)
      ensures r.Ok? ==> repository.GetRun(baselineRunId).Some? && repository.GetRun(candidateRunId).Some?
    {
      Compare(baselineRunId, candidateRunId, repository.GetRun(baselineRunId),
              repository.GetRun(candidateRunId), gateConfig)
    }

    /** `get_failure_analysis`: rank all of the run's results, then cut the
        window out of the ranking. */
    method GetFailureAnalysis(runId: string, limit: int, offset: int) returns (f: FailureReport)
      ensures f == FailureReportOf(runId, repository.ListItemResults(runId), limit, offset)
    {
      var results := repository.ListItemResults(runId);
      var ranked := WorstFailures(results, if |results| > 0 then |results| else 0);
      assert ranked == Ranked(results);
      var sliced := PySlice(ranked, offset, offset + limit);
      var clusters := ClusterFailures(results);
      f := FailureReport(runId, sliced, clusters, |ranked|, offset, limit, offset + limit < |ranked|);
    }

    /** `get_tag_metrics_paginated` */
    function TagMetricsPage(runId: string, limit: int, offset: int): (p: Window<TagMetricRecord>)
      reads repository
      ensures p.rows == repository.ListTagMetricsPaginated(runId, limit, offset)
      ensures p.total == repository.CountTagMetrics(runId)
      ensures p.hasMore <==> offset + limit < p.total
      ensures limit >= 0 && offset >= 0 ==> (p.hasMore <==> offset + |p.rows| < p.total)
    {
      var rows := repository.ListTagMetricsPaginated(runId, limit, offset);
      var total := repository.CountTagMetrics(runId);
      assert limit >= 0 && offset >= 0 ==> (offset + limit < total <==> offset + |rows| < total) by {
        if limit >= 0 && offset >= 0 {
          PageHasMore(repository.ListTagMetrics(runId), limit, offset);
        }
      }
      Window(runId, rows, limit, offset, total, offset + limit < total)
    }

    /** `get_alert_timeline_paginated`: the run's own alerts, then one page
        of its dataset version's alerts through the filters, and their
        count. */
    function AlertTimeline(runId: string, limit: int, offset: int, severity: Option<string>,
                           metric: Option<string>): (r: Result<Timeline, string>)
      reads repository
      ensures r.Err? <==> repository.GetRun(runId).None?
      ensures r.Err? ==> r.error == "Run " + runId + " not found."
      ensures r.Ok? ==> var run := repository.GetRun(runId).value;
        r.value.runAlerts == repository.ListDriftAlerts(runId)
        && r.value.datasetAlerts == repository.ListDriftAlertsForDatasetPaginated(
             run.datasetName, run.datasetVersion, limit, offset, severity, metric)
        && r.value.total == repository.CountDriftAlertsForDataset(run.datasetName, run.datasetVersion, severity, metric)
      ensures r.Ok? ==> var run := repository.GetRun(runId).value;
        forall i :: 0 <= i < |r.value.datasetAlerts| ==>
          AlertMatches(r.value.datasetAlerts[i], run.datasetName, run.datasetVersion, severity, metric)
      ensures r.Ok? ==> (r.value.hasMore <==> offset + limit < r.value.total)
      ensures r.Ok? && limit >= 0 && offset >= 0 ==>
        (r.value.hasMore <==> offset + |r.value.datasetAlerts| < r.value.total)
    {
      var run := repository.GetRun(runId);
      if run.None? then Err("Run " + runId + " not found.")
      else
        var name, version := run.value.datasetName, run.value.datasetVersion;
        var page := repository.ListDriftAlertsForDatasetPaginated(name, version, limit, offset, severity, metric);
        var total := repository.CountDriftAlertsForDataset(name, version, severity, metric);
        assert limit >= 0 && offset >= 0 ==> (offset + limit < total <==> offset + |page| < total) by {
          if limit >= 0 && offset >= 0 {
            PageHasMore(repository.FilteredAlerts(name, version, severity, metric), limit, offset);
          }
        }
        Ok(Timeline(runId, repository.ListDriftAlerts(runId), page, limit, offset, total, offset + limit < total))
    }

    /** `get_alert_timeline`: the first page, unfiltered. */
    function AlertTimelineFirstPage(runId: string): (r: Result<Timeline, string>)
      reads repository
      ensures r == AlertTimeline(runId, TimelineLimit, 0, None, None)
      ensures r.Ok? ==> |r.value.datasetAlerts| <= TimelineLimit && r.value.offset == 0
    {
      AlertTimeline(runId, TimelineLimit, 0, None, None)
    }

    /** `get_run_trends`: the trends of the run's dataset version, with
        the persisted alerts or, when there are none, the metadata's. */
    method GetRunTrends(runId: string) returns (r: Result<DriftSummary, string>)
      ensures r.Err? <==> repository.GetRun(runId).None?
      ensures r.Err? ==> r.error == "Run " + runId + " not found."
      ensures r.Ok? ==> var run := repository.GetRun(runId).value;
        r.value.runId == runId && r.value.datasetName == run.datasetName
        && r.value.datasetVersion == run.datasetVersion
        && r.value.trends == TrendsOf(repository.ListRunsByDataset(run.datasetName, run.datasetVersion))
      ensures r.Ok? ==> var run := repository.GetRun(runId).value;
        var persisted := repository.ListDriftAlerts(runId);
        r.value.alerts == if persisted != [] then Persisted(persisted)
                          else FromMetadata(GetOr(run.metadata, "drift_alerts", JList([])))
    {
      var run := repository.GetRun(runId);
      if run.None? {
        return Err("Run " + runId + " not found.");
      }
      var history := repository.ListRunsByDataset(run.value.datasetName, run.value.datasetVersion);
      var trends := SummarizeTrends(history);
      var persisted := repository.ListDriftAlerts(runId);
      var alerts := if persisted != [] then Persisted(persisted)
                    else FromMetadata(GetOr(run.value.metadata, "drift_alerts", JList([])));
      r := Ok(DriftSummary(runId, run.value.datasetName, run.value.datasetVersion, trends, alerts));
    }

    /** `run_from_config` as the source is written: the overridden
        configuration is run and stored, then the metadata write names a
        method the repository does not have, so every call ends in an
        error, also when the run completed and is stored. */
    method RunFromConfigAsWritten(config: EvalRunConfig, path: string, o: Overrides, env: Environment)
      returns (r: Result<RunRecord, string>)
      requires Valid()
      modifies repository
      ensures Valid()
      ensures r.Err?
      ensures repository.datasets == old(repository.datasets)
      ensures var v := OverriddenConfig(config, o).variant;
        old(FindDataset(repository.datasets, v.datasetName, v.datasetVersion)).None? ==>
          r == Err("Dataset " + v.datasetName + ":" + v.datasetVersion + " not registered.")
          && repository.runs == old(repository.runs) && repository.itemRows == old(repository.itemRows)
          && repository.tagMetrics == old(repository.tagMetrics) && repository.driftAlerts == old(repository.driftAlerts)
      ensures var rc := OverriddenConfig(config, o);
              var v := rc.variant;
              var dataset := old(FindDataset(repository.datasets, v.datasetName, v.datasetVersion));
        dataset.Some? && FindRun(old(repository.runs), PlannedRun(env, v, dataset.value, old(repository.runs)).runId).None? ==>
          var c := PlannedCompletion(env, rc, dataset.value, old(repository.runs));
          var final := PlannedFinal(env, rc, dataset.value, old(repository.runs));
          repository.itemRows == old(repository.itemRows) + ToRows(PlannedResults(env, v, dataset.value, old(repository.runs)))
          && repository.runs == old(repository.runs) + [final]
          && r == (if c.Ok? then Err(MissingMetadataWrite) else Err(c.error))
    {
      var runConfig := ApplyOverrides(config, o);
      var executed := runner.Run(runConfig, env);
      if executed.Err? {
        return executed;
      }
      r := Err(MissingMetadataWrite);
    }

    /** `run_from_config` with the metadata write it intends: the
        overridden configuration is run and stored, and the completed
        run, stored and returned, carries the merged metadata. */
    method RunFromConfig(config: EvalRunConfig, path: string, o: Overrides, env: Environment)
      returns (r: Result<RunRecord, string>)
      requires Valid()
      modifies repository
      ensures Valid()
      ensures repository.datasets == old(repository.datasets)
      ensures var v := OverriddenConfig(config, o).variant;
        old(FindDataset(repository.datasets, v.datasetName, v.datasetVersion)).None? ==>
          r == Err("Dataset " + v.datasetName + ":" + v.datasetVersion + " not registered.")
          && repository.runs == old(repository.runs) && repository.itemRows == old(repository.itemRows)
          && repository.tagMetrics == old(repository.tagMetrics) && repository.driftAlerts == old(repository.driftAlerts)
      ensures var rc := OverriddenConfig(config, o);
              var v := rc.variant;
              var dataset := old(FindDataset(repository.datasets, v.datasetName, v.datasetVersion));
        dataset.Some? && FindRun(old(repository.runs), PlannedRun(env, v, dataset.value, old(repository.runs)).runId).None? ==>
          var c := PlannedCompletion(env, rc, dataset.value, old(repository.runs));
          var final := PlannedFinal(env, rc, dataset.value, old(repository.runs));
          repository.itemRows == old(repository.itemRows) + ToRows(PlannedResults(env, v, dataset.value, old(repository.runs)))
          && (c.Ok? ==> r == Ok(final.(metadata := OverrideMetadata(final.metadata, path, o)))
                        && repository.runs == old(repository.runs) + [r.value])
          && (c.Err? ==> r == Err(c.error) && repository.runs == old(repository.runs) + [final])
      ensures r.Ok? ==> var v := OverriddenConfig(config, o).variant;
        r.value.modelName == v.modelName && r.value.seed == v.seed && r.value.temperature == v.temperature
        && Get(r.value.metadata, "config_path") == Some(JStr(path))
        && repository.GetRun(r.value.runId) == Some(r.value)
    {
      var runConfig := ApplyOverrides(config, o);
      ghost var before := repository.runs;
      var executed := runner.Run(runConfig, env);
      if executed.Err? {
        return executed;
      }
      var stored := StoreOverrides(executed.value, path, o, before);
      r := Ok(stored);
    }

    /** The intended metadata write of `run_from_config`: the run just
        stored gains the merged override metadata, and is re-read. */
    method StoreOverrides(run: RunRecord, path: string, o: Overrides, ghost before: seq<RunRecord>)
      returns (stored: RunRecord)
      requires Valid()
      requires repository.runs == before + [run] && FindRun(before, run.runId).None?
      modifies repository
      ensures Valid()
      ensures stored == run.(metadata := OverrideMetadata(run.metadata, path, o))
      ensures repository.runs == before + [stored]
      ensures repository.GetRun(stored.runId) == Some(stored)
      ensures Get(stored.metadata, "config_path") == Some(JStr(path))
      ensures repository.datasets == old(repository.datasets) && repository.itemRows == old(repository.itemRows)
      ensures repository.tagMetrics == old(repository.tagMetrics) && repository.driftAlerts == old(repository.driftAlerts)
    {
      var metadata := MergeOverrides(run.metadata, path, o);
      FindRunAppended(before, run);
      SetMetadataFound(repository.runs, run, metadata);
      UpdateRunMetadata(repository, run.runId, metadata);
      var updated := repository.GetRun(run.runId);
      stored := updated.value;
      SetMetadataAppended(before, run, metadata);
      OverrideMetadataGet(run.metadata, path, o, "config_path");
    }
  }
}
