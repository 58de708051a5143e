/** The records of the platform's domain: dataset items, per-item and
    aggregate scores, gate configuration and decisions, runs, item results,
    failure samples, tag metrics and drift alerts. Literal-typed fields
    become enumerations; `None`-able fields become `Option`s; timestamps are
    opaque integers. */
module Models {
  import opened Outcomes
  import opened Dicts

  /** A JSON value as the platform stores it in metadata and hashes it. */
  datatype Json =
    | JNull
    | JBool(b: bool)
    | JInt(i: int)
    | JReal(r: real)
    | JStr(s: string)
    | JList(items: seq<Json>)
    | JObject(fields: Dict<string, Json>)

  /** A JSON-schema document attached to a dataset item, kept as its text. */
  datatype Schema = Schema(document: string)

  datatype DatasetItem = DatasetItem(
    itemId: string,
    prompt: string,
    expectedAnswer: Option<string>,
    keywords: seq<string>,
    tags: Dict<string, string>,
    outputSchema: Option<Schema>)

  datatype DatasetRecord = DatasetRecord(
    datasetName: string,
    version: string,
    path: string,
    checksum: string,
    itemCount: int,
    createdAt: int)

  datatype VariantConfig = VariantConfig(
    name: string,
    datasetName: string,
    datasetVersion: string,
    modelName: string,
    promptVersion: string,
    promptTemplate: string,
    retrievalEnabled: bool,
    llmJudgeEnabled: bool,
    llmJudgeModel: Option<string>,
    seed: int,
    temperature: real)

  /** A variant with every optional field at its declared default. */
  function DefaultVariant(name: string, datasetName: string, datasetVersion: string,
                          modelName: string, promptVersion: string): VariantConfig
  {
    VariantConfig(name, datasetName, datasetVersion, modelName, promptVersion,
                  "{prompt}", false, false, None, 42, 0.0)
  }

  datatype GateConfig = GateConfig(
    baselineRunId: Option<string>,
    minMetric: Dict<string, real>,
    maxDropFromBaseline: Dict<string, real>)

  /** No baseline and no thresholds. */
  const DefaultGateConfig := GateConfig(None, [], [])

  datatype EvalRunConfig = EvalRunConfig(variant: VariantConfig, gates: GateConfig)

  datatype ItemScore = ItemScore(
    exactMatch: real,
    keywordCoverage: real,
    schemaValid: real,
    llmJudgeScore: Option<real>)

  datatype AggregateMetrics = AggregateMetrics(
    exactMatch: real,
    keywordCoverage: real,
    schemaValid: real,
    llmJudgeScore: Option<real>,
    sampleCount: int)

  datatype GateStatus = Pass | Fail

  /** The reason a gate check failed; the text rendering of the numbers is
      not modelled. */
  datatype Reason =
    | MissingInCandidate(metric: string)
    | BelowMinimum(metric: string, value: real, threshold: real)
    | MissingForBaseline(metric: string)
    | DroppedBy(metric: string, drop: real, allowed: real)

  /** One entry of `GateDecision.checks`. */
  datatype Check =
    | MinCheck(passed: bool, value: real, threshold: real)
    | DropCheck(passed: bool, drop: real, maxDrop: real)

  datatype GateDecision = GateDecision(
    status: GateStatus,
    reasons: seq<Reason>,
    checks: Dict<string, Check>)

  datatype ReleaseStatus = Approved | DriftWarning | Blocked

  datatype RunStatus = Running | Completed | Failed

  datatype RunRecord = RunRecord(
    runId: string,
    runKey: string,
    runVersion: int,
    variantName: string,
    datasetName: string,
    datasetVersion: string,
    modelName: string,
    promptVersion: string,
    retrievalEnabled: bool,
    llmJudgeEnabled: bool,
    seed: int,
    temperature: real,
    datasetFingerprint: string,
    promptFingerprint: string,
    configFingerprint: string,
    experimentSignature: string,
    releaseStatus: ReleaseStatus,
    status: RunStatus,
    durationMs: Option<real>,
    avgLatencyMs: Option<real>,
    p95LatencyMs: Option<real>,
    tokenInEst: int,
    tokenOutEst: int,
    costEstUsd: real,
    startedAt: int,
    completedAt: Option<int>,
    aggregateMetrics: Option<AggregateMetrics>,
    gateDecision: Option<GateDecision>,
    metadata: Dict<string, Json>)

  datatype ItemResult = ItemResult(
    runId: string,
    itemId: string,
    prompt: string,
    outputText: string,
    expectedAnswer: Option<string>,
    keywords: seq<string>,
    error: Option<string>,
    latencyMs: Option<real>,
    tokenInEst: Option<int>,
    tokenOutEst: Option<int>,
    schemaError: Option<string>,
    keywordMisses: seq<string>,
    scores: ItemScore,
    tags: Dict<string, string>)

  datatype FailureSample = FailureSample(
    itemId: string,
    severity: real,
    expectedAnswer: Option<string>,
    outputText: string,
    error: Option<string>,
    schemaError: Option<string>,
    keywordMisses: seq<string>,
    scores: ItemScore,
    tags: Dict<string, string>)

  datatype TagMetricRecord = TagMetricRecord(
    runId: string,
    tagKey: string,
    tagValue: string,
    exactMatch: real,
    keywordCoverage: real,
    schemaValid: real,
    llmJudgeScore: Option<real>,
    sampleCount: int)

  datatype Severity = Warning | Critical

  /** The message of a drift alert; the number formatting is not modelled. */
  datatype AlertMessage =
    | DroppedPast(metric: string, drop: real, allowed: real)
    | NearingThreshold(metric: string, drop: real)
    | HighVolatility(metric: string)

  /** One drift alert as `build_drift_alerts` produces it. */
  datatype DriftAlert = DriftAlert(
    scope: string,
    metric: string,
    severity: Severity,
    delta: Option<real>,
    threshold: Option<real>,
    message: AlertMessage)

  /** A persisted drift alert. */
  datatype DriftAlertRecord = DriftAlertRecord(
    runId: string,
    datasetName: string,
    datasetVersion: string,
    scope: string,
    metric: Option<string>,
    severity: Severity,
    delta: Option<real>,
    threshold: Option<real>,
    message: AlertMessage,
    createdAt: int)

  /** Python truthiness of an optional string: present and non-empty. */
  predicate Truthy(s: Option<string>)
  {
    s.Some? && s.value != ""
  }
}
