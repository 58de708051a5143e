/** The evaluation store: datasets, runs, item results, per-tag metrics and
    drift alerts, each table held as its rows in insertion order. Queries
    are functions of the tables; writes are methods that say exactly what
    each table becomes. */
module Repository {
  import opened Outcomes
  import opened Text
  import opened Dicts
  import opened Sorting
  import opened Tables
  import opened Models

  /** A stored item result: the scores are flattened into columns. */
  datatype ItemRow = ItemRow(
    runId: string,
    itemId: string,
    prompt: string,
    outputText: string,
    expectedAnswer: Option<string>,
    keywords: seq<string>,
    error: Option<string>,
    latencyMs: Option<real>,
    tokenInEst: Option<int>,
    tokenOutEst: Option<int>,
    schemaError: Option<string>,
    keywordMisses: seq<string>,
    exactMatch: real,
    keywordCoverage: real,
    schemaValid: real,
    llmJudgeScore: Option<real>,
    tags: Dict<string, string>)

  function ToRow(r: ItemResult): ItemRow
  {
    ItemRow(r.runId, r.itemId, r.prompt, r.outputText, r.expectedAnswer, r.keywords, r.error, r.latencyMs,
            r.tokenInEst, r.tokenOutEst, r.schemaError, r.keywordMisses, r.scores.exactMatch,
            r.scores.keywordCoverage, r.scores.schemaValid, r.scores.llmJudgeScore, r.tags)
  }

  function FromRow(row: ItemRow): ItemResult
  {
    ItemResult(row.runId, row.itemId, row.prompt, row.outputText, row.expectedAnswer, row.keywords, row.error,
               row.latencyMs, row.tokenInEst, row.tokenOutEst, row.schemaError, row.keywordMisses,
               ItemScore(row.exactMatch, row.keywordCoverage, row.schemaValid, row.llmJudgeScore), row.tags)
  }

  /** Flattening and rebuilding are inverse: what is stored is read back. */
  lemma RowRoundTrip(r: ItemResult, row: ItemRow)
    ensures FromRow(ToRow(r)) == r
    ensures ToRow(FromRow(row)) == row
  {
  }

  function ToRows(results: seq<ItemResult>): (rows: seq<ItemRow>)
    ensures |rows| == |results| && forall i :: 0 <= i < |results| ==> rows[i] == ToRow(results[i])
  {
    seq(|results|, i requires 0 <= i < |results| => ToRow(results[i]))
  }

  function FromRows(rows: seq<ItemRow>): (results: seq<ItemResult>)
    ensures |results| == |rows| && forall i :: 0 <= i < |rows| ==> results[i] == FromRow(rows[i])
  {
    seq(|rows|, i requires 0 <= i < |rows| => FromRow(rows[i]))
  }

  /** The fields `update_run_status` may overwrite; `None` leaves a field
      as it is. */
  datatype RunUpdate = RunUpdate(
    aggregateMetrics: Option<AggregateMetrics>,
    gateDecision: Option<GateDecision>,
    metadata: Option<Dict<string, Json>>,
    releaseStatus: Option<ReleaseStatus>,
    durationMs: Option<real>,
    avgLatencyMs: Option<real>,
    p95LatencyMs: Option<real>,
    tokenInEst: Option<int>,
    tokenOutEst: Option<int>,
    costEstUsd: Option<real>)

  const NoUpdate := RunUpdate(None, None, None, None, None, None, None, None, None, None)

  /** A status that ends a run and stamps `completed_at`. */
  predicate Finished(status: RunStatus)
  {
    status == Completed || status == Failed
  }

  /** One row of `update_run_status`: the status always, the completion
      time for a finished status, every other field only when given. */
  function ApplyUpdate(r: RunRecord, status: RunStatus, u: RunUpdate, now: int): RunRecord
  {
    RunRecord(r.runId, r.runKey, r.runVersion, r.variantName, r.datasetName, r.datasetVersion, r.modelName,
              r.promptVersion, r.retrievalEnabled, r.llmJudgeEnabled, r.seed, r.temperature,
              r.datasetFingerprint, r.promptFingerprint, r.configFingerprint, r.experimentSignature,
              u.releaseStatus.GetOr(r.releaseStatus), status,
              if u.durationMs.Some? then u.durationMs else r.durationMs,
              if u.avgLatencyMs.Some? then u.avgLatencyMs else r.avgLatencyMs,
              if u.p95LatencyMs.Some? then u.p95LatencyMs else r.p95LatencyMs,
              u.tokenInEst.GetOr(r.tokenInEst), u.tokenOutEst.GetOr(r.tokenOutEst), u.costEstUsd.GetOr(r.costEstUsd),
              r.startedAt, if Finished(status) then Some(now) else r.completedAt,
              if u.aggregateMetrics.Some? then u.aggregateMetrics else r.aggregateMetrics,
              if u.gateDecision.Some? then u.gateDecision else r.gateDecision,
              u.metadata.GetOr(r.metadata))
  }

  /** An update never touches what identifies a run (its id, key, version,
      dataset, configuration and start time), always sets the status, and
      stamps the completion time exactly for a finished status. */
  lemma UpdateKeepsIdentity(r: RunRecord, status: RunStatus, u: RunUpdate, now: int)
    ensures var s := ApplyUpdate(r, status, u, now);
      s.runId == r.runId && s.runKey == r.runKey && s.runVersion == r.runVersion
      && s.datasetName == r.datasetName && s.datasetVersion == r.datasetVersion && s.startedAt == r.startedAt
      && s.configFingerprint == r.configFingerprint && s.experimentSignature == r.experimentSignature
      && s.modelName == r.modelName && s.seed == r.seed && s.temperature == r.temperature
      && s.status == status
      && (Finished(status) ==> s.completedAt == Some(now))
      && (!Finished(status) ==> s.completedAt == r.completedAt)
  {
  }

  /** A field given in the update is written; an absent one is kept. */
  lemma UpdateWritesGivenFields(r: RunRecord, status: RunStatus, u: RunUpdate, now: int)
    ensures var s := ApplyUpdate(r, status, u, now);
      (u.aggregateMetrics.Some? ==> s.aggregateMetrics == u.aggregateMetrics)
      && (u.aggregateMetrics.None? ==> s.aggregateMetrics == r.aggregateMetrics)
      && (u.gateDecision.Some? ==> s.gateDecision == u.gateDecision)
      && (u.gateDecision.None? ==> s.gateDecision == r.gateDecision)
      && (u.metadata.Some? ==> s.metadata == u.metadata.value)
      && (u.metadata.None? ==> s.metadata == r.metadata)
      && (u.releaseStatus.Some? ==> s.releaseStatus == u.releaseStatus.value)
      && (u.releaseStatus.None? ==> s.releaseStatus == r.releaseStatus)
      && (u.costEstUsd.Some? ==> s.costEstUsd == u.costEstUsd.value)
      && (u.costEstUsd.None? ==> s.costEstUsd == r.costEstUsd)
  {
  }

  /** Repeating an update at the same time changes nothing more. */
  lemma ApplyUpdateIdempotent(r: RunRecord, status: RunStatus, u: RunUpdate, now: int)
    ensures ApplyUpdate(ApplyUpdate(r, status, u, now), status, u, now) == ApplyUpdate(r, status, u, now)
  {
  }

  /** A status-only update to `running` touches the status alone. */
  lemma StatusOnlyUpdate(r: RunRecord, now: int)
    ensures ApplyUpdate(r, Running, NoUpdate, now) == r.(status := Running)
  {
  }

  /** `UPDATE runs ... WHERE run_id = :run_id` */
  function UpdateWhere(runs: seq<RunRecord>, runId: string, status: RunStatus, u: RunUpdate, now: int)
    : (r: seq<RunRecord>)
    ensures |r| == |runs|
    ensures forall i :: 0 <= i < |runs| ==>
      r[i] == if runs[i].runId == runId then ApplyUpdate(runs[i], status, u, now) else runs[i]
  {
    seq(|runs|, i requires 0 <= i < |runs| =>
      if runs[i].runId == runId then ApplyUpdate(runs[i], status, u, now) else runs[i])
  }

  /** The primary keys: (dataset name, version) for datasets. */
  predicate UniqueDatasets(ds: seq<DatasetRecord>)
  {
    forall i, j :: 0 <= i < j < |ds| ==>
      (ds[i].datasetName, ds[i].version) != (ds[j].datasetName, ds[j].version)
  }

  /** ... and run_id for runs. */
  predicate UniqueRunIds(runs: seq<RunRecord>)
  {
    forall i, j :: 0 <= i < j < |runs| ==> runs[i].runId != runs[j].runId
  }

  function DatasetIs(name: string, version: string): DatasetRecord -> bool
  {
    (d: DatasetRecord) => d.datasetName == name && d.version == version
  }

  function DatasetIsNot(name: string, version: string): DatasetRecord -> bool
  {
    (d: DatasetRecord) => !(d.datasetName == name && d.version == version)
  }

  function RunIdIs(runId: string): RunRecord -> bool
  {
    (r: RunRecord) => r.runId == runId
  }

  function RunOfDataset(name: string, version: string): RunRecord -> bool
  {
    (r: RunRecord) => r.datasetName == name && r.datasetVersion == version
  }

  function RowOfRun(runId: string): ItemRow -> bool
  {
    (row: ItemRow) => row.runId == runId
  }

  /** `list_item_results` over the stored rows: the run's rows, in table
      order, rebuilt into results. */
  function RunResults(rows: seq<ItemRow>, runId: string): (rs: seq<ItemResult>)
    ensures |rs| <= |rows|
    ensures forall i :: 0 <= i < |rs| ==> rs[i].runId == runId && ToRow(rs[i]) in rows
    ensures forall row :: row in rows && row.runId == runId ==> FromRow(row) in rs
  {
    var selected := Select(rows, RowOfRun(runId));
    forall i | 0 <= i < |selected| ensures ToRow(FromRow(selected[i])) == selected[i] {
      RowRoundTrip(FromRow(selected[i]), selected[i]);
    }
    FromRows(selected)
  }

  /** Inserting a run's results and listing the run reads them back, in
      order, after the rows the run already had; for a run with no rows yet
      the listing is exactly the inserted results. */
  lemma InsertThenList(rows: seq<ItemRow>, results: seq<ItemResult>, runId: string)
    requires forall i :: 0 <= i < |results| ==> results[i].runId == runId
    ensures RunResults(rows + ToRows(results), runId) == RunResults(rows, runId) + results
    ensures (forall i :: 0 <= i < |rows| ==> rows[i].runId != runId) ==> RunResults(rows + ToRows(results), runId) == results
  {
    var added := ToRows(results);
    SelectAppend(rows, added, RowOfRun(runId));
    SelectAll(added, RowOfRun(runId));
    FromRowsAppend(Select(rows, RowOfRun(runId)), added);
    FromToRows(results);
    if forall i :: 0 <= i < |rows| ==> rows[i].runId != runId {
      SelectNone(rows, RowOfRun(runId));
    }
  }

  lemma FromRowsAppend(a: seq<ItemRow>, b: seq<ItemRow>)
    ensures FromRows(a + b) == FromRows(a) + FromRows(b)
  {
  }

  /** Stored results are read back unchanged. */
  lemma FromToRows(results: seq<ItemResult>)
    ensures FromRows(ToRows(results)) == results
  {
    var back := FromRows(ToRows(results));
    forall i | 0 <= i < |results| ensures back[i] == results[i] {
      RowRoundTrip(results[i], ToRow(results[i]));
    }
  }

  function TagMetricOfRun(runId: string): TagMetricRecord -> bool
  {
    (m: TagMetricRecord) => m.runId == runId
  }

  function TagMetricOfOtherRun(runId: string): TagMetricRecord -> bool
  {
    (m: TagMetricRecord) => m.runId != runId
  }

  function AlertOfRun(runId: string): DriftAlertRecord -> bool
  {
    (a: DriftAlertRecord) => a.runId == runId
  }

  function AlertOfOtherRun(runId: string): DriftAlertRecord -> bool
  {
    (a: DriftAlertRecord) => a.runId != runId
  }

  function StartedKey(r: RunRecord): real
  {
    r.startedAt as real
  }

  /** Sorting by the negated key in descending order is ascending order. */
  function StartedKeyAscending(r: RunRecord): real
  {
    -(r.startedAt as real)
  }

  function SampleCountKey(m: TagMetricRecord): real
  {
    m.sampleCount as real
  }

  function CreatedKey(a: DriftAlertRecord): real
  {
    a.createdAt as real
  }

  /** The highest version recorded under `runKey`, if any. */
  function MaxVersion(runs: seq<RunRecord>, runKey: string): (m: Option<int>)
    ensures m.None? <==> forall i :: 0 <= i < |runs| ==> runs[i].runKey != runKey
    ensures m.Some? ==> (exists i :: 0 <= i < |runs| && runs[i].runKey == runKey && runs[i].runVersion == m.value)
                        && forall i :: 0 <= i < |runs| && runs[i].runKey == runKey ==> runs[i].runVersion <= m.value
  {
    if runs == [] then None
    else
      var init, last := runs[..|runs| - 1], runs[|runs| - 1];
      var m := MaxVersion(init, runKey);
      if last.runKey != runKey then m
      else if m.Some? && m.value >= last.runVersion then m
      else Some(last.runVersion)
  }

  /** `next_run_version`: `(max or 0) + 1`. */
  function NextVersionIn(runs: seq<RunRecord>, runKey: string): (v: int)
    ensures forall i :: 0 <= i < |runs| && runs[i].runKey == runKey ==> runs[i].runVersion < v
    ensures (v == 1 && forall i :: 0 <= i < |runs| ==> runs[i].runKey != runKey)
            || exists i :: 0 <= i < |runs| && runs[i].runKey == runKey && runs[i].runVersion == v - 1
  {
    var m := MaxVersion(runs, runKey);
    (if m.Some? && m.value != 0 then m.value else 0) + 1
  }

  /** Recording a run under the next version moves that key's next version
      on by one and leaves every other key's alone. */
  lemma NextVersionCountsUp(runs: seq<RunRecord>, run: RunRecord, key: string)
    requires run.runVersion == NextVersionIn(runs, run.runKey)
    ensures NextVersionIn(runs + [run], key)
            == if key == run.runKey then NextVersionIn(runs, key) + 1 else NextVersionIn(runs, key)
  {
    var all := runs + [run];
    assert all[..|all| - 1] == runs;
  }

  /** The rows with run_id `runId` after the rows of that run were deleted
      and `incoming` inserted: exactly `incoming`, when all of it belongs to the
      run; and any other run's rows are untouched. */
  lemma ReplaceTagMetricsRows(rows: seq<TagMetricRecord>, runId: string, incoming: seq<TagMetricRecord>, other: string)
    requires forall i :: 0 <= i < |incoming| ==> incoming[i].runId == runId
    ensures Select(Select(rows, TagMetricOfOtherRun(runId)) + incoming, TagMetricOfRun(runId)) == incoming
    ensures other != runId ==>
      Select(Select(rows, TagMetricOfOtherRun(runId)) + incoming, TagMetricOfRun(other)) == Select(rows, TagMetricOfRun(other))
  {
    var kept := Select(rows, TagMetricOfOtherRun(runId));
    SelectAppend(kept, incoming, TagMetricOfRun(runId));
    SelectDisjoint(rows, TagMetricOfOtherRun(runId), TagMetricOfRun(runId));
    SelectAll(incoming, TagMetricOfRun(runId));
    if other != runId {
      SelectAppend(kept, incoming, TagMetricOfRun(other));
      SelectNone(incoming, TagMetricOfRun(other));
      SelectNarrower(rows, TagMetricOfOtherRun(runId), TagMetricOfRun(other));
    }
  }

  /** The same for drift alerts. */
  lemma ReplaceDriftAlertRows(rows: seq<DriftAlertRecord>, runId: string, incoming: seq<DriftAlertRecord>, other: string)
    requires forall i :: 0 <= i < |incoming| ==> incoming[i].runId == runId
    ensures Select(Select(rows, AlertOfOtherRun(runId)) + incoming, AlertOfRun(runId)) == incoming
    ensures other != runId ==>
      Select(Select(rows, AlertOfOtherRun(runId)) + incoming, AlertOfRun(other)) == Select(rows, AlertOfRun(other))
  {
    var kept := Select(rows, AlertOfOtherRun(runId));
    SelectAppend(kept, incoming, AlertOfRun(runId));
    SelectDisjoint(rows, AlertOfOtherRun(runId), AlertOfRun(runId));
    SelectAll(incoming, AlertOfRun(runId));
    if other != runId {
      SelectAppend(kept, incoming, AlertOfRun(other));
      SelectNone(incoming, AlertOfRun(other));
      SelectNarrower(rows, AlertOfOtherRun(runId), AlertOfRun(other));
    }
  }

  /** After an upsert the (name, version) key has exactly one row, the
      record, and the primary key still holds. */
  lemma UpsertLeavesOneRow(ds: seq<DatasetRecord>, record: DatasetRecord)
    requires UniqueDatasets(ds)
    ensures var after := Select(ds, DatasetIsNot(record.datasetName, record.version)) + [record];
      Select(after, DatasetIs(record.datasetName, record.version)) == [record] && UniqueDatasets(after)
      && FindDataset(after, record.datasetName, record.version) == Some(record)
  {
    var kept := Select(ds, DatasetIsNot(record.datasetName, record.version));
    SelectAppend(kept, [record], DatasetIs(record.datasetName, record.version));
    SelectDisjoint(ds, DatasetIsNot(record.datasetName, record.version), DatasetIs(record.datasetName, record.version));
    UniqueSubsequence(ds, DatasetIsNot(record.datasetName, record.version));
    assert (kept + [record])[|kept|] == record;
    FindDatasetUnique(kept + [record], record);
  }

  /** Under a unique key, looking a stored row up by its key finds it. */
  lemma FindDatasetUnique(ds: seq<DatasetRecord>, record: DatasetRecord)
    requires UniqueDatasets(ds) && record in ds
    ensures FindDataset(ds, record.datasetName, record.version) == Some(record)
  {
    var i :| 0 <= i < |ds| && ds[i] == record;
    var r := FindDataset(ds, record.datasetName, record.version);
    var j :| 0 <= j < |ds| && ds[j] == r.value;
  }

  /** Dropping rows keeps a primary key unique. */
  lemma {:induction false} UniqueSubsequence(ds: seq<DatasetRecord>, keep: DatasetRecord -> bool)
    requires UniqueDatasets(ds)
    ensures UniqueDatasets(Select(ds, keep))
    decreases |ds|
  {
    if ds != [] {
      var init, last := ds[..|ds| - 1], ds[|ds| - 1];
      UniqueSubsequence(init, keep);
      var s := Select(init, keep);
      forall i | 0 <= i < |s|
        ensures (s[i].datasetName, s[i].version) != (last.datasetName, last.version)
      {
        var j :| 0 <= j < |init| && init[j] == s[i];
      }
    }
  }

  /** The first dataset row with the key, if any. */
  function FindDataset(ds: seq<DatasetRecord>, name: string, version: string): (r: Option<DatasetRecord>)
    ensures r.Some? <==> exists i :: 0 <= i < |ds| && ds[i].datasetName == name && ds[i].version == version
    ensures r.Some? ==> r.value in ds && r.value.datasetName == name && r.value.version == version
  {
    if ds == [] then None
    else if ds[0].datasetName == name && ds[0].version == version then Some(ds[0])
    else
      var r := FindDataset(ds[1..], name, version);
      assert forall i :: 1 <= i < |ds| ==> ds[i] == ds[1..][i - 1];
      r
  }

  /** The run row with the id, if any. */
  function FindRun(runs: seq<RunRecord>, runId: string): (r: Option<RunRecord>)
    ensures r.Some? <==> exists i :: 0 <= i < |runs| && runs[i].runId == runId
    ensures r.Some? ==> r.value in runs && r.value.runId == runId
  {
    if runs == [] then None
    else if runs[0].runId == runId then Some(runs[0])
    else
      var r := FindRun(runs[1..], runId);
      assert forall i :: 1 <= i < |runs| ==> runs[i] == runs[1..][i - 1];
      r
  }

  /** The runs of a dataset version, oldest first (`ORDER BY started_at`). */
  function DatasetHistory(runs: seq<RunRecord>, name: string, version: string): (rs: seq<RunRecord>)
    ensures multiset(rs) == multiset(Select(runs, RunOfDataset(name, version)))
    ensures forall i :: 0 <= i < |rs| ==> rs[i].datasetName == name && rs[i].datasetVersion == version
    ensures forall i, j :: 0 <= i < j < |rs| ==> rs[i].startedAt <= rs[j].startedAt
  {
    var selected := Select(runs, RunOfDataset(name, version));
    var rs := SortDesc(selected, StartedKeyAscending);
    SortDescSorted(selected, StartedKeyAscending);
    forall i | 0 <= i < |rs|
      ensures rs[i].datasetName == name && rs[i].datasetVersion == version
    {
      assert rs[i] in multiset(selected);
    }
    rs
  }

  /** With unique ids, looking up a stored run's id finds that run. */
  lemma FindRunUnique(runs: seq<RunRecord>, j: int)
    requires UniqueRunIds(runs) && 0 <= j < |runs|
    ensures FindRun(runs, runs[j].runId) == Some(runs[j])
  {
    var found := FindRun(runs, runs[j].runId).value;
    var k :| 0 <= k < |runs| && runs[k] == found;
    assert k == j;
  }

  /** A run appended under an id no other run has is the one found by it. */
  lemma {:induction false} FindRunAppended(runs: seq<RunRecord>, run: RunRecord)
    requires FindRun(runs, run.runId).None?
    ensures FindRun(runs + [run], run.runId) == Some(run)
    decreases |runs|
  {
    if runs != [] {
      assert (runs + [run])[1..] == runs[1..] + [run];
      FindRunAppended(runs[1..], run);
    }
  }

  /** Updating the status of a run appended under a fresh id changes that
      run only. */
  lemma UpdateAppended(runs: seq<RunRecord>, run: RunRecord, status: RunStatus, u: RunUpdate, now: int)
    requires FindRun(runs, run.runId).None?
    ensures UpdateWhere(runs + [run], run.runId, status, u, now) == runs + [ApplyUpdate(run, status, u, now)]
  {
  }

  /** `ORDER BY key DESC LIMIT limit OFFSET offset`, ties in table order. */
  function OrderedPage<T>(rows: seq<T>, key: T -> real, limit: int, offset: int): (r: seq<T>)
    ensures SortedDesc(r, key)
    ensures forall i :: 0 <= i < |r| ==> r[i] in rows
    ensures limit >= 0 ==> |r| <= limit
    ensures |r| <= |rows|
    ensures |r| == |Page(rows, limit, offset)|
  {
    SortDescSorted(rows, key);
    SortedPageFacts(SortDesc(rows, key), rows, key, limit, offset);
    Page(SortDesc(rows, key), limit, offset)
  }

  /** The page is the LIMIT/OFFSET window of the rows sorted by the key. */
  lemma OrderedPageWindow<T>(rows: seq<T>, key: T -> real, limit: int, offset: int)
    ensures var r := OrderedPage(rows, key, limit, offset); var start := PageStart(offset, |rows|);
      start + |r| <= |rows| && r == SortDesc(rows, key)[start..start + |r|]
  {
    SortDescSorted(rows, key);
    SortedPageFacts(SortDesc(rows, key), rows, key, limit, offset);
  }

  /** A page holds rows of the table, none more often than the table does,
      and the unbounded page from the start holds every row. */
  lemma OrderedPageKeepsRows<T>(rows: seq<T>, key: T -> real, limit: int, offset: int)
    ensures multiset(OrderedPage(rows, key, limit, offset)) <= multiset(rows)
    ensures limit < 0 && offset <= 0 ==> multiset(OrderedPage(rows, key, limit, offset)) == multiset(rows)
  {
    SortDescSorted(rows, key);
    SortedPageFacts(SortDesc(rows, key), rows, key, limit, offset);
  }

  /** What a LIMIT/OFFSET page of a sorted permutation of the rows holds. */
  lemma SortedPageFacts<T>(ordered: seq<T>, rows: seq<T>, key: T -> real, limit: int, offset: int)
    requires multiset(ordered) == multiset(rows) && SortedDesc(ordered, key)
    ensures |ordered| == |rows|
    ensures var r := Page(ordered, limit, offset);
      SortedDesc(r, key) && (forall i :: 0 <= i < |r| ==> r[i] in rows)
      && multiset(r) <= multiset(rows) && (limit < 0 && offset <= 0 ==> multiset(r) == multiset(rows))
    ensures var r := Page(ordered, limit, offset); var start := PageStart(offset, |rows|);
      (limit >= 0 ==> |r| <= limit) && |r| <= |rows| && |r| == |Page(rows, limit, offset)|
      && start + |r| <= |rows| && r == ordered[start..start + |r|]
  {
    assert |ordered| == |multiset(ordered)| == |multiset(rows)| == |rows|;
    var r := Page(ordered, limit, offset);
    var start := PageStart(offset, |ordered|);
    assert forall i :: 0 <= i < |r| ==> r[i] == ordered[start + i];
    PageSubMultiset(ordered, limit, offset);
    SubMultisetMembers(r, rows);
    SameLengthPages(ordered, rows, limit, offset);
  }

  /** A page keeps some of the rows, each at most as often as the table
      has it, and an unbounded page from the start keeps them all. */
  lemma PageSubMultiset<T>(rows: seq<T>, limit: int, offset: int)
    ensures multiset(Page(rows, limit, offset)) <= multiset(rows)
    ensures limit < 0 && offset <= 0 ==> Page(rows, limit, offset) == rows
  {
    var page := Page(rows, limit, offset);
    var start := PageStart(offset, |rows|);
    assert rows == rows[..start] + page + rows[start + |page|..];
  }

  /** The page of a table depends on its length only for its size. */
  lemma SameLengthPages<T, U>(a: seq<T>, b: seq<U>, limit: int, offset: int)
    requires |a| == |b|
    ensures |Page(a, limit, offset)| == |Page(b, limit, offset)|
  {
  }

  lemma SubMultisetMembers<T>(part: seq<T>, whole: seq<T>)
    requires multiset(part) <= multiset(whole)
    ensures forall i :: 0 <= i < |part| ==> part[i] in whole
  {
    forall i | 0 <= i < |part| ensures part[i] in whole {
      assert part[i] in multiset(part);
    }
  }

  /** The filters of the paginated alert timeline: the dataset, then a
      severity and a metric substring when given (a falsy filter is no
      filter). `LIKE` folds the case of ASCII letters only. */
  function AlertFilter(name: string, version: string, severity: Option<string>, metricContains: Option<string>)
    : DriftAlertRecord -> bool
  {
    (a: DriftAlertRecord) => AlertMatches(a, name, version, severity, metricContains)
  }

  predicate AlertMatches(a: DriftAlertRecord, name: string, version: string, severity: Option<string>,
                         metricContains: Option<string>)
  {
    a.datasetName == name && a.datasetVersion == version
    && (!Truthy(severity) || SeverityName(a.severity) == severity.value)
    && (!Truthy(metricContains)
        || (a.metric.Some? && Contains(AsciiLower(a.metric.value), AsciiLower(metricContains.value))))
  }

  function SeverityName(s: Severity): string
  {
    match s
    case Warning => "warning"
    case Critical => "critical"
  }

  class EvalRepository {
    var datasets: seq<DatasetRecord>
    var runs: seq<RunRecord>
    var itemRows: seq<ItemRow>
    var tagMetrics: seq<TagMetricRecord>
    var driftAlerts: seq<DriftAlertRecord>

    /** The primary keys hold. */
    ghost predicate Valid()
      reads this
    {
      UniqueDatasets(datasets) && UniqueRunIds(runs)
    }

    constructor()
      ensures Valid()
      ensures datasets == [] && runs == [] && itemRows == [] && tagMetrics == [] && driftAlerts == []
    {
      datasets, runs, itemRows, tagMetrics, driftAlerts := [], [], [], [], [];
    }

    /** `upsert_dataset`: delete the key's row, insert the record. */
    method UpsertDataset(record: DatasetRecord)
      requires Valid()
      modifies this
      ensures Valid()
      ensures datasets == Select(old(datasets), DatasetIsNot(record.datasetName, record.version)) + [record]
      ensures GetDataset(record.datasetName, record.version) == Some(record)
      ensures runs == old(runs) && itemRows == old(itemRows)
      ensures tagMetrics == old(tagMetrics) && driftAlerts == old(driftAlerts)
    {
      UpsertLeavesOneRow(datasets, record);
      datasets := Select(datasets, DatasetIsNot(record.datasetName, record.version)) + [record];
    }

    /** `get_dataset` */
    function GetDataset(name: string, version: string): (r: Option<DatasetRecord>)
      reads this
      requires Valid()
      ensures r.Some? <==> exists i :: 0 <= i < |datasets| && datasets[i].datasetName == name && datasets[i].version == version
      ensures r.Some? ==> r.value in datasets && r.value.datasetName == name && r.value.version == version
    {
      FindDataset(datasets, name, version)
    }

    /** `next_run_version` */
    function NextRunVersion(runKey: string): (v: int)
      reads this
      ensures v == NextVersionIn(runs, runKey)
    {
      NextVersionIn(runs, runKey)
    }

    /** `create_run`; a second row with the same run_id is refused, as the
        primary key refuses it. */
    method CreateRun(run: RunRecord) returns (created: bool)
      requires Valid()
      modifies this
      ensures Valid()
      ensures created <==> FindRun(old(runs), run.runId).None?
      ensures runs == if created then old(runs) + [run] else old(runs)
      ensures datasets == old(datasets) && itemRows == old(itemRows)
      ensures tagMetrics == old(tagMetrics) && driftAlerts == old(driftAlerts)
    {
      if FindRun(runs, run.runId).Some? {
        return false;
      }
      runs := runs + [run];
      created := true;
    }

    /** `update_run_status` */
    method UpdateRunStatus(runId: string, status: RunStatus, u: RunUpdate, now: int)
      requires Valid()
      modifies this
      ensures Valid()
      ensures runs == UpdateWhere(old(runs), runId, status, u, now)
      ensures datasets == old(datasets) && itemRows == old(itemRows)
      ensures tagMetrics == old(tagMetrics) && driftAlerts == old(driftAlerts)
    {
      runs := UpdateWhere(runs, runId, status, u, now);
    }

    /** `insert_item_results`: one flattened row per result, none for an
        empty list. */
    method InsertItemResults(results: seq<ItemResult>)
      requires Valid()
      modifies this
      ensures Valid()
      ensures itemRows == old(itemRows) + ToRows(results)
      ensures datasets == old(datasets) && runs == old(runs)
      ensures tagMetrics == old(tagMetrics) && driftAlerts == old(driftAlerts)
    {
      if results == [] {
        assert ToRows(results) == [];
        return;
      }
      var payload: seq<ItemRow> := [];
      var i := 0;
      while i < |results|
        invariant 0 <= i <= |results|
        invariant payload == ToRows(results[..i])
      {
        var result := results[i];
        payload := payload + [ItemRow(result.runId, result.itemId, result.prompt, result.outputText,
                                      result.expectedAnswer, result.keywords, result.error, result.latencyMs,
                                      result.tokenInEst, result.tokenOutEst, result.schemaError,
                                      result.keywordMisses, result.scores.exactMatch,
                                      result.scores.keywordCoverage, result.scores.schemaValid,
                                      result.scores.llmJudgeScore, result.tags)];
        i := i + 1;
      }
      assert results[..i] == results;
      itemRows := itemRows + payload;
    }

    /** `list_item_results`, in table order. */
    function ListItemResults(runId: string): (rs: seq<ItemResult>)
      reads this
      ensures |rs| <= |itemRows|
      ensures forall i :: 0 <= i < |rs| ==> rs[i].runId == runId && ToRow(rs[i]) in itemRows
      ensures forall row :: row in itemRows && row.runId == runId ==> FromRow(row) in rs
      ensures rs == RunResults(itemRows, runId)
    {
      RunResults(itemRows, runId)
    }

    /** `get_run` */
    function GetRun(runId: string): (r: Option<RunRecord>)
      reads this
      ensures r.Some? <==> exists i :: 0 <= i < |runs| && runs[i].runId == runId
      ensures r.Some? ==> r.value in runs && r.value.runId == runId
    {
      FindRun(runs, runId)
    }

    /** `list_runs`: newest first. */
    function ListRuns(): (rs: seq<RunRecord>)
      reads this
      ensures multiset(rs) == multiset(runs)
      ensures SortedDesc(rs, StartedKey)
    {
      SortDescSorted(runs, StartedKey);
      SortDesc(runs, StartedKey)
    }

    /** `list_runs_by_dataset` */
    function ListRunsByDataset(name: string, version: string): (rs: seq<RunRecord>)
      reads this
      ensures rs == DatasetHistory(runs, name, version)
    {
      DatasetHistory(runs, name, version)
    }

    /** `replace_tag_metrics` */
    method ReplaceTagMetrics(runId: string, metrics: seq<TagMetricRecord>)
      requires Valid()
      modifies this
      ensures Valid()
      ensures tagMetrics == Select(old(tagMetrics), TagMetricOfOtherRun(runId)) + metrics
      ensures (forall i :: 0 <= i < |metrics| ==> metrics[i].runId == runId) ==> ListTagMetrics(runId) == metrics
      ensures datasets == old(datasets) && runs == old(runs)
      ensures itemRows == old(itemRows) && driftAlerts == old(driftAlerts)
    {
      ghost var before := tagMetrics;
      tagMetrics := Select(tagMetrics, TagMetricOfOtherRun(runId));
      if metrics != [] {
        tagMetrics := tagMetrics + metrics;
      }
      assert tagMetrics == Select(before, TagMetricOfOtherRun(runId)) + metrics;
      if forall i :: 0 <= i < |metrics| ==> metrics[i].runId == runId {
        ReplaceTagMetricsRows(before, runId, metrics, runId);
      }
    }

    /** `list_tag_metrics` */
    function ListTagMetrics(runId: string): (ms: seq<TagMetricRecord>)
      reads this
      ensures forall i :: 0 <= i < |ms| ==> ms[i].runId == runId && ms[i] in tagMetrics
      ensures forall m :: m in tagMetrics && m.runId == runId ==> m in ms
    {
      Select(tagMetrics, TagMetricOfRun(runId))
    }

    /** `list_tag_metrics_paginated`: by sample count, largest first, ties
        in id (insertion) order, then the window. */
    function ListTagMetricsPaginated(runId: string, limit: int, offset: int): (ms: seq<TagMetricRecord>)
      reads this
      ensures SortedDesc(ms, SampleCountKey)
      ensures forall i :: 0 <= i < |ms| ==> ms[i].runId == runId && ms[i] in tagMetrics
      ensures limit >= 0 ==> |ms| <= limit
      ensures |ms| <= |ListTagMetrics(runId)|
      ensures ms == OrderedPage(ListTagMetrics(runId), SampleCountKey, limit, offset)
    {
      OrderedPage(ListTagMetrics(runId), SampleCountKey, limit, offset)
    }

    /** `count_tag_metrics` */
    function CountTagMetrics(runId: string): (n: nat)
      reads this
      ensures n <= |tagMetrics|
      ensures n == |ListTagMetricsPaginated(runId, -1, 0)|
    {
      |ListTagMetrics(runId)|
    }

    /** `replace_drift_alerts` */
    method ReplaceDriftAlerts(runId: string, alerts: seq<DriftAlertRecord>)
      requires Valid()
      modifies this
      ensures Valid()
      ensures driftAlerts == Select(old(driftAlerts), AlertOfOtherRun(runId)) + alerts
      ensures (forall i :: 0 <= i < |alerts| ==> alerts[i].runId == runId) ==>
        Select(driftAlerts, AlertOfRun(runId)) == alerts
      ensures datasets == old(datasets) && runs == old(runs)
      ensures itemRows == old(itemRows) && tagMetrics == old(tagMetrics)
    {
      ghost var before := driftAlerts;
      driftAlerts := Select(driftAlerts, AlertOfOtherRun(runId));
      if alerts != [] {
        driftAlerts := driftAlerts + alerts;
      }
      assert driftAlerts == Select(before, AlertOfOtherRun(runId)) + alerts;
      if forall i :: 0 <= i < |alerts| ==> alerts[i].runId == runId {
        ReplaceDriftAlertRows(before, runId, alerts, runId);
      }
    }

    /** `list_drift_alerts`: newest first. */
    function ListDriftAlerts(runId: string): (as_: seq<DriftAlertRecord>)
      reads this
      ensures multiset(as_) == multiset(Select(driftAlerts, AlertOfRun(runId)))
      ensures SortedDesc(as_, CreatedKey)
    {
      SortDescSorted(Select(driftAlerts, AlertOfRun(runId)), CreatedKey);
      SortDesc(Select(driftAlerts, AlertOfRun(runId)), CreatedKey)
    }

    /** The stored alerts that pass the timeline's filters, in table order. */
    function FilteredAlerts(name: string, version: string, severity: Option<string>, metricContains: Option<string>)
      : (as_: seq<DriftAlertRecord>)
      reads this
      ensures forall i :: 0 <= i < |as_| ==> as_[i] in driftAlerts && AlertMatches(as_[i], name, version, severity, metricContains)
      ensures forall a :: a in driftAlerts && AlertMatches(a, name, version, severity, metricContains) ==> a in as_
    {
      Select(driftAlerts, AlertFilter(name, version, severity, metricContains))
    }

    /** `list_drift_alerts_for_dataset_paginated` */
    function ListDriftAlertsForDatasetPaginated(name: string, version: string, limit: int, offset: int,
                                                severity: Option<string>, metricContains: Option<string>)
      : (as_: seq<DriftAlertRecord>)
      reads this
      ensures SortedDesc(as_, CreatedKey)
      ensures forall i :: 0 <= i < |as_| ==> AlertMatches(as_[i], name, version, severity, metricContains)
      ensures limit >= 0 ==> |as_| <= limit
      ensures |as_| <= |FilteredAlerts(name, version, severity, metricContains)|
      ensures as_ == OrderedPage(FilteredAlerts(name, version, severity, metricContains), CreatedKey, limit, offset)
    {
      OrderedPage(FilteredAlerts(name, version, severity, metricContains), CreatedKey, limit, offset)
    }

    /** `count_drift_alerts_for_dataset`: the same filters, counted. */
    function CountDriftAlertsForDataset(name: string, version: string, severity: Option<string>,
                                        metricContains: Option<string>): (n: nat)
      reads this
      ensures n <= |driftAlerts|
      ensures n == |ListDriftAlertsForDatasetPaginated(name, version, -1, 0, severity, metricContains)|
    {
      |FilteredAlerts(name, version, severity, metricContains)|
    }
  }

  /** `count_tag_metrics` counts what the listing pages through: the
      unbounded page from offset 0 holds every row of the run, each once. */
  lemma CountTagMetricsIsFullPage(repo: EvalRepository, runId: string)
    ensures var all := repo.ListTagMetricsPaginated(runId, -1, 0);
      multiset(all) == multiset(repo.ListTagMetrics(runId)) && |all| == repo.CountTagMetrics(runId)
  {
    OrderedPageKeepsRows(repo.ListTagMetrics(runId), SampleCountKey, -1, 0);
  }

  /** `count_drift_alerts_for_dataset` applies the listing's filters: the
      unbounded page from offset 0 holds every stored alert that passes
      them, and the count is its length. */
  lemma CountDriftAlertsIsFullPage(repo: EvalRepository, name: string, version: string,
                                   severity: Option<string>, metricContains: Option<string>)
    ensures var all := repo.ListDriftAlertsForDatasetPaginated(name, version, -1, 0, severity, metricContains);
      |all| == repo.CountDriftAlertsForDataset(name, version, severity, metricContains)
      && forall a :: a in repo.driftAlerts && AlertMatches(a, name, version, severity, metricContains) ==> a in all
  {
    var kept := repo.FilteredAlerts(name, version, severity, metricContains);
    OrderedPageKeepsRows(kept, CreatedKey, -1, 0);
    var all := OrderedPage(kept, CreatedKey, -1, 0);
    forall a | a in repo.driftAlerts && AlertMatches(a, name, version, severity, metricContains)
      ensures a in all
    {
      assert a in kept;
      assert a in multiset(all);
    }
  }
}
