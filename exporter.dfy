/** The report exporter's logic: the tag slices ranked by how far they fall
    short ("degraded slices"), and the sections the markdown report is
    built from, with its precondition and the caps on its lists. The text
    rendering itself is not modelled. */
module Exporter {
  import opened Outcomes
  import opened Text
  import opened Dicts
  import opened Sorting
  import opened Models
  import opened Analysis
  import opened Experiment
  import opened Service

  // ---- Degraded slices ----

  /** One row of `_degraded_slices`. */
  datatype DegradedSlice = DegradedSlice(
    slice: string,
    degradationScore: real,
    exactMatch: real,
    keywordCoverage: real,
    schemaValid: real)

  /** How far a slice falls short: the shortfalls of exact match, keyword
      coverage and schema validity weighted 0.4, 0.4 and 0.2. */
  function DegradationScore(exactMatch: real, keywordCoverage: real, schemaValid: real): (s: real)
    ensures 0.0 <= exactMatch <= 1.0 && 0.0 <= keywordCoverage <= 1.0 && 0.0 <= schemaValid <= 1.0
            ==> 0.0 <= s <= 1.0
  {
    (1.0 - exactMatch) * 0.4 + (1.0 - keywordCoverage) * 0.4 + (1.0 - schemaValid) * 0.2
  }

  /** For scores in [0, 1] a slice shows no degradation exactly when all
      three scores are perfect, and all three at zero is the worst, 1.0. */
  lemma DegradationZeroIffPerfect(exactMatch: real, keywordCoverage: real, schemaValid: real)
    requires 0.0 <= exactMatch <= 1.0 && 0.0 <= keywordCoverage <= 1.0 && 0.0 <= schemaValid <= 1.0
    ensures DegradationScore(exactMatch, keywordCoverage, schemaValid) == 0.0
            <==> exactMatch == 1.0 && keywordCoverage == 1.0 && schemaValid == 1.0
    ensures DegradationScore(0.0, 0.0, 0.0) == 1.0
  {
  }

  /** A slice that scores no lower on every metric degrades no more. */
  lemma DegradationMonotone(a: DegradedSlice, b: DegradedSlice)
    requires a.exactMatch <= b.exactMatch && a.keywordCoverage <= b.keywordCoverage && a.schemaValid <= b.schemaValid
    ensures DegradationScore(a.exactMatch, a.keywordCoverage, a.schemaValid)
         >= DegradationScore(b.exactMatch, b.keywordCoverage, b.schemaValid)
  {
  }

  /** The row of one breakdown entry; a missing metric reads as 0.0. */
  function SliceOf(tag: string, metrics: Dict<string, real>): (row: DegradedSlice)
    ensures row.slice == tag
    ensures row.exactMatch == (if HasKey(metrics, "exact_match") then Get(metrics, "exact_match").value else 0.0)
    ensures row.keywordCoverage == (if HasKey(metrics, "keyword_coverage") then Get(metrics, "keyword_coverage").value else 0.0)
    ensures row.schemaValid == (if HasKey(metrics, "schema_valid") then Get(metrics, "schema_valid").value else 0.0)
    ensures row.degradationScore == DegradationScore(row.exactMatch, row.keywordCoverage, row.schemaValid)
  {
    var exactMatch := GetOr(metrics, "exact_match", 0.0);
    var keywordCoverage := GetOr(metrics, "keyword_coverage", 0.0);
    var schemaValid := GetOr(metrics, "schema_valid", 0.0);
    DegradedSlice(tag, DegradationScore(exactMatch, keywordCoverage, schemaValid), exactMatch, keywordCoverage, schemaValid)
  }

  /** The rows before sorting, one per entry, in the breakdown's order. */
  function SlicesOf(breakdown: Dict<string, Dict<string, real>>): (rows: seq<DegradedSlice>)
    ensures |rows| == |breakdown|
    ensures forall i :: 0 <= i < |breakdown| ==> rows[i] == SliceOf(breakdown[i].0, breakdown[i].1)
  {
    seq(|breakdown|, i requires 0 <= i < |breakdown| => SliceOf(breakdown[i].0, breakdown[i].1))
  }

  function ScoreKey(row: DegradedSlice): real
  {
    row.degradationScore
  }

  /** `_degraded_slices`: the rows sorted by descending score; Python's
      sort is stable. */
  function DegradedSlicesOf(breakdown: Dict<string, Dict<string, real>>): (rows: seq<DegradedSlice>)
    ensures |rows| == |breakdown|
  {
    SortDesc(SlicesOf(breakdown), ScoreKey)
  }

  /** One row per breakdown entry, worst first, and rows with equal scores
      in the breakdown's order. */
  lemma DegradedSlicesRanked(breakdown: Dict<string, Dict<string, real>>, k: real)
    ensures var rows := DegradedSlicesOf(breakdown);
      multiset(rows) == multiset(SlicesOf(breakdown))
      && SortedDesc(rows, ScoreKey)
      && WithKey(rows, ScoreKey, k) == WithKey(SlicesOf(breakdown), ScoreKey, k)
      && (forall i :: 0 <= i < |rows| ==> exists j :: 0 <= j < |breakdown| && rows[i] == SliceOf(breakdown[j].0, breakdown[j].1))
  {
    var rows := DegradedSlicesOf(breakdown);
    SortDescSorted(SlicesOf(breakdown), ScoreKey);
    SortDescStable(SlicesOf(breakdown), ScoreKey, k);
    forall i | 0 <= i < |rows|
      ensures exists j :: 0 <= j < |breakdown| && rows[i] == SliceOf(breakdown[j].0, breakdown[j].1)
    {
      assert rows[i] in multiset(SlicesOf(breakdown));
      var j :| 0 <= j < |breakdown| && SlicesOf(breakdown)[j] == rows[i];
    }
  }

  /** `_degraded_slices`: append one row per entry, then sort. */
  method DegradedSlices(breakdown: Dict<string, Dict<string, real>>) returns (rows: seq<DegradedSlice>)
    ensures rows == DegradedSlicesOf(breakdown)
  {
    rows := [];
    var i := 0;
    while i < |breakdown|
      invariant 0 <= i <= |breakdown|
      invariant rows == SlicesOf(breakdown[..i])
    {
      var (tag, metrics) := breakdown[i];
      var exactMatch := GetOr(metrics, "exact_match", 0.0);
      var keywordCoverage := GetOr(metrics, "keyword_coverage", 0.0);
      var schemaValid := GetOr(metrics, "schema_valid", 0.0);
      var score := (1.0 - exactMatch) * 0.4 + (1.0 - keywordCoverage) * 0.4 + (1.0 - schemaValid) * 0.2;
      rows := rows + [DegradedSlice(tag, score, exactMatch, keywordCoverage, schemaValid)];
      i := i + 1;
    }
    assert breakdown[..i] == breakdown;
    rows := SortDesc(rows, ScoreKey);
  }

  // ---- The markdown report ----

  /** A row of the per-tag table; a missing metric reads as 0.0. */
  datatype TagRow = TagRow(tag: string, exactMatch: real, keywordCoverage: real, schemaValid: real)

  /** The sections of the report, before rendering. */
  datatype Report = Report(
    runId: string,
    summary: Dict<string, real>,
    gate: Option<GateDecision>,
    comparison: Option<(Dict<string, real>, Dict<string, OverlayRow>)>,
    topSlices: seq<DegradedSlice>,
    driftAlerts: seq<DriftAlertRecord>,
    timeline: seq<DriftAlertRecord>,
    tagRows: seq<TagRow>)

  /** The report shows the ten worst slices and the twenty newest alerts of
      the dataset timeline. */
  const SliceCap := 10
  const TimelineCap := 20

  function TagRowOf(entry: (string, Dict<string, real>)): TagRow
  {
    TagRow(entry.0, GetOr(entry.1, "exact_match", 0.0), GetOr(entry.1, "keyword_coverage", 0.0),
           GetOr(entry.1, "schema_valid", 0.0))
  }

  /** `sorted(tag_breakdown.items())`: the entries in code-point order of
      their tags. */
  function TagRowsOf(breakdown: Dict<string, Dict<string, real>>): (rows: seq<TagRow>)
    ensures |rows| == |breakdown|
  {
    var sorted := SortByKey(breakdown);
    seq(|sorted|, i requires 0 <= i < |sorted| => TagRowOf(sorted[i]))
  }

  /** The per-tag table lists every tag once, in increasing order, and does
      not depend on the order the breakdown was built in. */
  lemma TagRowsSorted(breakdown: Dict<string, Dict<string, real>>, other: Dict<string, Dict<string, real>>)
    requires DistinctKeys(breakdown)
    ensures var rows := TagRowsOf(breakdown);
      (forall i, j :: 0 <= i < j < |rows| ==> LexLess(rows[i].tag, rows[j].tag))
      && (forall i :: 0 <= i < |rows| ==> exists j :: 0 <= j < |breakdown| && rows[i] == TagRowOf(breakdown[j]))
    ensures DistinctKeys(other) && multiset(other) == multiset(breakdown) ==> TagRowsOf(other) == TagRowsOf(breakdown)
  {
    var sorted := SortByKey(breakdown);
    SortByKeySorted(breakdown);
    forall i | 0 <= i < |sorted|
      ensures exists j :: 0 <= j < |breakdown| && TagRowsOf(breakdown)[i] == TagRowOf(breakdown[j])
    {
      assert sorted[i] in multiset(breakdown);
      var j :| 0 <= j < |breakdown| && breakdown[j] == sorted[i];
    }
    if DistinctKeys(other) && multiset(other) == multiset(breakdown) {
      SortByKeySorted(other);
      LexSortedUnique(SortByKey(other), sorted);
    }
  }

  /** Python's `s[:n]` for `n >= 0`. */
  function Head<T>(s: seq<T>, n: nat): (r: seq<T>)
    ensures |r| == if n < |s| then n else |s|
    ensures r == s[..|r|]
  {
    if n < |s| then s[..n] else s
  }

  /** `build_markdown_report`: refused for a run without aggregate metrics;
      otherwise the summary table, the gate, the comparison, the worst
      slices, the run's alerts, the head of the dataset timeline and the
      per-tag table. */
  function MarkdownReport(run: RunRecord, compare: Option<CompareResult>,
                          tagBreakdown: Dict<string, Dict<string, real>>,
                          driftAlerts: seq<DriftAlertRecord>, timeline: seq<DriftAlertRecord>)
    : (r: Result<Report, string>)
    ensures r.Err? <==> run.aggregateMetrics.None?
    ensures r.Err? ==> r.error == "Run " + run.runId + " has no aggregate metrics."
    ensures r.Ok? ==>
      |r.value.topSlices| == (if SliceCap < |tagBreakdown| then SliceCap else |tagBreakdown|)
      && forall i :: 0 <= i < |r.value.topSlices| ==> r.value.topSlices[i] == DegradedSlicesOf(tagBreakdown)[i]
    ensures r.Ok? ==>
      |r.value.timeline| == (if TimelineCap < |timeline| then TimelineCap else |timeline|)
      && forall i :: 0 <= i < |r.value.timeline| ==> r.value.timeline[i] == timeline[i]
    ensures r.Ok? ==> r.value.driftAlerts == driftAlerts && r.value.gate == run.gateDecision
    ensures r.Ok? ==> (r.value.comparison.Some? <==> compare.Some?)
    ensures r.Ok? ==> |r.value.tagRows| == |tagBreakdown|
  {
    match run.aggregateMetrics
    case None => Err("Run " + run.runId + " has no aggregate metrics.")
    case Some(m) =>
      Ok(Report(run.runId, BreakdownFrom(m), run.gateDecision,
                if compare.Some? then Some((compare.value.deltas, compare.value.thresholdOverlay)) else None,
                Head(DegradedSlicesOf(tagBreakdown), SliceCap), driftAlerts, Head(timeline, TimelineCap),
                TagRowsOf(tagBreakdown)))
  }

  /** The summary table has a row for each score, and one for the judge
      score exactly when the run has one. */
  lemma ReportSummary(run: RunRecord, compare: Option<CompareResult>,
                      tagBreakdown: Dict<string, Dict<string, real>>,
                      driftAlerts: seq<DriftAlertRecord>, timeline: seq<DriftAlertRecord>)
    requires run.aggregateMetrics.Some?
    ensures var s := MarkdownReport(run, compare, tagBreakdown, driftAlerts, timeline).value.summary;
      var m := run.aggregateMetrics.value;
      Get(s, "exact_match") == Some(m.exactMatch)
      && Get(s, "keyword_coverage") == Some(m.keywordCoverage)
      && Get(s, "schema_valid") == Some(m.schemaValid)
      && (HasKey(s, "llm_judge_score") <==> m.llmJudgeScore.Some?)
      && (m.llmJudgeScore.Some? ==> Get(s, "llm_judge_score") == m.llmJudgeScore)
  {
    BreakdownFromSpec(run.aggregateMetrics.value);
  }

  /** Every slice left out of the report degrades no more than every slice
      shown. */
  lemma ReportShowsWorstSlices(run: RunRecord, compare: Option<CompareResult>,
                               tagBreakdown: Dict<string, Dict<string, real>>,
                               driftAlerts: seq<DriftAlertRecord>, timeline: seq<DriftAlertRecord>)
    requires run.aggregateMetrics.Some?
    ensures var shown := MarkdownReport(run, compare, tagBreakdown, driftAlerts, timeline).value.topSlices;
      var ranked := DegradedSlicesOf(tagBreakdown);
      forall i, j :: 0 <= i < |shown| <= j < |ranked| ==> shown[i].degradationScore >= ranked[j].degradationScore
  {
    SortDescSorted(SlicesOf(tagBreakdown), ScoreKey);
  }
}
