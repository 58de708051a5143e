/** Run analysis (analysis.py): release status, the p95 rule, per-tag
    slices, metric trends and volatility, drift alerts, failure ranking and
    clustering, and the threshold overlay. */
module Analysis {
  import opened Outcomes
  import opened Dicts
  import opened Stats
  import opened Sorting
  import opened Models
  import opened Metrics
  import opened Gates

  // ---- Release status ----

  /** A failed gate blocks the release; otherwise any alert is a warning. */
  function ComputeReleaseStatus(gate: GateDecision, alerts: seq<DriftAlert>): (r: ReleaseStatus)
    ensures r == Blocked <==> gate.status.Fail?
    ensures r == DriftWarning <==> gate.status.Pass? && alerts != []
    ensures r == Approved <==> gate.status.Pass? && alerts == []
  {
    if gate.status.Fail? then Blocked
    else if alerts != [] then DriftWarning
    else Approved
  }

  /** Through the gate: a release is blocked exactly when some configured
      check fails. */
  lemma ReleaseBlockedIffCheckFails(candidate: AggregateMetrics, config: GateConfig,
                                    baseline: Option<AggregateMetrics>, alerts: seq<DriftAlert>)
    ensures ComputeReleaseStatus(GateDecisionOf(candidate, config, baseline), alerts) == Blocked <==>
      (exists i :: 0 <= i < |config.minMetric|
                   && !MinOutcome(candidate, config.minMetric[i].0, config.minMetric[i].1).check.passed)
      || (exists i :: 0 <= i < |config.maxDropFromBaseline|
                   && !DropOutcome(candidate, baseline, config.maxDropFromBaseline[i].0,
                                   config.maxDropFromBaseline[i].1).check.passed)
  {
    GatePassIffAllChecksPass(candidate, config, baseline);
  }

  // ---- p95 ----

  /** `ceil(0.95 * n) - 1` clamped into the index range: `i + 1` is the
      least integer not below `0.95 * n`. */
  function P95Index(n: nat): (i: int)
    requires n > 0
    ensures 0 <= i < n
    ensures 20 * (i + 1) >= 19 * n && 20 * i < 19 * n
  {
    var idx := (19 * n + 19) / 20 - 1;
    if idx < 0 then 0 else if idx > n - 1 then n - 1 else idx
  }

  /** The 95th-percentile value by the nearest-rank rule; none for no data. */
  function P95(values: seq<real>): (r: Option<real>)
    ensures r.None? <==> values == []
    ensures r.Some? ==> r.value in values
  {
    if values == [] then None
    else
      var ordered := SortAsc(values);
      assert ordered[P95Index(|values|)] in multiset(values);
      Some(ordered[P95Index(|values|)])
  }

  /** With fewer than 20 values the p95 is the maximum (10 values included). */
  lemma P95IsMaxBelowTwenty(values: seq<real>)
    requires 0 < |values| < 20
    ensures forall v :: v in values ==> v <= P95(values).value
  {
    var ordered := SortAsc(values);
    var n := |values|;
    assert P95Index(n) == n - 1;
    SortAscSorted(values);
    forall v | v in values ensures v <= ordered[n - 1] {
      assert v in multiset(ordered);
      var i :| 0 <= i < n && ordered[i] == v;
    }
  }

  /** `y < x` when `strict`, else `y <= x`. */
  predicate Below(y: real, x: real, strict: bool)
  {
    if strict then y < x else y <= x
  }

  /** How many of `xs`, counted with repetition, lie below `x`. */
  function CountBelow(xs: seq<real>, x: real, strict: bool): (n: nat)
    ensures n <= |xs|
  {
    if xs == [] then 0
    else CountBelow(xs[..|xs| - 1], x, strict) + (if Below(xs[|xs| - 1], x, strict) then 1 else 0)
  }

  lemma {:induction false} CountBelowAppend(u: seq<real>, w: seq<real>, x: real, strict: bool)
    ensures CountBelow(u + w, x, strict) == CountBelow(u, x, strict) + CountBelow(w, x, strict)
    decreases |w|
  {
    if w == [] {
      assert u + w == u;
    } else {
      assert (u + w)[..|u + w| - 1] == u + w[..|w| - 1];
      CountBelowAppend(u, w[..|w| - 1], x, strict);
    }
  }

  /** The count does not depend on the order of the values. */
  lemma {:induction false} CountBelowPermutation(a: seq<real>, b: seq<real>, x: real, strict: bool)
    requires multiset(a) == multiset(b)
    ensures CountBelow(a, x, strict) == CountBelow(b, x, strict)
    decreases |a|
  {
    if a != [] {
      var e := a[|a| - 1];
      var init := a[..|a| - 1];
      assert a == init + [e];
      assert e in multiset(b);
      var k :| 0 <= k < |b| && b[k] == e;
      var rest := b[..k] + b[k + 1..];
      assert b == b[..k] + [e] + b[k + 1..];
      assert multiset(b) == multiset(b[..k]) + multiset{e} + multiset(b[k + 1..]);
      assert multiset(rest) == multiset(b[..k]) + multiset(b[k + 1..]);
      assert multiset(a) == multiset(init) + multiset{e};
      assert multiset(init) == multiset(a) - multiset{e};
      assert multiset(rest) == multiset(b) - multiset{e};
      CountBelowPermutation(init, rest, x, strict);
      CountBelowAppend(b[..k] + [e], b[k + 1..], x, strict);
      CountBelowAppend(b[..k], [e], x, strict);
      CountBelowAppend(b[..k], b[k + 1..], x, strict);
      assert [e][..0] == [];
    }
  }

  /** Counting under a weaker bound counts at least as many. */
  lemma {:induction false} CountBelowMonotone(xs: seq<real>, x: real, sx: bool, y: real, sy: bool)
    requires forall j :: 0 <= j < |xs| && Below(xs[j], x, sx) ==> Below(xs[j], y, sy)
    ensures CountBelow(xs, x, sx) <= CountBelow(xs, y, sy)
    decreases |xs|
  {
    if xs != [] {
      CountBelowMonotone(xs[..|xs| - 1], x, sx, y, sy);
    }
  }

  /** Nothing from index `k` on lies below `x`: at most `k` values do. */
  lemma {:induction false} CountBelowAtMost(xs: seq<real>, x: real, strict: bool, k: nat)
    requires forall j :: k <= j < |xs| ==> !Below(xs[j], x, strict)
    ensures CountBelow(xs, x, strict) <= k
    decreases |xs|
  {
    if |xs| > k {
      CountBelowAtMost(xs[..|xs| - 1], x, strict, k);
    }
  }

  /** Everything before index `k` lies below `x`: at least `k` values do. */
  lemma {:induction false} CountBelowAtLeast(xs: seq<real>, x: real, strict: bool, k: nat)
    requires k <= |xs| && forall j :: 0 <= j < k ==> Below(xs[j], x, strict)
    ensures CountBelow(xs, x, strict) >= k
    decreases |xs|
  {
    if xs != [] {
      var init := xs[..|xs| - 1];
      if |xs| > k {
        CountBelowAtLeast(init, x, strict, k);
      } else {
        CountBelowAtLeast(init, x, strict, k - 1);
      }
    }
  }

  /** The p95 is the value of nearest rank `P95Index(n) + 1`: at most
      `P95Index(n)` values lie strictly below it, and at least
      `P95Index(n) + 1` lie at or below it, for every number of values. */
  lemma P95Rank(values: seq<real>)
    requires values != []
    ensures CountBelow(values, P95(values).value, true) <= P95Index(|values|)
    ensures CountBelow(values, P95(values).value, false) >= P95Index(|values|) + 1
  {
    SortAscSorted(values);
    SortedRank(values, SortAsc(values), P95Index(|values|));
  }

  /** In an ascending arrangement of the values, the element at index `i`
      has at most `i` values strictly below it and at least `i + 1` at or
      below it. */
  lemma SortedRank(values: seq<real>, s: seq<real>, i: int)
    requires multiset(s) == multiset(values) && 0 <= i < |s|
    requires forall j, k :: 0 <= j < k < |s| ==> s[j] <= s[k]
    ensures CountBelow(values, s[i], true) <= i
    ensures CountBelow(values, s[i], false) >= i + 1
  {
    var v := s[i];
    CountBelowPermutation(values, s, v, true);
    CountBelowPermutation(values, s, v, false);
    CountBelowAtMost(s, v, true, i);
    CountBelowAtLeast(s, v, false, i + 1);
  }

  /** The two rank bounds single out the p95: a number meets both exactly
      when it is the p95. */
  lemma P95OrderStatistic(values: seq<real>, w: real)
    requires values != []
    ensures (CountBelow(values, w, true) <= P95Index(|values|)
             && CountBelow(values, w, false) >= P95Index(|values|) + 1) <==> w == P95(values).value
  {
    var v := P95(values).value;
    var i := P95Index(|values|);
    P95Rank(values);
    if CountBelow(values, w, true) <= i && CountBelow(values, w, false) >= i + 1 {
      if w < v {
        CountBelowMonotone(values, w, false, v, true);
      } else if w > v {
        CountBelowMonotone(values, v, false, w, true);
      }
    }
  }

  // ---- Per-tag slices ----

  type TagPair = (string, string)

  /** The (tag, result) pairs one result contributes, in tag order. */
  function PairsOf(tags: Dict<string, string>, r: ItemResult): seq<(TagPair, ItemResult)>
  {
    if tags == [] then [] else PairsOf(tags[..|tags| - 1], r) + [(tags[|tags| - 1], r)]
  }

  /** Every (tag, result) pair of the run, in result order. */
  function TagPairs(results: seq<ItemResult>): seq<(TagPair, ItemResult)>
  {
    if results == [] then []
    else TagPairs(results[..|results| - 1]) + PairsOf(results[|results| - 1].tags, results[|results| - 1])
  }

  /** The results carrying tag `p.0` with value `p.1`, in order. */
  function Carrying(results: seq<ItemResult>, p: TagPair): seq<ItemResult>
  {
    if results == [] then []
    else Carrying(results[..|results| - 1], p) + (if p in results[|results| - 1].tags then [results[|results| - 1]] else [])
  }

  function ScoresOf(rows: seq<ItemResult>): (s: seq<ItemScore>)
    ensures |s| == |rows| && forall i :: 0 <= i < |rows| ==> s[i] == rows[i].scores
  {
    seq(|rows|, i requires 0 <= i < |rows| => rows[i].scores)
  }

  /** The metrics of one tag slice: the mean of each score over its rows,
      the judge mean over the rows that have one. */
  function TagRecord(runId: string, p: TagPair, rows: seq<ItemResult>): (t: TagMetricRecord)
    requires rows != []
    ensures t.runId == runId && t.tagKey == p.0 && t.tagValue == p.1 && t.sampleCount == |rows|
  {
    var scores := ScoresOf(rows);
    var judges := JudgeValues(scores);
    TagMetricRecord(runId, p.0, p.1, Mean(ExactMatches(scores)), Mean(KeywordCoverages(scores)),
                    Mean(SchemaValids(scores)), if judges != [] then Some(Mean(judges)) else None, |rows|)
  }

  /** A slice's scores are the means over its rows, and its judge score is
      absent exactly when no row has one. */
  lemma TagRecordMeans(runId: string, p: TagPair, rows: seq<ItemResult>)
    requires rows != []
    ensures var t := TagRecord(runId, p, rows);
      t.exactMatch == Mean(ExactMatches(ScoresOf(rows)))
      && t.keywordCoverage == Mean(KeywordCoverages(ScoresOf(rows)))
      && t.schemaValid == Mean(SchemaValids(ScoresOf(rows)))
      && (t.llmJudgeScore.None? <==> forall i :: 0 <= i < |rows| ==> rows[i].scores.llmJudgeScore.None?)
  {
    var s := ScoresOf(rows);
    JudgeValuesEmpty(s);
    assert forall i :: 0 <= i < |rows| ==> s[i].llmJudgeScore == rows[i].scores.llmJudgeScore;
  }

  /** One record per group, in group order. */
  function TagRecords(runId: string, groups: Dict<TagPair, seq<ItemResult>>): (rs: seq<TagMetricRecord>)
    requires forall i :: 0 <= i < |groups| ==> groups[i].1 != []
    ensures |rs| == |groups|
    ensures forall i :: 0 <= i < |groups| ==> rs[i] == TagRecord(runId, groups[i].0, groups[i].1)
  {
    if groups == [] then []
    else
      var init := groups[..|groups| - 1];
      TagRecords(runId, init) + [TagRecord(runId, groups[|groups| - 1].0, groups[|groups| - 1].1)]
  }

  /** The groups of a run's results by (tag, value), in first-seen order. */
  function TagGroups(results: seq<ItemResult>): (g: Dict<TagPair, seq<ItemResult>>)
    ensures forall i :: 0 <= i < |g| ==> g[i].1 != []
  {
    GroupPairsNonEmpty(TagPairs(results));
    GroupPairs(TagPairs(results))
  }

  /** What `build_tag_metrics` returns. */
  function TagMetricsOf(runId: string, results: seq<ItemResult>): seq<TagMetricRecord>
  {
    TagRecords(runId, TagGroups(results))
  }

  /** `build_tag_metrics`: group in a loop over results and their tags, then
      one record per group. */
  method BuildTagMetrics(runId: string, results: seq<ItemResult>) returns (output: seq<TagMetricRecord>)
    ensures output == TagMetricsOf(runId, results)
  {
    var grouped := GroupByTag(results);
    output := [];
    var g := 0;
    while g < |grouped|
      invariant 0 <= g <= |grouped|
      invariant output == TagRecords(runId, grouped[..g])
    {
      assert grouped[..g + 1][..g] == grouped[..g];
      output := output + [TagRecord(runId, grouped[g].0, grouped[g].1)];
      g := g + 1;
    }
    assert grouped[..g] == grouped;
  }

  /** The grouping loop of `build_tag_metrics`. */
  method GroupByTag(results: seq<ItemResult>) returns (grouped: Dict<TagPair, seq<ItemResult>>)
    ensures grouped == TagGroups(results)
  {
    grouped := [];
    var i := 0;
    while i < |results|
      invariant 0 <= i <= |results|
      invariant grouped == GroupPairs(TagPairs(results[..i]))
    {
      grouped := AddTags(grouped, TagPairs(results[..i]), results[i]);
      assert results[..i + 1][..i] == results[..i];
      i := i + 1;
    }
    assert results[..i] == results;
  }

  /** The inner loop: files `result` under each of its (tag, value) pairs. */
  method AddTags(grouped0: Dict<TagPair, seq<ItemResult>>, ghost seen: seq<(TagPair, ItemResult)>,
                 result: ItemResult) returns (grouped: Dict<TagPair, seq<ItemResult>>)
    requires grouped0 == GroupPairs(seen)
    ensures grouped == GroupPairs(seen + PairsOf(result.tags, result))
  {
    grouped := grouped0;
    var j := 0;
    assert seen + PairsOf(result.tags[..0], result) == seen;
    while j < |result.tags|
      invariant 0 <= j <= |result.tags|
      invariant grouped == GroupPairs(seen + PairsOf(result.tags[..j], result))
    {
      var (k, v) := result.tags[j];
      ghost var before := seen + PairsOf(result.tags[..j], result);
      grouped := GroupAppend(grouped, (k, v), result);
      assert result.tags[..j + 1][..j] == result.tags[..j];
      assert PairsOf(result.tags[..j + 1], result) == PairsOf(result.tags[..j], result) + [((k, v), result)];
      var after := before + [((k, v), result)];
      assert after[..|before|] == before && after[|after| - 1] == ((k, v), result);
      assert seen + PairsOf(result.tags[..j + 1], result) == after;
      j := j + 1;
    }
    assert result.tags[..j] == result.tags;
  }

  lemma {:induction false} PairsOfValues(tags: Dict<string, string>, r: ItemResult, p: TagPair)
    requires DistinctKeys(tags)
    ensures ValuesFor(PairsOf(tags, r), p) == if p in tags then [r] else []
    decreases |tags|
  {
    if tags != [] {
      var init, last := tags[..|tags| - 1], tags[|tags| - 1];
      assert DistinctKeys(init);
      PairsOfValues(init, r, p);
      ValuesForAppend(PairsOf(init, r), [(last, r)], p);
      assert ValuesFor([(last, r)], p) == if last == p then [r] else [];
      assert tags == init + [last];
      if last == p {
        assert p !in init;
      }
    }
  }

  /** Each (tag, value) group holds exactly the results carrying that tag
      value, in order; a result with several tags lands in several groups. */
  lemma {:induction false} TagGroupsCarrying(results: seq<ItemResult>, p: TagPair)
    requires forall i :: 0 <= i < |results| ==> DistinctKeys(results[i].tags)
    ensures ValuesFor(TagPairs(results), p) == Carrying(results, p)
    decreases |results|
  {
    if results != [] {
      var init, last := results[..|results| - 1], results[|results| - 1];
      TagGroupsCarrying(init, p);
      ValuesForAppend(TagPairs(init), PairsOf(last.tags, last), p);
      PairsOfValues(last.tags, last, p);
    }
  }

  /** A (tag, value) pair has a tag-metrics record exactly when some result
      carries it, and then its sample count is the number of such results. */
  lemma TagMetricsForPair(runId: string, results: seq<ItemResult>, p: TagPair)
    requires forall i :: 0 <= i < |results| ==> DistinctKeys(results[i].tags)
    ensures Get(TagGroups(results), p) == if Carrying(results, p) == [] then None else Some(Carrying(results, p))
    ensures Carrying(results, p) != [] ==>
      exists i :: 0 <= i < |TagMetricsOf(runId, results)| &&
        TagMetricsOf(runId, results)[i] == TagRecord(runId, p, Carrying(results, p))
  {
    GroupPairsSpec(TagPairs(results), p);
    TagGroupsCarrying(results, p);
    var g := TagGroups(results);
    if Carrying(results, p) != [] {
      var i := IndexOf(g, p);
      assert TagMetricsOf(runId, results)[i] == TagRecord(runId, p, Carrying(results, p));
    }
  }

  // ---- Trends ----

  /** One metric across the runs that have aggregate metrics, in run order. */
  function Series(runs: seq<RunRecord>, pick: AggregateMetrics -> real): (xs: seq<real>)
    ensures |xs| <= |runs|
  {
    if runs == [] then []
    else
      var last := runs[|runs| - 1];
      Series(runs[..|runs| - 1], pick) + (if last.aggregateMetrics.Some? then [pick(last.aggregateMetrics.value)] else [])
  }

  function PickExactMatch(m: AggregateMetrics): real { m.exactMatch }
  function PickKeywordCoverage(m: AggregateMetrics): real { m.keywordCoverage }
  function PickSchemaValid(m: AggregateMetrics): real { m.schemaValid }

  /** `pstdev(xs)` squared when there are two points or more, else 0. */
  function Volatility(xs: seq<real>): (v: real)
    ensures v >= 0.0
    ensures |xs| < 2 ==> v == 0.0
  {
    if |xs| >= 2 then Variance(xs) else 0.0
  }

  /** The series of the three base metrics and their volatility. */
  datatype Trends = Trends(series: Dict<string, seq<real>>, volatility: Dict<string, real>)

  function TrendsOf(runs: seq<RunRecord>): Trends
  {
    var em, kc, sv := Series(runs, PickExactMatch), Series(runs, PickKeywordCoverage), Series(runs, PickSchemaValid);
    Trends([("exact_match", em), ("keyword_coverage", kc), ("schema_valid", sv)],
           [("exact_match", Volatility(em)), ("keyword_coverage", Volatility(kc)), ("schema_valid", Volatility(sv))])
  }

  /** `summarize_trends`: one pass over the runs, then the volatilities. */
  method SummarizeTrends(runs: seq<RunRecord>) returns (t: Trends)
    ensures t == TrendsOf(runs)
  {
    var em: seq<real> := [];
    var kc: seq<real> := [];
    var sv: seq<real> := [];
    var i := 0;
    while i < |runs|
      invariant 0 <= i <= |runs|
      invariant em == Series(runs[..i], PickExactMatch)
      invariant kc == Series(runs[..i], PickKeywordCoverage)
      invariant sv == Series(runs[..i], PickSchemaValid)
    {
      var run := runs[i];
      if run.aggregateMetrics.Some? {
        var m := run.aggregateMetrics.value;
        em := em + [m.exactMatch];
        kc := kc + [m.keywordCoverage];
        sv := sv + [m.schemaValid];
      }
      assert runs[..i + 1][..i] == runs[..i];
      i := i + 1;
    }
    assert runs[..i] == runs;
    var volatility: Dict<string, real> := [];
    volatility := volatility + [("exact_match", if |em| >= 2 then Variance(em) else 0.0)];
    volatility := volatility + [("keyword_coverage", if |kc| >= 2 then Variance(kc) else 0.0)];
    volatility := volatility + [("schema_valid", if |sv| >= 2 then Variance(sv) else 0.0)];
    t := Trends([("exact_match", em), ("keyword_coverage", kc), ("schema_valid", sv)], volatility);
  }

  /** Runs without metrics are skipped: the series has one point per run
      that has them. */
  function CountWithMetrics(runs: seq<RunRecord>): nat
  {
    if runs == [] then 0
    else CountWithMetrics(runs[..|runs| - 1]) + (if runs[|runs| - 1].aggregateMetrics.Some? then 1 else 0)
  }

  lemma {:induction false} SeriesLength(runs: seq<RunRecord>, pick: AggregateMetrics -> real)
    ensures |Series(runs, pick)| == CountWithMetrics(runs)
    decreases |runs|
  {
    if runs != [] { SeriesLength(runs[..|runs| - 1], pick); }
  }

  /** The series keeps run order: the series of two stretches of history
      is the first's series followed by the second's. */
  lemma {:induction false} SeriesAppend(a: seq<RunRecord>, b: seq<RunRecord>, pick: AggregateMetrics -> real)
    ensures Series(a + b, pick) == Series(a, pick) + Series(b, pick)
    decreases |b|
  {
    if b != [] {
      var init := b[..|b| - 1];
      assert (a + b)[..|a + b| - 1] == a + init;
      assert (a + b)[|a + b| - 1] == b[|b| - 1];
      SeriesAppend(a, init, pick);
    } else {
      assert a + b == a;
    }
  }

  lemma {:induction false} SeriesSteady(runs: seq<RunRecord>, pick: AggregateMetrics -> real, c: real)
    requires forall i :: 0 <= i < |runs| && runs[i].aggregateMetrics.Some? ==> pick(runs[i].aggregateMetrics.value) == c
    ensures AllWithin(Series(runs, pick), c, c)
    decreases |runs|
  {
    if runs != [] {
      var init := runs[..|runs| - 1];
      assert forall i :: 0 <= i < |init| ==> init[i] == runs[i];
      SeriesSteady(init, pick, c);
    }
  }

  /** A metric that holds steady across runs has no volatility. */
  lemma SteadyMetricNoVolatility(runs: seq<RunRecord>, pick: AggregateMetrics -> real, c: real)
    requires forall i :: 0 <= i < |runs| && runs[i].aggregateMetrics.Some? ==> pick(runs[i].aggregateMetrics.value) == c
    ensures Volatility(Series(runs, pick)) == 0.0
  {
    SeriesSteady(runs, pick, c);
    ConstantSeriesVariance(Series(runs, pick), c);
  }

  // ---- Drift alerts ----

  /** The alert a max-drop threshold raises: critical past the threshold,
      a warning past 70% of it, none otherwise. */
  function ThresholdAlert(metric: string, base: real, cand: real, threshold: real): (a: Option<DriftAlert>)
    ensures var drop := base - cand;
      (a.Some? && a.value.severity == Critical <==> drop > threshold)
      && (a.Some? && a.value.severity == Warning <==> drop <= threshold && drop > threshold * 0.7)
      && (a.Some? ==> a.value.scope == "global" && a.value.metric == metric
                      && a.value.delta == Some(-drop) && a.value.threshold == Some(-threshold))
  {
    var drop := base - cand;
    if drop > threshold then
      Some(DriftAlert("global", metric, Critical, Some(-drop), Some(-threshold), DroppedPast(metric, drop, threshold)))
    else if drop > threshold * 0.7 then
      Some(DriftAlert("global", metric, Warning, Some(-drop), Some(-threshold), NearingThreshold(metric, drop)))
    else None
  }

  /** The variance above which a metric is volatile: a standard deviation
      above 0.15. */
  const VolatilityLimit: real := 0.15 * 0.15

  /** A volatile metric raises a warning without delta or threshold. */
  function VolatilityAlert(metric: string, variance: real): (a: Option<DriftAlert>)
    ensures a.Some? <==> variance > VolatilityLimit
    ensures a.Some? ==> a.value == DriftAlert("global", metric, Warning, None, None, HighVolatility(metric))
  {
    if variance > VolatilityLimit then Some(DriftAlert("global", metric, Warning, None, None, HighVolatility(metric)))
    else None
  }

  function OptionList(a: Option<DriftAlert>): seq<DriftAlert>
  {
    if a.Some? then [a.value] else []
  }

  /** The message of what reading a metric that is not a number raises:
      `float(None)` for an absent judge score, and `getattr` of a field
      the aggregate does not have for any other name. */
  function MetricReadError(metric: string): string
  {
    if metric == "llm_judge_score" then "float() argument must be a string or a real number, not 'NoneType'"
    else AttributeErrorPrefix + metric + "'"
  }

  const AttributeErrorPrefix := "'AggregateMetrics' object has no attribute '"

  /** The threshold alerts in order, or the error of the first metric that
      cannot be read on either side. Without a baseline every threshold is skipped. */
  function ThresholdAlerts(baseline: Option<AggregateMetrics>, candidate: AggregateMetrics,
                           maxDrops: Dict<string, real>): Result<seq<DriftAlert>, string>
  {
    if maxDrops == [] || baseline.None? then Ok([])
    else
      var e := maxDrops[|maxDrops| - 1];
      match ThresholdAlerts(baseline, candidate, maxDrops[..|maxDrops| - 1])
      case Err(m) => Err(m)
      case Ok(prev) =>
        var base := MetricValue(baseline.value, e.0);
        var cand := MetricValue(candidate, e.0);
        if base.None? || cand.None? then Err(MetricReadError(e.0))
        else Ok(prev + OptionList(ThresholdAlert(e.0, base.value, cand.value, e.1)))
  }

  function VolatilityAlerts(variances: Dict<string, real>): seq<DriftAlert>
  {
    if variances == [] then []
    else
      var e := variances[|variances| - 1];
      VolatilityAlerts(variances[..|variances| - 1]) + OptionList(VolatilityAlert(e.0, e.1))
  }

  /** What `build_drift_alerts` returns, or the metric it fails on. */
  function DriftAlertsOf(baseline: Option<AggregateMetrics>, candidate: AggregateMetrics,
                         variances: Dict<string, real>, maxDrops: Dict<string, real>): Result<seq<DriftAlert>, string>
  {
    match ThresholdAlerts(baseline, candidate, maxDrops)
    case Err(m) => Err(m)
    case Ok(t) => Ok(t + VolatilityAlerts(variances))
  }

  /** `build_drift_alerts`: a loop over the drop thresholds, then one over
      the volatilities. */
  method BuildDriftAlerts(baseline: Option<AggregateMetrics>, candidate: AggregateMetrics,
                          variances: Dict<string, real>, maxDrops: Dict<string, real>)
    returns (r: Result<seq<DriftAlert>, string>)
    ensures r == DriftAlertsOf(baseline, candidate, variances, maxDrops)
  {
    var thresholdAlerts := CollectThresholdAlerts(baseline, candidate, maxDrops);
    if thresholdAlerts.Err? {
      return Err(thresholdAlerts.error);
    }
    var alerts := thresholdAlerts.value;
    var j := 0;
    while j < |variances|
      invariant 0 <= j <= |variances|
      invariant alerts == thresholdAlerts.value + VolatilityAlerts(variances[..j])
    {
      var (metric, variance) := variances[j];
      ghost var upto := variances[..j + 1];
      assert upto[..j] == variances[..j] && upto[j] == (metric, variance);
      assert VolatilityAlerts(upto) == VolatilityAlerts(variances[..j]) + OptionList(VolatilityAlert(metric, variance));
      ghost var prev := alerts;
      if variance > VolatilityLimit {
        alerts := alerts + [DriftAlert("global", metric, Warning, None, None, HighVolatility(metric))];
      }
      assert alerts == prev + OptionList(VolatilityAlert(metric, variance));
      j := j + 1;
    }
    assert variances[..j] == variances;
    r := Ok(alerts);
  }

  /** The first loop of `build_drift_alerts`; reading a metric that is not
      a number fails the whole call. */
  method CollectThresholdAlerts(baseline: Option<AggregateMetrics>, candidate: AggregateMetrics,
                                maxDrops: Dict<string, real>)
    returns (r: Result<seq<DriftAlert>, string>)
    ensures r == ThresholdAlerts(baseline, candidate, maxDrops)
  {
    var alerts: seq<DriftAlert> := [];
    var i := 0;
    while i < |maxDrops|
      invariant 0 <= i <= |maxDrops|
      invariant ThresholdAlerts(baseline, candidate, maxDrops[..i]) == Ok(alerts)
    {
      var (metric, threshold) := maxDrops[i];
      ghost var upto := maxDrops[..i + 1];
      assert upto[..i] == maxDrops[..i] && upto[i] == (metric, threshold);
      if baseline.None? {
        i := i + 1;
        continue;
      }
      var base := MetricValue(baseline.value, metric);
      var cand := MetricValue(candidate, metric);
      if base.None? || cand.None? {
        ThresholdErrorSticks(baseline, candidate, maxDrops, i + 1);
        return Err(MetricReadError(metric));
      }
      var raised := ThresholdAlert(metric, base.value, cand.value, threshold);
      assert ThresholdAlerts(baseline, candidate, upto) == Ok(alerts + OptionList(raised));
      ghost var prev := alerts;
      if raised.Some? {
        alerts := alerts + [raised.value];
      }
      assert alerts == prev + OptionList(raised);
      i := i + 1;
    }
    assert maxDrops[..i] == maxDrops;
    r := Ok(alerts);
  }

  /** Once a prefix of the thresholds fails, every longer prefix fails the
      same way. */
  lemma {:induction false} ThresholdErrorSticks(baseline: Option<AggregateMetrics>, candidate: AggregateMetrics,
                                                maxDrops: Dict<string, real>, k: nat)
    requires k <= |maxDrops| && ThresholdAlerts(baseline, candidate, maxDrops[..k]).Err?
    ensures ThresholdAlerts(baseline, candidate, maxDrops) == ThresholdAlerts(baseline, candidate, maxDrops[..k])
    decreases |maxDrops| - k
  {
    if k < |maxDrops| {
      assert maxDrops[..k + 1][..k] == maxDrops[..k];
      ThresholdErrorSticks(baseline, candidate, maxDrops, k + 1);
    } else {
      assert maxDrops[..k] == maxDrops;
    }
  }

  /** Without a baseline there are no threshold alerts, only volatility
      warnings. */
  lemma NoBaselineOnlyVolatility(candidate: AggregateMetrics, variances: Dict<string, real>, maxDrops: Dict<string, real>)
    ensures DriftAlertsOf(None, candidate, variances, maxDrops) == Ok(VolatilityAlerts(variances))
  {
    assert [] + VolatilityAlerts(variances) == VolatilityAlerts(variances);
  }

  /** With a baseline, a threshold whose metric cannot be read on either
      side makes the whole call fail. */
  lemma {:induction false} MissingMetricFails(baseline: AggregateMetrics, candidate: AggregateMetrics,
                                              maxDrops: Dict<string, real>, i: nat)
    requires i < |maxDrops|
    requires MetricValue(baseline, maxDrops[i].0).None? || MetricValue(candidate, maxDrops[i].0).None?
    ensures ThresholdAlerts(Some(baseline), candidate, maxDrops).Err?
    decreases |maxDrops|
  {
    var init := maxDrops[..|maxDrops| - 1];
    if i < |maxDrops| - 1 {
      assert init[i] == maxDrops[i];
      MissingMetricFails(baseline, candidate, init, i);
    }
  }

  /** Every threshold before `k` reads on both sides. */
  predicate ReadableUpTo(baseline: AggregateMetrics, candidate: AggregateMetrics,
                         maxDrops: Dict<string, real>, k: int)
  {
    forall j :: 0 <= j < k && j < |maxDrops| ==>
      MetricValue(baseline, maxDrops[j].0).Some? && MetricValue(candidate, maxDrops[j].0).Some?
  }

  /** While every metric reads, the threshold alerts do not fail. */
  lemma {:induction false} ReadableNoError(baseline: AggregateMetrics, candidate: AggregateMetrics,
                                           maxDrops: Dict<string, real>)
    requires ReadableUpTo(baseline, candidate, maxDrops, |maxDrops|)
    ensures ThresholdAlerts(Some(baseline), candidate, maxDrops).Ok?
    decreases |maxDrops|
  {
    if maxDrops != [] {
      var init := maxDrops[..|maxDrops| - 1];
      assert forall j :: 0 <= j < |init| ==> init[j] == maxDrops[j];
      ReadableNoError(baseline, candidate, init);
    }
  }

  /** The call fails with the message of the first threshold whose metric
      does not read, as the exception `build_drift_alerts` lets out. */
  lemma FirstUnreadableMetricNamed(baseline: AggregateMetrics, candidate: AggregateMetrics,
                                   maxDrops: Dict<string, real>, i: nat)
    requires i < |maxDrops| && ReadableUpTo(baseline, candidate, maxDrops, i)
    requires MetricValue(baseline, maxDrops[i].0).None? || MetricValue(candidate, maxDrops[i].0).None?
    ensures ThresholdAlerts(Some(baseline), candidate, maxDrops) == Err(MetricReadError(maxDrops[i].0))
  {
    var upto := maxDrops[..i + 1];
    assert upto[..i] == maxDrops[..i] && upto[i] == maxDrops[i];
    assert forall j :: 0 <= j < i ==> maxDrops[..i][j] == maxDrops[j];
    ReadableNoError(baseline, candidate, maxDrops[..i]);
    ThresholdErrorSticks(Some(baseline), candidate, maxDrops, i + 1);
  }

  /** Every alert is global; threshold alerts are never more than the
      thresholds. */
  lemma {:induction false} ThresholdAlertsShape(baseline: Option<AggregateMetrics>, candidate: AggregateMetrics,
                                                maxDrops: Dict<string, real>)
    ensures ThresholdAlerts(baseline, candidate, maxDrops).Ok? ==>
      var alerts := ThresholdAlerts(baseline, candidate, maxDrops).value;
      |alerts| <= |maxDrops| && forall a :: a in alerts ==> a.scope == "global" && a.delta.Some?
    decreases |maxDrops|
  {
    if maxDrops != [] && baseline.Some? {
      ThresholdAlertsShape(baseline, candidate, maxDrops[..|maxDrops| - 1]);
    }
  }

  lemma {:induction false} VolatilityAlertsShape(variances: Dict<string, real>)
    ensures |VolatilityAlerts(variances)| <= |variances|
    ensures forall a :: a in VolatilityAlerts(variances) ==>
              a.scope == "global" && a.severity == Warning && a.delta.None? && a.threshold.None?
    decreases |variances|
  {
    if variances != [] {
      VolatilityAlertsShape(variances[..|variances| - 1]);
    }
  }

  /** Some alert of `alerts` warns that `metric` is volatile. */
  predicate WarnsVolatile(alerts: seq<DriftAlert>, metric: string)
  {
    exists a :: a in alerts && a.message == HighVolatility(metric)
  }

  /** A metric's volatility warning is raised exactly when its variance
      exceeds the limit. */
  lemma {:induction false} VolatilityAlertFor(variances: Dict<string, real>, metric: string)
    requires DistinctKeys(variances) && HasKey(variances, metric)
    ensures WarnsVolatile(VolatilityAlerts(variances), metric) <==> Get(variances, metric).value > VolatilityLimit
    decreases |variances|
  {
    var init, e := variances[..|variances| - 1], variances[|variances| - 1];
    assert DistinctKeys(init);
    assert variances == init + [e];
    GetSnoc(init, e.0, e.1, metric);
    var prev := VolatilityAlerts(init);
    var extra := OptionList(VolatilityAlert(e.0, e.1));
    assert VolatilityAlerts(variances) == prev + extra;
    if e.0 == metric {
      assert !HasKey(init, metric);
      NotInMessages(init, metric);
      assert Get(variances, metric) == Some(e.1);
      if e.1 > VolatilityLimit {
        assert extra[0] in prev + extra;
      }
    } else {
      VolatilityAlertFor(init, metric);
      assert !WarnsVolatile(extra, metric);
      if WarnsVolatile(prev, metric) {
        var a :| a in prev && a.message == HighVolatility(metric);
        assert a in prev + extra;
      }
    }
  }

  /** A metric without an entry has no volatility warning. */
  lemma {:induction false} NotInMessages(variances: Dict<string, real>, metric: string)
    requires !HasKey(variances, metric)
    ensures !WarnsVolatile(VolatilityAlerts(variances), metric)
    decreases |variances|
  {
    if variances != [] {
      var init, e := variances[..|variances| - 1], variances[|variances| - 1];
      assert variances == init + [e];
      GetSnoc(init, e.0, e.1, metric);
      NotInMessages(init, metric);
      assert !WarnsVolatile(OptionList(VolatilityAlert(e.0, e.1)), metric);
    }
  }

  // ---- Failure ranking ----

  /** How bad a result is: errors and schema errors weigh most, then the
      shortfall of each score. */
  function Severity(row: ItemResult): (s: real)
    ensures UnitScore(row.scores) ==> 0.0 <= s <= 14.0
    ensures UnitScore(row.scores) && Truthy(row.error) ==> s >= 4.0
    ensures UnitScore(row.scores) && !Truthy(row.error) && !Truthy(row.schemaError) ==> s <= 4.0 + (1.0 - row.scores.schemaValid) * 3.0
  {
    (if Truthy(row.error) then 4.0 else 0.0)
    + (if Truthy(row.schemaError) then 3.0 else 0.0)
    + (1.0 - row.scores.exactMatch) * 2.0
    + (1.0 - row.scores.keywordCoverage) * 2.0
    + (1.0 - row.scores.schemaValid) * 3.0
  }

  /** A result whose generation failed ranks no lower than a clean result
      whose output conforms to its schema. */
  lemma ErrorsRankFirst(failed: ItemResult, clean: ItemResult)
    requires UnitScore(failed.scores) && UnitScore(clean.scores)
    requires Truthy(failed.error) && !Truthy(clean.error) && !Truthy(clean.schemaError)
    requires clean.scores.schemaValid == 1.0
    ensures Severity(failed) >= Severity(clean)
  {
  }

  function ToSample(row: ItemResult): FailureSample
  {
    FailureSample(row.itemId, Severity(row), row.expectedAnswer, row.outputText, row.error,
                  row.schemaError, row.keywordMisses, row.scores, row.tags)
  }

  function Samples(results: seq<ItemResult>): (s: seq<FailureSample>)
    ensures |s| == |results| && forall i :: 0 <= i < |results| ==> s[i] == ToSample(results[i])
  {
    seq(|results|, i requires 0 <= i < |results| => ToSample(results[i]))
  }

  function SeverityKey(f: FailureSample): real
  {
    f.severity
  }

  /** Python's `s[:limit]`: a negative limit counts from the end. */
  function TakePrefix<T>(s: seq<T>, limit: int): (r: seq<T>)
    ensures limit >= 0 ==> |r| == if limit < |s| then limit else |s|
    ensures limit < 0 ==> |r| == if |s| + limit > 0 then |s| + limit else 0
    ensures r == s[..|r|]
  {
    if limit >= 0 then (if limit < |s| then s[..limit] else s)
    else if |s| + limit > 0 then s[..|s| + limit] else []
  }

  /** `worst_failures`: the samples ranked by descending severity, ties in
      input order, cut to `limit`. */
  method WorstFailures(results: seq<ItemResult>, limit: int) returns (r: seq<FailureSample>)
    ensures r == TakePrefix(SortDesc(Samples(results), SeverityKey), limit)
  {
    var ranked: seq<FailureSample> := [];
    var i := 0;
    while i < |results|
      invariant 0 <= i <= |results|
      invariant ranked == Samples(results[..i])
    {
      var row := results[i];
      var severity := 0.0;
      if Truthy(row.error) {
        severity := severity + 4.0;
      }
      if Truthy(row.schemaError) {
        severity := severity + 3.0;
      }
      severity := severity + (1.0 - row.scores.exactMatch) * 2.0;
      severity := severity + (1.0 - row.scores.keywordCoverage) * 2.0;
      severity := severity + (1.0 - row.scores.schemaValid) * 3.0;
      ranked := ranked + [FailureSample(row.itemId, severity, row.expectedAnswer, row.outputText, row.error,
                                        row.schemaError, row.keywordMisses, row.scores, row.tags)];
      i := i + 1;
    }
    assert results[..i] == results;
    ranked := SortDesc(ranked, SeverityKey);
    r := TakePrefix(ranked, limit);
  }

  /** The ranking is by descending severity, keeps the samples of equal
      severity in input order, and what is cut off is no worse than what is
      kept. */
  lemma WorstFailuresRanked(results: seq<ItemResult>, limit: int, k: real)
    ensures var ranked := SortDesc(Samples(results), SeverityKey);
      var r := TakePrefix(ranked, limit);
      SortedDesc(r, SeverityKey)
      && WithKey(ranked, SeverityKey, k) == WithKey(Samples(results), SeverityKey, k)
      && (forall i, j :: 0 <= i < |r| <= j < |ranked| ==> r[i].severity >= ranked[j].severity)
  {
    var ranked := SortDesc(Samples(results), SeverityKey);
    SortDescSorted(Samples(results), SeverityKey);
    SortDescStable(Samples(results), SeverityKey, k);
  }

  // ---- Failure clusters ----

  /** Schema-error messages and missed keywords with their counts, most
      frequent first. */
  datatype Clusters = Clusters(schemaViolations: seq<(string, nat)>, keywordMisses: seq<(string, nat)>)

  /** The truthy schema errors, in result order. */
  function SchemaErrorsOf(results: seq<ItemResult>): seq<string>
  {
    if results == [] then []
    else
      var last := results[|results| - 1];
      SchemaErrorsOf(results[..|results| - 1]) + (if Truthy(last.schemaError) then [last.schemaError.value] else [])
  }

  /** Every missed keyword of every result, in order. */
  function MissesOf(results: seq<ItemResult>): seq<string>
  {
    if results == [] then [] else MissesOf(results[..|results| - 1]) + results[|results| - 1].keywordMisses
  }

  function CountKey(e: (string, nat)): real
  {
    e.1 as real
  }

  function ClustersOf(results: seq<ItemResult>): Clusters
  {
    Clusters(SortDesc(Tally(SchemaErrorsOf(results)), CountKey), SortDesc(Tally(MissesOf(results)), CountKey))
  }

  /** `cluster_failures`: count in a loop, then sort both tallies. */
  method ClusterFailures(results: seq<ItemResult>) returns (c: Clusters)
    ensures c == ClustersOf(results)
  {
    var schemaGroups: Dict<string, nat> := [];
    var keywordGroups: Dict<string, nat> := [];
    var i := 0;
    while i < |results|
      invariant 0 <= i <= |results|
      invariant schemaGroups == Tally(SchemaErrorsOf(results[..i]))
      invariant keywordGroups == Tally(MissesOf(results[..i]))
    {
      var row := results[i];
      FailuresSnoc(results, i);
      if Truthy(row.schemaError) {
        ghost var seen := SchemaErrorsOf(results[..i]);
        schemaGroups := Increment(schemaGroups, row.schemaError.value);
        TallySnoc(seen, row.schemaError.value);
        assert SchemaErrorsOf(results[..i + 1]) == seen + [row.schemaError.value];
        assert schemaGroups == Tally(seen + [row.schemaError.value]);
      } else {
        assert SchemaErrorsOf(results[..i + 1]) == SchemaErrorsOf(results[..i]);
      }
      keywordGroups := CountMisses(keywordGroups, MissesOf(results[..i]), row.keywordMisses);
      i := i + 1;
    }
    assert results[..i] == results;
    c := Clusters(SortDesc(schemaGroups, CountKey), SortDesc(keywordGroups, CountKey));
  }

  lemma FailuresSnoc(results: seq<ItemResult>, i: nat)
    requires i < |results|
    ensures SchemaErrorsOf(results[..i + 1]) == SchemaErrorsOf(results[..i])
              + (if Truthy(results[i].schemaError) then [results[i].schemaError.value] else [])
    ensures MissesOf(results[..i + 1]) == MissesOf(results[..i]) + results[i].keywordMisses
  {
    assert results[..i + 1][..i] == results[..i];
  }

  lemma TallySnoc(seen: seq<string>, k: string)
    ensures Tally(seen + [k]) == Increment(Tally(seen), k)
  {
    assert (seen + [k])[..|seen|] == seen;
  }

  /** The inner loop of `cluster_failures` over one result's misses. */
  method CountMisses(groups0: Dict<string, nat>, ghost seen: seq<string>, misses: seq<string>)
    returns (groups: Dict<string, nat>)
    requires groups0 == Tally(seen)
    ensures groups == Tally(seen + misses)
  {
    groups := groups0;
    var j := 0;
    assert seen + misses[..0] == seen;
    while j < |misses|
      invariant 0 <= j <= |misses|
      invariant groups == Tally(seen + misses[..j])
    {
      groups := Increment(groups, misses[j]);
      assert (seen + misses[..j + 1])[..|seen| + j] == seen + misses[..j];
      j := j + 1;
    }
    assert misses[..j] == misses;
  }

  /** Each schema-error message and each missed keyword appears once, with
      its number of occurrences, most frequent first. */
  lemma ClusterCounts(results: seq<ItemResult>, key: string, n: nat)
    ensures (key, n) in ClustersOf(results).schemaViolations <==>
              key in SchemaErrorsOf(results) && n == multiset(SchemaErrorsOf(results))[key]
    ensures (key, n) in ClustersOf(results).keywordMisses <==>
              key in MissesOf(results) && n == multiset(MissesOf(results))[key]
    ensures SortedDesc(ClustersOf(results).schemaViolations, CountKey)
    ensures SortedDesc(ClustersOf(results).keywordMisses, CountKey)
  {
    var s, m := Tally(SchemaErrorsOf(results)), Tally(MissesOf(results));
    TallySpec(SchemaErrorsOf(results), key);
    TallySpec(MissesOf(results), key);
    GetIn(s, key, n);
    GetIn(m, key, n);
    assert (key, n) in ClustersOf(results).schemaViolations <==> (key, n) in multiset(s);
    assert (key, n) in ClustersOf(results).keywordMisses <==> (key, n) in multiset(m);
    SortDescSorted(s, CountKey);
    SortDescSorted(m, CountKey);
  }

  // ---- Threshold overlay ----

  datatype OverlayRow = OverlayRow(delta: real, allowedDrop: real, actualDrop: real, breach: real, passed: bool)

  /** One overlay row: the drop is the negative part of the delta, the
      breach is how far it exceeds the allowance, and the row passes with
      no breach. */
  function OverlayRowOf(delta: real, allowedDrop: real): (row: OverlayRow)
    ensures row.delta == delta && row.allowedDrop == allowedDrop
    ensures row.actualDrop >= 0.0 && row.breach >= 0.0
    ensures row.actualDrop == (if delta < 0.0 then -delta else 0.0)
    ensures row.passed <==> row.breach == 0.0
    ensures row.passed <==> row.actualDrop <= allowedDrop
    ensures row.breach == if row.actualDrop > allowedDrop then row.actualDrop - allowedDrop else 0.0
  {
    var actualDrop := if 0.0 >= -delta then 0.0 else -delta;
    var breach := if 0.0 >= actualDrop - allowedDrop then 0.0 else actualDrop - allowedDrop;
    OverlayRow(delta, allowedDrop, actualDrop, breach, breach == 0.0)
  }

  /** The overlay over all deltas, keyed by metric; a metric without an
      allowance is allowed no drop. */
  function OverlayOf(deltas: Dict<string, real>, allowedDrops: Dict<string, real>): Dict<string, OverlayRow>
  {
    if deltas == [] then []
    else
      var e := deltas[|deltas| - 1];
      Put(OverlayOf(deltas[..|deltas| - 1], allowedDrops), e.0, OverlayRowOf(e.1, GetOr(allowedDrops, e.0, 0.0)))
  }

  /** `build_threshold_overlay` */
  method BuildThresholdOverlay(deltas: Dict<string, real>, allowedDrops: Dict<string, real>)
    returns (overlay: Dict<string, OverlayRow>)
    ensures overlay == OverlayOf(deltas, allowedDrops)
  {
    overlay := [];
    var i := 0;
    while i < |deltas|
      invariant 0 <= i <= |deltas|
      invariant overlay == OverlayOf(deltas[..i], allowedDrops)
    {
      var (metric, delta) := deltas[i];
      var allowedDrop := GetOr(allowedDrops, metric, 0.0);
      var actualDrop := if 0.0 >= -delta then 0.0 else -delta;
      var breach := if 0.0 >= actualDrop - allowedDrop then 0.0 else actualDrop - allowedDrop;
      overlay := Put(overlay, metric, OverlayRow(delta, allowedDrop, actualDrop, breach, breach == 0.0));
      assert deltas[..i + 1][..i] == deltas[..i];
      i := i + 1;
    }
    assert deltas[..i] == deltas;
  }

  /** One row per delta, in the order of the deltas. */
  lemma {:induction false} OverlayRows(deltas: Dict<string, real>, allowedDrops: Dict<string, real>)
    requires DistinctKeys(deltas)
    ensures |OverlayOf(deltas, allowedDrops)| == |deltas|
    ensures forall i :: 0 <= i < |deltas| ==>
      OverlayOf(deltas, allowedDrops)[i] == (deltas[i].0, OverlayRowOf(deltas[i].1, GetOr(allowedDrops, deltas[i].0, 0.0)))
    decreases |deltas|
  {
    if deltas != [] {
      var init, e := deltas[..|deltas| - 1], deltas[|deltas| - 1];
      assert DistinctKeys(init);
      OverlayRows(init, allowedDrops);
    }
  }

  /** For a non-negative allowance the overlay passes exactly when the
      gate's drop test passes (drop = -delta). */
  lemma OverlayAgreesWithGate(delta: real, allowedDrop: real)
    requires allowedDrop >= 0.0
    ensures OverlayRowOf(delta, allowedDrop).passed <==> -delta <= allowedDrop
  {
  }

  /** With a negative allowance they disagree: an improvement passes the
      gate but breaches the overlay. */
  lemma OverlayDisagreesForNegativeAllowance()
    ensures var delta, allowed := 1.0, -0.5;
      -delta <= allowed && !OverlayRowOf(delta, allowed).passed
  {
  }

  /** Within the allowance the row passes with no breach; beyond it the
      breach is the excess. */
  lemma OverlayExample()
    ensures OverlayRowOf(-0.04, 0.05).passed && OverlayRowOf(-0.04, 0.05).breach == 0.0
    ensures !OverlayRowOf(-0.2, 0.1).passed && OverlayRowOf(-0.2, 0.1).breach == 0.1
    ensures OverlayRowOf(0.1, 0.02).actualDrop == 0.0
  {
  }
}
