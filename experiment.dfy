/** One evaluation run: every dataset item is rendered, sent to the model
    backend (and to the judge), scored and recorded; then the run's
    metrics, gate decision, tag slices, trends, drift alerts and release
    status are computed and written back to the repository. */
module Experiment {
  import opened Outcomes
  import opened Text
  import opened Dicts
  import opened Stats
  import opened Sorting
  import opened Models
  import opened Metrics
  import opened Gates
  import opened Analysis
  import opened Config
  import opened Retrieval
  import opened Tables
  import opened Repository

  /** What a run reads from outside the store. `generate(model, prompt,
      temperature)` is the model backend: the text, or the message of the
      exception it raised. `itemLatencyMs(i)` is the time measured around
      the backend calls of the i-th item, `durationMs` the time of the whole
      item phase, `now` the wall clock. `render` formats an alert message. */
  datatype Environment = Environment(
    generate: (string, string, real) -> Result<string, string>,
    validate: SchemaValidator,
    parse: FloatParser,
    hashing: Hashing,
    loadItems: string -> seq<DatasetItem>,
    itemLatencyMs: nat -> real,
    durationMs: real,
    now: int,
    render: AlertMessage -> string)

  const PromptSlot := "{prompt}"
  const ContextSeparator := "\n\n"

  // ---- One item ----

  /** The prompt sent for an item: the template with every "{prompt}"
      replaced by the item's prompt, behind the retrieval context when
      retrieval is on. */
  function RenderPrompt(v: VariantConfig, item: DatasetItem): string
  {
    var base := Replace(v.promptTemplate, PromptSlot, item.prompt);
    if v.retrievalEnabled then BuildRetrievalContext(item) + ContextSeparator + base else base
  }

  /** The default template sends the item's prompt as it is. */
  lemma DefaultTemplateSendsPrompt(v: VariantConfig, item: DatasetItem)
    requires v.promptTemplate == PromptSlot && !v.retrievalEnabled
    ensures RenderPrompt(v, item) == item.prompt
  {
    ReplaceLeading(PromptSlot, "", item.prompt);
    assert PromptSlot + "" == PromptSlot;
  }

  /** A template without the slot is sent unchanged, whatever the item. */
  lemma TemplateWithoutSlot(v: VariantConfig, item: DatasetItem)
    requires !Contains(v.promptTemplate, PromptSlot) && !v.retrievalEnabled
    ensures RenderPrompt(v, item) == v.promptTemplate
  {
    ReplaceAbsent(v.promptTemplate, PromptSlot, item.prompt);
  }

  /** Retrieval puts the context line and a blank line in front of what
      would be sent without it. */
  lemma RetrievalPrefixesContext(v: VariantConfig, item: DatasetItem)
    requires v.retrievalEnabled
    ensures IsPrefix(ContextHead, RenderPrompt(v, item))
    ensures RenderPrompt(v, item)
            == BuildRetrievalContext(item) + ContextSeparator + RenderPrompt(v.(retrievalEnabled := false), item)
  {
    var r := RenderPrompt(v, item);
    var ctx := BuildRetrievalContext(item);
    assert r[..|ContextHead|] == ctx[..|ContextHead|];
  }

  /** The judge is asked only when it is switched on and names a model. */
  predicate JudgeActive(v: VariantConfig)
  {
    v.llmJudgeEnabled && Truthy(v.llmJudgeModel)
  }

  function JudgePrompt(prompt: string, response: string): string
  {
    "Score this response from 0 to 1.\nPrompt: " + prompt + "\nResponse: " + response
    + "\nReturn only a numeric score."
  }

  /** What the guarded backend calls leave behind for one item. */
  datatype Generation = Generation(outputText: string, error: Option<string>, judgeScore: Option<real>)

  /** The `try` around the backend: the output, then (when active) the
      judge's score; an exception keeps what was assigned before it and
      records its message. */
  function Generate(env: Environment, v: VariantConfig, item: DatasetItem, rendered: string): (g: Generation)
    ensures env.generate(v.modelName, rendered, v.temperature).Err? ==>
      g == Generation("", Some(env.generate(v.modelName, rendered, v.temperature).error), None)
    ensures env.generate(v.modelName, rendered, v.temperature).Ok? ==>
      g.outputText == env.generate(v.modelName, rendered, v.temperature).value
    ensures g.error.Some? ==> g.judgeScore.None?
    ensures g.judgeScore.Some? ==> JudgeActive(v) && 0.0 <= g.judgeScore.value <= 1.0
    ensures g.error.None? ==> (g.judgeScore.Some? <==> JudgeActive(v))
  {
    match env.generate(v.modelName, rendered, v.temperature)
    case Err(e) => Generation("", Some(e), None)
    case Ok(output) =>
      if JudgeActive(v) then
        match env.generate(v.llmJudgeModel.value, JudgePrompt(item.prompt, output), 0.0)
        case Err(e) => Generation(output, Some(e), None)
        case Ok(verdict) => Generation(output, None, Some(LlmJudgeFromText(verdict, env.parse)))
      else Generation(output, None, None)
  }

  /** `_schema_error_message`: the parse or validation message, if any. */
  function SchemaErrorMessage(schema: Schema, output: string, validate: SchemaValidator): (e: Option<string>)
    ensures e.None? <==> SchemaValidityScore(Some(schema), output, validate) == 1.0
  {
    match validate(schema, output)
    case Conforms => None
    case ParseError(m) => Some(m)
    case Violation(m) => Some(m)
  }

  /** `_estimate_tokens` without a tokenizer: a quarter of the length. */
  function EstimateTokens(text: string): (n: nat)
    ensures 4 * n <= |text| < 4 * n + 4
  {
    |text| / 4
  }

  /** The result recorded for the item at position `index`. */
  function ItemResultOf(env: Environment, v: VariantConfig, runId: string, item: DatasetItem, index: nat): ItemResult
  {
    var rendered := RenderPrompt(v, item);
    var g := Generate(env, v, item, rendered);
    ItemResult(
      runId, item.itemId, rendered, g.outputText, item.expectedAnswer, item.keywords, g.error,
      Some(env.itemLatencyMs(index)), Some(EstimateTokens(rendered)), Some(EstimateTokens(g.outputText)),
      if item.outputSchema.Some? then SchemaErrorMessage(item.outputSchema.value, g.outputText, env.validate) else None,
      KeywordMisses(item.keywords, g.outputText),
      ScoreItem(item, g.outputText, g.judgeScore, env.validate),
      item.tags)
  }

  /** The results of a run's items, one per item, in dataset order. */
  function ItemResultsOf(env: Environment, v: VariantConfig, runId: string, items: seq<DatasetItem>)
    : (rs: seq<ItemResult>)
    ensures |rs| == |items|
    ensures forall i :: 0 <= i < |items| ==> rs[i] == ItemResultOf(env, v, runId, items[i], i)
  {
    seq(|items|, i requires 0 <= i < |items| => ItemResultOf(env, v, runId, items[i], i))
  }

  /** What every recorded result says about its item: it belongs to the
      run and the item; a backend error leaves no judge score; the misses
      are exactly the keywords the coverage score did not find; a schema
      error is reported exactly when the schema score is 0; the estimates
      are a quarter of the texts' lengths. */
  lemma ItemResultFacts(env: Environment, v: VariantConfig, runId: string, item: DatasetItem, index: nat)
    ensures var r := ItemResultOf(env, v, runId, item, index);
      r.runId == runId && r.itemId == item.itemId && r.tags == item.tags && r.keywords == item.keywords
      && (r.error.Some? ==> r.scores.llmJudgeScore.None?)
      && (r.scores.llmJudgeScore.Some? ==> JudgeActive(v))
      && (r.scores.keywordCoverage == 1.0 <==> r.keywordMisses == [])
      && (forall k :: k in item.keywords ==> (k in r.keywordMisses <==> !Found(k, r.outputText)))
      && (item.outputSchema.Some? ==> (r.schemaError.None? <==> r.scores.schemaValid == 1.0))
      && (item.outputSchema.None? ==> r.schemaError.None? && r.scores.schemaValid == 1.0)
      && r.tokenInEst == Some(|r.prompt| / 4) && r.tokenOutEst == Some(|r.outputText| / 4)
  {
    var r := ItemResultOf(env, v, runId, item, index);
    CoverageFullIffNoMisses(item.keywords, r.outputText);
    KeywordMissesComplement(item.keywords, r.outputText);
  }

  /** A backend that fails on the item's prompt leaves an empty output and
      the exception's message, and the item is still scored. */
  lemma FailedBackendStillScored(env: Environment, v: VariantConfig, runId: string, item: DatasetItem, index: nat)
    requires env.generate(v.modelName, RenderPrompt(v, item), v.temperature).Err?
    ensures var r := ItemResultOf(env, v, runId, item, index);
      r.outputText == "" && r.error == Some(env.generate(v.modelName, RenderPrompt(v, item), v.temperature).error)
      && r.scores == ScoreItem(item, "", None, env.validate)
  {
  }

  /** The body of the item loop of `run`, for the item at `index`. */
  method RunItem(env: Environment, v: VariantConfig, runId: string, item: DatasetItem, index: nat)
    returns (result: ItemResult)
    ensures result == ItemResultOf(env, v, runId, item, index)
  {
    var rendered := Replace(v.promptTemplate, PromptSlot, item.prompt);
    if v.retrievalEnabled {
      rendered := BuildRetrievalContext(item) + ContextSeparator + rendered;
    }
    var outputText := "";
    var error: Option<string> := None;
    var judgeScore: Option<real> := None;
    var answer := env.generate(v.modelName, rendered, v.temperature);
    if answer.Err? {
      error := Some(answer.error);
    } else {
      outputText := answer.value;
      if v.llmJudgeEnabled && v.llmJudgeModel.Some? && v.llmJudgeModel.value != "" {
        var verdict := env.generate(v.llmJudgeModel.value, JudgePrompt(item.prompt, outputText), 0.0);
        if verdict.Err? {
          error := Some(verdict.error);
        } else {
          judgeScore := Some(LlmJudgeFromText(verdict.value, env.parse));
        }
      }
    }
    assert Generation(outputText, error, judgeScore) == Generate(env, v, item, rendered);
    var latencyMs := env.itemLatencyMs(index);
    var scores := ScoreItem(item, outputText, judgeScore, env.validate);
    var schemaError: Option<string> := None;
    if item.outputSchema.Some? {
      schemaError := SchemaErrorMessage(item.outputSchema.value, outputText, env.validate);
    }
    var misses := KeywordMisses(item.keywords, outputText);
    result := ItemResult(runId, item.itemId, rendered, outputText, item.expectedAnswer, item.keywords,
                         error, Some(latencyMs), Some(EstimateTokens(rendered)),
                         Some(EstimateTokens(outputText)), schemaError, misses, scores, item.tags);
  }

  /** The item loop of `run`: one result per item, in dataset order. */
  method RunItems(env: Environment, v: VariantConfig, runId: string, items: seq<DatasetItem>)
    returns (results: seq<ItemResult>)
    ensures results == ItemResultsOf(env, v, runId, items)
  {
    results := [];
    var i := 0;
    while i < |items|
      invariant 0 <= i <= |items|
      invariant |results| == i
      invariant forall j :: 0 <= j < i ==> results[j] == ItemResultOf(env, v, runId, items[j], j)
    {
      var result := RunItem(env, v, runId, items[i], i);
      results := results + [result];
      i := i + 1;
    }
  }

  // ---- After the loop ----

  /** `_load_baseline_metrics` over the runs table: no baseline id means no
      baseline; an id naming no run, or a run without metrics, is an error. */
  function LoadBaselineMetrics(runs: seq<RunRecord>, baselineRunId: Option<string>)
    : (r: Result<Option<AggregateMetrics>, string>)
    ensures baselineRunId.None? ==> r == Ok(None)
    ensures baselineRunId.Some? ==> r.Ok? ==> r.value.Some?
    ensures baselineRunId.Some? && UniqueRunIds(runs) ==>
      (r.Err? <==> forall i :: 0 <= i < |runs| && runs[i].runId == baselineRunId.value ==> runs[i].aggregateMetrics.None?)
    ensures r.Ok? && r.value.Some? ==>
      exists i :: 0 <= i < |runs| && runs[i].runId == baselineRunId.value && runs[i].aggregateMetrics == r.value
  {
    if baselineRunId.None? then Ok(None)
    else
      var baseline := FindRun(runs, baselineRunId.value);
      if baseline.None? || baseline.value.aggregateMetrics.None? then
        Err("Baseline run " + baselineRunId.value + " not found or has no metrics.")
      else Ok(baseline.value.aggregateMetrics)
  }

  /** `compute_metric_deltas`: candidate minus baseline for the three base
      metrics, and for the judge score when both runs have one. */
  function ComputeMetricDeltas(candidate: AggregateMetrics, baseline: AggregateMetrics): (d: Dict<string, real>)
    ensures DistinctKeys(d)
    ensures Get(d, "exact_match") == Some(candidate.exactMatch - baseline.exactMatch)
    ensures Get(d, "keyword_coverage") == Some(candidate.keywordCoverage - baseline.keywordCoverage)
    ensures Get(d, "schema_valid") == Some(candidate.schemaValid - baseline.schemaValid)
    ensures HasKey(d, "llm_judge_score") <==> candidate.llmJudgeScore.Some? && baseline.llmJudgeScore.Some?
    ensures HasKey(d, "llm_judge_score") ==>
      Get(d, "llm_judge_score") == Some(candidate.llmJudgeScore.value - baseline.llmJudgeScore.value)
    ensures |d| == if HasKey(d, "llm_judge_score") then 4 else 3
  {
    var base := [("exact_match", candidate.exactMatch - baseline.exactMatch),
                 ("keyword_coverage", candidate.keywordCoverage - baseline.keywordCoverage),
                 ("schema_valid", candidate.schemaValid - baseline.schemaValid)];
    var d := if candidate.llmJudgeScore.Some? && baseline.llmJudgeScore.Some? then
      base + [("llm_judge_score", candidate.llmJudgeScore.value - baseline.llmJudgeScore.value)]
    else base;
    assert d[0].0 == "exact_match" && d[1].0 == "keyword_coverage" && d[2].0 == "schema_valid";
    assert forall i :: 0 <= i < 3 ==> d[i].0 != "llm_judge_score";
    HasKeyIff(d, "llm_judge_score");
    assert candidate.llmJudgeScore.Some? && baseline.llmJudgeScore.Some? ==> |d| == 4 && d[3].0 == "llm_judge_score";
    assert HasKey(d, "llm_judge_score") <==> candidate.llmJudgeScore.Some? && baseline.llmJudgeScore.Some?;
    GetDistinct(d);
    d
  }

  /** Comparing a run with itself shows no change. */
  lemma NoDeltaAgainstItself(m: AggregateMetrics)
    ensures forall i :: 0 <= i < |ComputeMetricDeltas(m, m)| ==> ComputeMetricDeltas(m, m)[i].1 == 0.0
  {
  }

  // ---- Per-tag breakdown ----

  /** The key of a tag group: "name:value". */
  function TagKey(name: string, value: string): string
  {
    name + ":" + value
  }

  /** Distinct tags can share a key when a name or value holds ':'. */
  lemma TagKeysCollide()
    ensures ("a:b", "c") != ("a", "b:c") && TagKey("a:b", "c") == TagKey("a", "b:c")
  {
  }

  /** The (key, score) pairs one result contributes, in tag order. */
  function KeyedScoresOf(tags: Dict<string, string>, s: ItemScore): seq<(string, ItemScore)>
  {
    if tags == [] then []
    else KeyedScoresOf(tags[..|tags| - 1], s) + [(TagKey(tags[|tags| - 1].0, tags[|tags| - 1].1), s)]
  }

  /** Every (key, score) pair of the results, in result order. */
  function KeyedScores(results: seq<ItemResult>): seq<(string, ItemScore)>
  {
    if results == [] then []
    else KeyedScores(results[..|results| - 1]) + KeyedScoresOf(results[|results| - 1].tags, results[|results| - 1].scores)
  }

  /** A breakdown from a group's means: the three base metrics, and the
      judge score when there is one. */
  function BreakdownFrom(m: AggregateMetrics): Dict<string, real>
  {
    var base := [("exact_match", m.exactMatch), ("keyword_coverage", m.keywordCoverage), ("schema_valid", m.schemaValid)];
    if m.llmJudgeScore.Some? then Put(base, "llm_judge_score", m.llmJudgeScore.value) else base
  }

  /** The breakdown of one group, as `per_tag_breakdown` builds it: the same
      means `aggregate_scores` takes. */
  function BreakdownOf(scores: seq<ItemScore>): Dict<string, real>
    requires scores != []
  {
    BreakdownFrom(AggregateScores(scores).value)
  }

  /** A breakdown holds the mean of each score over the group, and the
      judge mean exactly when some score in the group has one. */
  lemma BreakdownOfSpec(scores: seq<ItemScore>)
    requires scores != []
    ensures var b := BreakdownOf(scores);
      DistinctKeys(b)
      && Get(b, "exact_match") == Some(Mean(ExactMatches(scores)))
      && Get(b, "keyword_coverage") == Some(Mean(KeywordCoverages(scores)))
      && Get(b, "schema_valid") == Some(Mean(SchemaValids(scores)))
      && (HasKey(b, "llm_judge_score") <==> exists i :: 0 <= i < |scores| && scores[i].llmJudgeScore.Some?)
      && (HasKey(b, "llm_judge_score") ==> Get(b, "llm_judge_score") == Some(Mean(JudgeValues(scores))))
  {
    var m := AggregateScores(scores).value;
    BreakdownFromSpec(m);
  }

  lemma BreakdownFromSpec(m: AggregateMetrics)
    ensures var b := BreakdownFrom(m);
      DistinctKeys(b)
      && Get(b, "exact_match") == Some(m.exactMatch)
      && Get(b, "keyword_coverage") == Some(m.keywordCoverage)
      && Get(b, "schema_valid") == Some(m.schemaValid)
      && (HasKey(b, "llm_judge_score") <==> m.llmJudgeScore.Some?)
      && Get(b, "llm_judge_score") == m.llmJudgeScore
  {
    var e0, e1, e2 := ("exact_match", m.exactMatch), ("keyword_coverage", m.keywordCoverage), ("schema_valid", m.schemaValid);
    var base := [e0, e1, e2];
    var judge := "llm_judge_score";
    GetOfThree(e0, e1, e2, e0.0);
    GetOfThree(e0, e1, e2, e1.0);
    GetOfThree(e0, e1, e2, e2.0);
    GetOfThree(e0, e1, e2, judge);
    if m.llmJudgeScore.Some? {
      var v := m.llmJudgeScore.value;
      PutGet(base, judge, v, e0.0);
      PutGet(base, judge, v, e1.0);
      PutGet(base, judge, v, e2.0);
      PutGet(base, judge, v, judge);
    }
  }

  /** The groups of scores by tag key, in first-seen order. */
  function ScoreGroups(results: seq<ItemResult>): (g: Dict<string, seq<ItemScore>>)
    ensures forall i :: 0 <= i < |g| ==> g[i].1 != []
  {
    GroupPairsNonEmpty(KeyedScores(results));
    GroupPairs(KeyedScores(results))
  }

  /** What `per_tag_breakdown` returns. */
  function PerTagBreakdownOf(results: seq<ItemResult>): Dict<string, Dict<string, real>>
  {
    BreakdownsOf(ScoreGroups(results))
  }

  /** Replacing each group by its breakdown keeps the keys, their order
      and their lookups. */
  lemma {:induction false} BreakdownsOfGet(g: Dict<string, seq<ItemScore>>, key: string)
    ensures |BreakdownsOf(g)| == |g| && forall i :: 0 <= i < |g| ==> BreakdownsOf(g)[i].0 == g[i].0
    ensures Get(BreakdownsOf(g), key) == if HasKey(g, key) then Some(GroupBreakdown(Get(g, key).value)) else None
    decreases |g|
  {
    BreakdownsOfKeys(g);
    if g != [] {
      var init := g[..|g| - 1];
      BreakdownsOfGet(init, key);
      BreakdownsOfKeys(init);
      GetInitLast(g, key);
      GetInitLast(BreakdownsOf(g), key);
      assert BreakdownsOf(g)[..|g| - 1] == BreakdownsOf(init);
      SameKeysIndexOf(init, BreakdownsOf(init), key);
    }
  }

  /** Replacing each group by its breakdown keeps the keys in order. */
  lemma BreakdownsOfKeys(g: Dict<string, seq<ItemScore>>)
    ensures |BreakdownsOf(g)| == |g| && forall i :: 0 <= i < |g| ==> BreakdownsOf(g)[i].0 == g[i].0
  {
    forall i | 0 <= i < |g|
      ensures i < |BreakdownsOf(g)| && BreakdownsOf(g)[i].0 == g[i].0
    {
      BreakdownsOfAt(g, i);
    }
    BreakdownsOfAt(g, |g|);
  }

  /** The breakdown list has one entry per group, the i-th from the i-th. */
  lemma {:induction false} BreakdownsOfAt(g: Dict<string, seq<ItemScore>>, i: nat)
    requires i <= |g|
    ensures |BreakdownsOf(g)| == |g|
    ensures i < |g| ==> BreakdownsOf(g)[i].0 == g[i].0
    decreases |g|
  {
    if g != [] {
      var init := g[..|g| - 1];
      if i < |g| - 1 {
        BreakdownsOfAt(init, i);
        assert g[i] == init[i];
      } else {
        BreakdownsOfAt(init, 0);
      }
    }
  }

  /** A key appears exactly when some result carries a tag rendering to
      it, and its breakdown is over all the scores filed under it. */
  lemma BreakdownForKey(results: seq<ItemResult>, key: string)
    ensures DistinctKeys(PerTagBreakdownOf(results))
    ensures HasKey(PerTagBreakdownOf(results), key) <==> ValuesFor(KeyedScores(results), key) != []
    ensures ValuesFor(KeyedScores(results), key) != [] ==>
      Get(PerTagBreakdownOf(results), key) == Some(BreakdownOf(ValuesFor(KeyedScores(results), key)))
  {
    var pairs := KeyedScores(results);
    GroupPairsSpec(pairs, key);
    var g := ScoreGroups(results);
    BreakdownsOfGet(g, key);
    SameKeysIndexOf(g, BreakdownsOf(g), key);
  }

  /** `per_tag_breakdown`: group in a loop over results and tags, then one
      breakdown per group. */
  method PerTagBreakdown(results: seq<ItemResult>) returns (output: Dict<string, Dict<string, real>>)
    ensures output == PerTagBreakdownOf(results)
  {
    var grouped: Dict<string, seq<ItemScore>> := [];
    var i := 0;
    while i < |results|
      invariant 0 <= i <= |results|
      invariant grouped == GroupPairs(KeyedScores(results[..i]))
    {
      grouped := FileScores(grouped, KeyedScores(results[..i]), results[i]);
      assert results[..i + 1][..i] == results[..i];
      i := i + 1;
    }
    assert results[..i] == results;
    GroupPairsNonEmpty(KeyedScores(results));
    output := Breakdowns(grouped);
  }

  /** The breakdown of a group. A group is never empty (see `ScoreGroups`);
      an empty one would get an empty breakdown. */
  function GroupBreakdown(scores: seq<ItemScore>): Dict<string, real>
  {
    if scores == [] then [] else BreakdownOf(scores)
  }

  /** One entry of the breakdown. */
  function BreakdownEntry(group: (string, seq<ItemScore>)): (string, Dict<string, real>)
  {
    (group.0, GroupBreakdown(group.1))
  }

  function BreakdownsOf(grouped: Dict<string, seq<ItemScore>>): Dict<string, Dict<string, real>>
  {
    if grouped == [] then []
    else BreakdownsOf(grouped[..|grouped| - 1]) + [BreakdownEntry(grouped[|grouped| - 1])]
  }

  /** The second loop of `per_tag_breakdown`: one breakdown per group. */
  method Breakdowns(grouped: Dict<string, seq<ItemScore>>)
    returns (output: Dict<string, Dict<string, real>>)
    ensures output == BreakdownsOf(grouped)
  {
    output := [];
    var k := 0;
    while k < |grouped|
      invariant 0 <= k <= |grouped|
      invariant output == BreakdownsOf(grouped[..k])
    {
      output := output + [BreakdownEntry(grouped[k])];
      assert grouped[..k + 1][..k] == grouped[..k];
      k := k + 1;
    }
    assert grouped[..k] == grouped;
  }

  /** The inner loop: files the result's scores under each of its tag keys. */
  method FileScores(grouped0: Dict<string, seq<ItemScore>>, ghost seen: seq<(string, ItemScore)>, result: ItemResult)
    returns (grouped: Dict<string, seq<ItemScore>>)
    requires grouped0 == GroupPairs(seen)
    ensures grouped == GroupPairs(seen + KeyedScoresOf(result.tags, result.scores))
  {
    grouped := grouped0;
    var j := 0;
    assert seen + KeyedScoresOf(result.tags[..0], result.scores) == seen;
    while j < |result.tags|
      invariant 0 <= j <= |result.tags|
      invariant grouped == GroupPairs(seen + KeyedScoresOf(result.tags[..j], result.scores))
    {
      var (name, value) := result.tags[j];
      ghost var before := seen + KeyedScoresOf(result.tags[..j], result.scores);
      grouped := GroupAppend(grouped, TagKey(name, value), result.scores);
      assert result.tags[..j + 1][..j] == result.tags[..j];
      var after := before + [(TagKey(name, value), result.scores)];
      assert after[..|before|] == before && after[|after| - 1] == (TagKey(name, value), result.scores);
      assert seen + KeyedScoresOf(result.tags[..j + 1], result.scores) == after;
      j := j + 1;
    }
    assert result.tags[..j] == result.tags;
  }

  // ---- After the loop: metrics, gates, tags, trends, drift ----

  /** The first two steps after the loop that can fail: the aggregate
      (none for a dataset without items) and the baseline's metrics. */
  function ScoredStage(runs: seq<RunRecord>, gates: GateConfig, results: seq<ItemResult>)
    : (r: Result<(AggregateMetrics, Option<AggregateMetrics>), string>)
    ensures results == [] ==> r.Err?
    ensures r.Ok? ==> r.value.0.sampleCount == |results|
    ensures r.Ok? && gates.baselineRunId.None? ==> r.value.1.None?
  {
    match AggregateScores(ScoresOf(results))
    case Err(e) => Err(e)
    case Ok(aggregate) =>
      match LoadBaselineMetrics(runs, gates.baselineRunId)
      case Err(e) => Err(e)
      case Ok(baseline) => Ok((aggregate, baseline))
  }

  /** What a run computes once its items are scored. */
  datatype Completion = Completion(
    aggregate: AggregateMetrics,
    baseline: Option<AggregateMetrics>,
    gate: GateDecision,
    trends: Trends,
    alerts: seq<DriftAlert>,
    release: ReleaseStatus)

  /** The analysis after the loop, over the runs table as it stands once the
      run is created: the metrics, the gate decision against the baseline,
      the trends over the dataset's history followed by this run, the drift
      alerts, and the release status; or the error that fails the run. */
  function CompletionOf(runs: seq<RunRecord>, config: EvalRunConfig, record: RunRecord, results: seq<ItemResult>)
    : (r: Result<Completion, string>)
    ensures results == [] ==> r.Err?
    ensures ScoredStage(runs, config.gates, results).Err? ==> r.Err?
    ensures r.Ok? ==> r.value.aggregate.sampleCount == |results|
    ensures r.Ok? ==> (r.value.release == Blocked <==> r.value.gate.status.Fail?)
    ensures r.Ok? ==> (r.value.release == Approved <==> r.value.gate.status.Pass? && r.value.alerts == [])
    ensures r.Ok? && config.gates.baselineRunId.None? ==>
      r.value.baseline.None? && r.value.alerts == VolatilityAlerts(r.value.trends.volatility)
  {
    match ScoredStage(runs, config.gates, results)
    case Err(e) => Err(e)
    case Ok((aggregate, baseline)) =>
      var gate := GateDecisionOf(aggregate, config.gates, baseline);
      var history := DatasetHistory(runs, config.variant.datasetName, config.variant.datasetVersion);
      var trends := TrendsOf(history + [record.(aggregateMetrics := Some(aggregate))]);
      match DriftAlertsOf(baseline, aggregate, trends.volatility, config.gates.maxDropFromBaseline)
      case Err(e) => Err(e)
      case Ok(alerts) => Ok(Completion(aggregate, baseline, gate, trends, alerts, ComputeReleaseStatus(gate, alerts)))
  }

  /** The persisted form of each alert, stamped with the run and the time. */
  function DriftRecords(runId: string, v: VariantConfig, now: int, alerts: seq<DriftAlert>)
    : (rs: seq<DriftAlertRecord>)
    ensures |rs| == |alerts|
    ensures forall i :: 0 <= i < |rs| ==>
      rs[i].runId == runId && rs[i].datasetName == v.datasetName && rs[i].datasetVersion == v.datasetVersion
      && rs[i].scope == alerts[i].scope && rs[i].metric == Some(alerts[i].metric)
      && rs[i].severity == alerts[i].severity && rs[i].delta == alerts[i].delta
      && rs[i].threshold == alerts[i].threshold && rs[i].message == alerts[i].message && rs[i].createdAt == now
  {
    seq(|alerts|, i requires 0 <= i < |alerts| =>
      DriftAlertRecord(runId, v.datasetName, v.datasetVersion, alerts[i].scope, Some(alerts[i].metric),
                       alerts[i].severity, alerts[i].delta, alerts[i].threshold, alerts[i].message, now))
  }

  /** The latencies that were measured, in item order. */
  function Latencies(results: seq<ItemResult>): (xs: seq<real>)
    ensures |xs| <= |results|
  {
    if results == [] then []
    else
      var last := results[|results| - 1];
      Latencies(results[..|results| - 1]) + (if last.latencyMs.Some? then [last.latencyMs.value] else [])
  }

  /** When every row has its latency, the latencies are the rows' own. */
  lemma {:induction false} LatenciesAllPresent(results: seq<ItemResult>)
    requires forall i :: 0 <= i < |results| ==> results[i].latencyMs.Some?
    ensures Latencies(results) == seq(|results|, i requires 0 <= i < |results| => results[i].latencyMs.value)
    decreases |results|
  {
    if results != [] {
      var init := results[..|results| - 1];
      LatenciesAllPresent(init);
    }
  }

  /** Every item of a run has its latency measured, whatever the backend
      did, in item order. */
  lemma LatencyForEveryItem(env: Environment, v: VariantConfig, runId: string, items: seq<DatasetItem>)
    ensures Latencies(ItemResultsOf(env, v, runId, items))
            == seq(|items|, i requires 0 <= i < |items| => env.itemLatencyMs(i))
  {
    var rs := ItemResultsOf(env, v, runId, items);
    forall i | 0 <= i < |rs|
      ensures rs[i].latencyMs == Some(env.itemLatencyMs(i))
    {
      assert rs[i] == ItemResultOf(env, v, runId, items[i], i);
    }
    LatenciesAllPresent(rs);
  }

  /** `sum(row.token_in_est or 0 ...)` for one of the two estimates. */
  function TokenTotal(results: seq<ItemResult>, input: bool): int
  {
    if results == [] then 0
    else
      var last := results[|results| - 1];
      TokenTotal(results[..|results| - 1], input) + (if input then last.tokenInEst else last.tokenOutEst).GetOr(0)
  }

  /** The token totals of a run are the sums of a quarter of the lengths of
      its prompts and of its outputs, so never negative. */
  lemma {:induction false} TokenTotalsOfItems(env: Environment, v: VariantConfig, runId: string, items: seq<DatasetItem>,
                                              input: bool)
    ensures var rs := ItemResultsOf(env, v, runId, items);
      TokenTotal(rs, input) >= 0
      && 4 * TokenTotal(rs, input) <= TextLength(rs, input)
    decreases |items|
  {
    if items != [] {
      var init := items[..|items| - 1];
      var rs := ItemResultsOf(env, v, runId, items);
      assert rs[..|rs| - 1] == ItemResultsOf(env, v, runId, init);
      TokenTotalsOfItems(env, v, runId, init, input);
    }
  }

  /** The total length of the prompts sent, or of the outputs received. */
  function TextLength(results: seq<ItemResult>, input: bool): nat
  {
    if results == [] then 0
    else
      var last := results[|results| - 1];
      TextLength(results[..|results| - 1], input) + |if input then last.prompt else last.outputText|
  }

  /** `sum(1 for result in results if result.error)` */
  function ErrorCount(results: seq<ItemResult>): (n: nat)
    ensures n <= |results|
    ensures n == 0 <==> forall i :: 0 <= i < |results| ==> !Truthy(results[i].error)
  {
    if results == [] then 0
    else
      var init := results[..|results| - 1];
      assert forall i :: 0 <= i < |init| ==> init[i] == results[i];
      ErrorCount(init) + (if Truthy(results[|results| - 1].error) then 1 else 0)
  }

  /** An alert as stored in the run's metadata: threshold alerts carry
      their delta and threshold, volatility alerts do not. */
  function AlertJson(render: AlertMessage -> string, a: DriftAlert): (j: Json)
    ensures j.JObject? && DistinctKeys(j.fields)
    ensures HasKey(j.fields, "delta") <==> a.delta.Some?
    ensures HasKey(j.fields, "threshold") <==> a.threshold.Some?
    ensures Get(j.fields, "severity") == Some(JStr(SeverityName(a.severity)))
  {
    var head := [("scope", JStr(a.scope)), ("metric", JStr(a.metric)), ("severity", JStr(SeverityName(a.severity)))];
    var numbers := (if a.delta.Some? then [("delta", JReal(a.delta.value))] else [])
                   + (if a.threshold.Some? then [("threshold", JReal(a.threshold.value))] else []);
    var fields := head + numbers + [("message", JStr(render(a.message)))];
    assert fields[2].0 == "severity";
    assert forall i :: 0 <= i < |fields| && i != 3 && i != 4 ==> fields[i].0 != "delta" && fields[i].0 != "threshold";
    assert a.delta.Some? ==> fields[3].0 == "delta";
    assert a.threshold.Some? ==> fields[|fields| - 2].0 == "threshold";
    HasKeyIff(fields, "delta");
    HasKeyIff(fields, "threshold");
    GetDistinct(fields);
    JObject(fields)
  }

  function RealsJson(xs: seq<real>): (j: Json)
    ensures j.JList? && |j.items| == |xs|
  {
    JList(seq(|xs|, i requires 0 <= i < |xs| => JReal(xs[i])))
  }

  /** The run's metadata: the number of items with an error, the drift
      alerts, the per-metric series and their volatility. */
  function MetadataOf(env: Environment, results: seq<ItemResult>, c: Completion): (m: Dict<string, Json>)
    ensures DistinctKeys(m)
    ensures Get(m, "errors") == Some(JInt(ErrorCount(results)))
    ensures Get(m, "drift_alerts").Some? && Get(m, "drift_alerts").value.JList?
    ensures |Get(m, "drift_alerts").value.items| == |c.alerts|
  {
    var series := seq(|c.trends.series|, i requires 0 <= i < |c.trends.series| =>
                        (c.trends.series[i].0, RealsJson(c.trends.series[i].1)));
    var volatility := seq(|c.trends.volatility|, i requires 0 <= i < |c.trends.volatility| =>
                            (c.trends.volatility[i].0, JReal(c.trends.volatility[i].1)));
    var m := [("errors", JInt(ErrorCount(results))),
              ("drift_alerts", JList(seq(|c.alerts|, i requires 0 <= i < |c.alerts| => AlertJson(env.render, c.alerts[i])))),
              ("trends", JObject(series)),
              ("volatility", JObject(volatility))];
    assert m[0].0 == "errors" && m[1].0 == "drift_alerts";
    GetDistinct(m);
    m
  }

  /** The fields of the `completed` update. */
  function UpdateOf(env: Environment, results: seq<ItemResult>, c: Completion): (u: RunUpdate)
    ensures u.aggregateMetrics == Some(c.aggregate) && u.gateDecision == Some(c.gate)
    ensures u.releaseStatus == Some(c.release) && u.costEstUsd == Some(0.0)
    ensures u.avgLatencyMs.Some? <==> Latencies(results) != []
    ensures u.avgLatencyMs.Some? ==> u.avgLatencyMs.value == Mean(Latencies(results))
    ensures u.p95LatencyMs.Some? <==> Latencies(results) != []
    ensures u.p95LatencyMs.Some? ==> u.p95LatencyMs.value in Latencies(results)
    ensures u.metadata == Some(MetadataOf(env, results, c))
  {
    var latencies := Latencies(results);
    RunUpdate(Some(c.aggregate), Some(c.gate), Some(MetadataOf(env, results, c)), Some(c.release),
              Some(env.durationMs),
              if latencies != [] then Some(Mean(latencies)) else None,
              if latencies != [] then P95(latencies) else None,
              Some(TokenTotal(results, true)), Some(TokenTotal(results, false)), Some(0.0))
  }

  /** A run over at least one item reports a mean and a p95 latency, and
      the p95 is one of the measured latencies. */
  lemma LatencySummaryOfRun(env: Environment, v: VariantConfig, runId: string, items: seq<DatasetItem>, c: Completion)
    requires items != []
    ensures var u := UpdateOf(env, ItemResultsOf(env, v, runId, items), c);
      u.avgLatencyMs.Some? && u.p95LatencyMs.Some?
      && exists i :: 0 <= i < |items| && u.p95LatencyMs.value == env.itemLatencyMs(i)
  {
    var rs := ItemResultsOf(env, v, runId, items);
    LatencyForEveryItem(env, v, runId, items);
    var u := UpdateOf(env, rs, c);
    MeasuredAt(Latencies(rs), env.itemLatencyMs, |items|);
  }

  /** The values measured for `n` items are not empty when `n` is not, and
      each is the measurement of some item. */
  lemma MeasuredAt(xs: seq<real>, f: nat -> real, n: nat)
    requires xs == seq(n, i requires 0 <= i < n => f(i))
    ensures n > 0 ==> xs != []
    ensures forall p :: p in xs ==> exists i :: 0 <= i < n && p == f(i)
  {
    if n > 0 {
      assert xs[0] == f(0);
    }
    forall p | p in xs
      ensures exists i :: 0 <= i < n && p == f(i)
    {
      var k :| 0 <= k < |xs| && xs[k] == p;
      assert p == f(k);
    }
  }

  // ---- The run record ----

  /** The id of a run: its key and version. */
  function RunIdOf(runKey: string, runVersion: int): string
  {
    runKey + "-v" + IntToString(runVersion)
  }

  /** Two versions of the same key never share an id. */
  lemma RunIdsDistinct(runKey: string, a: nat, b: nat)
    requires a != b
    ensures RunIdOf(runKey, a) != RunIdOf(runKey, b)
  {
    if RunIdOf(runKey, a) == RunIdOf(runKey, b) {
      var n := |runKey| + 2;
      assert RunIdOf(runKey, a)[n..] == NatToString(a);
      assert RunIdOf(runKey, b)[n..] == NatToString(b);
      NatToStringInjective(a, b);
    }
  }

  /** The record `run` creates before the loop: identity, configuration and
      fingerprints filled in, `running`, every result field at its default. */
  function PlannedRecord(env: Environment, v: VariantConfig, checksum: string, runVersion: int): RunRecord
  {
    var runKey := BuildRunKey(env.hashing, v);
    var f := BuildFingerprints(env.hashing, v, checksum);
    RunRecord(RunIdOf(runKey, runVersion), runKey, runVersion, v.name, v.datasetName, v.datasetVersion,
              v.modelName, v.promptVersion, v.retrievalEnabled, v.llmJudgeEnabled, v.seed, v.temperature,
              f.datasetFingerprint, f.promptFingerprint, f.configFingerprint, f.experimentSignature,
              Blocked, Running, None, None, None, 0, 0, 0.0, env.now, None, None, None, [])
  }

  /** The record `run` creates for a registered dataset, numbered after
      the runs already stored. */
  function PlannedRun(env: Environment, v: VariantConfig, dataset: DatasetRecord, runs: seq<RunRecord>): RunRecord
  {
    PlannedRecord(env, v, dataset.checksum, NextVersionIn(runs, BuildRunKey(env.hashing, v)))
  }

  /** The results `run` computes for the dataset's items. */
  function PlannedResults(env: Environment, v: VariantConfig, dataset: DatasetRecord, runs: seq<RunRecord>)
    : seq<ItemResult>
  {
    ItemResultsOf(env, v, PlannedRun(env, v, dataset, runs).runId, env.loadItems(dataset.path))
  }

  /** The analysis `run` completes those results with, or its error. */
  function PlannedCompletion(env: Environment, config: EvalRunConfig, dataset: DatasetRecord, runs: seq<RunRecord>)
    : Result<Completion, string>
  {
    var record := PlannedRun(env, config.variant, dataset, runs);
    CompletionOf(runs + [record], config, record, PlannedResults(env, config.variant, dataset, runs))
  }

  /** The record left after the run: completed with the analysis, or
      failed with every result field still at its default. */
  function FinalRecord(env: Environment, record: RunRecord, results: seq<ItemResult>, c: Result<Completion, string>)
    : (r: RunRecord)
    ensures r.runId == record.runId && r.runVersion == record.runVersion && r.startedAt == record.startedAt
    ensures r.modelName == record.modelName && r.seed == record.seed && r.temperature == record.temperature
    ensures r.completedAt == Some(env.now)
    ensures r.status == (if c.Ok? then Completed else Failed)
    ensures c.Ok? ==> r.aggregateMetrics == Some(c.value.aggregate) && r.gateDecision == Some(c.value.gate)
                      && r.releaseStatus == c.value.release
    ensures c.Err? ==> r == record.(status := Failed, completedAt := Some(env.now))
  {
    UpdateKeepsIdentity(record, if c.Ok? then Completed else Failed,
                        if c.Ok? then UpdateOf(env, results, c.value) else NoUpdate, env.now);
    if c.Ok? then ApplyUpdate(record, Completed, UpdateOf(env, results, c.value), env.now)
    else ApplyUpdate(record, Failed, NoUpdate, env.now)
  }

  /** The record `run` leaves for a registered dataset: it keeps the
      variant's model, seed and temperature. */
  function PlannedFinal(env: Environment, config: EvalRunConfig, dataset: DatasetRecord, runs: seq<RunRecord>)
    : (r: RunRecord)
    ensures r.runId == PlannedRun(env, config.variant, dataset, runs).runId
    ensures r.modelName == config.variant.modelName && r.seed == config.variant.seed
            && r.temperature == config.variant.temperature
  {
    FinalRecord(env, PlannedRun(env, config.variant, dataset, runs),
                PlannedResults(env, config.variant, dataset, runs), PlannedCompletion(env, config, dataset, runs))
  }

  /** A dataset without items always ends in a failed run. */
  lemma EmptyDatasetFails(runs: seq<RunRecord>, config: EvalRunConfig, env: Environment, record: RunRecord)
    ensures var results := ItemResultsOf(env, config.variant, record.runId, []);
      CompletionOf(runs, config, record, results).Err?
      && FinalRecord(env, record, results, CompletionOf(runs, config, record, results)).status == Failed
  {
  }

  /** Runs evaluations against the repository. */
  class ExperimentRunner {
    const repository: EvalRepository

    constructor(repository: EvalRepository)
      ensures this.repository == repository
    {
      this.repository := repository;
    }

    /** The `try` block of `run` up to its final write: the item loop, the
        item rows, the tag metrics and the drift alerts, each written as
        soon as it is computed; an error stops it where it occurs. */
    method Execute(config: EvalRunConfig, env: Environment, record: RunRecord, items: seq<DatasetItem>)
      returns (r: Result<RunUpdate, string>)
      requires repository.Valid()
      modifies repository
      ensures repository.Valid()
      ensures repository.datasets == old(repository.datasets) && repository.runs == old(repository.runs)
      ensures repository.itemRows
              == old(repository.itemRows) + ToRows(ItemResultsOf(env, config.variant, record.runId, items))
      ensures var results := ItemResultsOf(env, config.variant, record.runId, items);
              var c := CompletionOf(old(repository.runs), config, record, results);
        (r.Ok? <==> c.Ok?) && (c.Ok? ==> r.value == UpdateOf(env, results, c.value))
        && (c.Err? ==> r.error == c.error)
      ensures var results := ItemResultsOf(env, config.variant, record.runId, items);
        repository.tagMetrics ==
          if ScoredStage(old(repository.runs), config.gates, results).Ok?
          then Select(old(repository.tagMetrics), TagMetricOfOtherRun(record.runId)) + TagMetricsOf(record.runId, results)
          else old(repository.tagMetrics)
      ensures var results := ItemResultsOf(env, config.variant, record.runId, items);
              var c := CompletionOf(old(repository.runs), config, record, results);
        repository.driftAlerts ==
          if c.Ok?
          then Select(old(repository.driftAlerts), AlertOfOtherRun(record.runId))
               + DriftRecords(record.runId, config.variant, env.now, c.value.alerts)
          else old(repository.driftAlerts)
    {
      var v := config.variant;
      var runId := record.runId;
      var results := RunItems(env, v, runId, items);
      repository.InsertItemResults(results);
      var aggregate := AggregateScores(ScoresOf(results));
      if aggregate.Err? {
        return Err(aggregate.error);
      }
      var baseline := LoadBaselineMetrics(repository.runs, config.gates.baselineRunId);
      if baseline.Err? {
        return Err(baseline.error);
      }
      var gate := EvaluateGates(aggregate.value, config.gates, baseline.value);
      var tagMetrics := BuildTagMetrics(runId, results);
      repository.ReplaceTagMetrics(runId, tagMetrics);
      var history := repository.ListRunsByDataset(v.datasetName, v.datasetVersion);
      var trends := SummarizeTrends(history + [record.(aggregateMetrics := Some(aggregate.value))]);
      var alerts := BuildDriftAlerts(baseline.value, aggregate.value, trends.volatility, config.gates.maxDropFromBaseline);
      if alerts.Err? {
        return Err(alerts.error);
      }
      var records := DriftRecords(runId, v, env.now, alerts.value);
      repository.ReplaceDriftAlerts(runId, records);
      var release := ComputeReleaseStatus(gate, alerts.value);
      var c := Completion(aggregate.value, baseline.value, gate, trends, alerts.value, release);
      r := Ok(UpdateOf(env, results, c));
    }

    /** `run`: an unregistered dataset is refused before anything is
        written; otherwise the run is created `running`, executed, and
        marked `completed` with its results or `failed` with the error. */
    method Run(config: EvalRunConfig, env: Environment) returns (r: Result<RunRecord, string>)
      requires repository.Valid()
      modifies repository
      ensures repository.Valid()
      ensures repository.datasets == old(repository.datasets)
      ensures var v := config.variant;
        old(FindDataset(repository.datasets, v.datasetName, v.datasetVersion)).None? ==>
          r == Err("Dataset " + v.datasetName + ":" + v.datasetVersion + " not registered.")
          && repository.runs == old(repository.runs) && repository.itemRows == old(repository.itemRows)
          && repository.tagMetrics == old(repository.tagMetrics) && repository.driftAlerts == old(repository.driftAlerts)
      ensures var v := config.variant;
              var dataset := old(FindDataset(repository.datasets, v.datasetName, v.datasetVersion));
        dataset.Some? && FindRun(old(repository.runs), PlannedRun(env, v, dataset.value, old(repository.runs)).runId).Some? ==>
          r.Err? && repository.runs == old(repository.runs) && repository.itemRows == old(repository.itemRows)
      ensures var v := config.variant;
              var dataset := old(FindDataset(repository.datasets, v.datasetName, v.datasetVersion));
        dataset.Some? && FindRun(old(repository.runs), PlannedRun(env, v, dataset.value, old(repository.runs)).runId).None? ==>
          var c := PlannedCompletion(env, config, dataset.value, old(repository.runs));
          var final := PlannedFinal(env, config, dataset.value, old(repository.runs));
          repository.runs == old(repository.runs) + [final]
          && repository.itemRows == old(repository.itemRows) + ToRows(PlannedResults(env, v, dataset.value, old(repository.runs)))
          && r == (if c.Ok? then Ok(final) else Err(c.error))
      ensures r.Ok? ==> repository.GetRun(r.value.runId) == Some(r.value)
      ensures r.Ok? ==> repository.runs == old(repository.runs) + [r.value]
                        && FindRun(old(repository.runs), r.value.runId).None?
    {
      var v := config.variant;
      var dataset := repository.GetDataset(v.datasetName, v.datasetVersion);
      if dataset.None? {
        return Err("Dataset " + v.datasetName + ":" + v.datasetVersion + " not registered.");
      }
      var items := env.loadItems(dataset.value.path);
      var runKey := BuildRunKey(env.hashing, v);
      var runVersion := repository.NextRunVersion(runKey);
      var record := PlannedRecord(env, v, dataset.value.checksum, runVersion);
      var runId := record.runId;
      ghost var before := repository.runs;
      var created := repository.CreateRun(record);
      if !created {
        return Err("Run " + runId + " already exists.");
      }
      r := Complete(config, env, record, items, before);
    }

    /** `run` once its record is created: execute, then mark the run
        `completed` with the update or `failed`, and re-read it. */
    method Complete(config: EvalRunConfig, env: Environment, record: RunRecord, items: seq<DatasetItem>,
                    ghost before: seq<RunRecord>)
      returns (r: Result<RunRecord, string>)
      requires repository.Valid()
      requires repository.runs == before + [record] && FindRun(before, record.runId).None?
      modifies repository
      ensures repository.Valid()
      ensures repository.datasets == old(repository.datasets)
      ensures var results := ItemResultsOf(env, config.variant, record.runId, items);
              var c := CompletionOf(before + [record], config, record, results);
              var final := FinalRecord(env, record, results, c);
        repository.runs == before + [final]
        && repository.itemRows == old(repository.itemRows) + ToRows(results)
        && r == (if c.Ok? then Ok(final) else Err(c.error))
      ensures r.Ok? ==> repository.GetRun(r.value.runId) == Some(r.value)
    {
      var runId := record.runId;
      var outcome := Execute(config, env, record, items);
      ghost var results := ItemResultsOf(env, config.variant, runId, items);
      ghost var c := CompletionOf(before + [record], config, record, results);
      var status := if outcome.Ok? then Completed else Failed;
      var u := if outcome.Ok? then outcome.value else NoUpdate;
      repository.UpdateRunStatus(runId, status, u, env.now);
      UpdateAppended(before, record, status, u, env.now);
      assert repository.runs == before + [FinalRecord(env, record, results, c)];
      if outcome.Err? {
        return Err(outcome.error);
      }
      FindRunAppended(before, FinalRecord(env, record, results, c));
      r := Ok(repository.GetRun(runId).value);
    }
  }
}
