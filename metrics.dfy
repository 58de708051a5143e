/** Per-item scoring and mean aggregation (scoring/metrics.py). The JSON
    parser with its schema validator, and Python's `float()` parse of the
    judge's text, are passed in as functions. */
module Metrics {
  import opened Outcomes
  import opened Text
  import opened Stats
  import opened Models

  /** What parsing an output and validating it against a schema yields. */
  datatype SchemaCheck = Conforms | ParseError(message: string) | Violation(message: string)

  /** `json.loads` followed by `jsonschema.validate`. */
  type SchemaValidator = (Schema, string) -> SchemaCheck

  /** Python's `float(s)` on an already stripped string, when it succeeds. */
  type FloatParser = string -> Option<real>

  /** `s.strip().lower()` */
  function Normalize(s: string): string
  {
    Lower(Strip(s))
  }

  /** 1.0 when the expected answer matches the output up to surrounding
      whitespace and case; 0.0 otherwise and when no answer is expected. */
  function ExactMatchScore(expected: Option<string>, output: string): (r: real)
    ensures r == 0.0 || r == 1.0
    ensures r == 1.0 <==> expected.Some? && Normalize(expected.value) == Normalize(output)
  {
    if expected.None? then 0.0
    else if Normalize(expected.value) == Normalize(output) then 1.0
    else 0.0
  }

  /** Lower-casing the output beforehand changes nothing. */
  lemma ExactMatchIgnoresCase(expected: Option<string>, output: string)
    ensures ExactMatchScore(expected, Lower(output)) == ExactMatchScore(expected, output)
  {
    calc {
      Normalize(Lower(output));
      Lower(Strip(Lower(output)));
      { StripLower(output); }
      Lower(Lower(Strip(output)));
      { LowerIdempotent(Strip(output)); }
      Normalize(output);
    }
  }

  /** Stripping the output beforehand changes nothing. */
  lemma ExactMatchIgnoresSurroundingSpace(expected: Option<string>, output: string)
    ensures ExactMatchScore(expected, Strip(output)) == ExactMatchScore(expected, output)
  {
    StripIdempotent(output);
  }

  lemma StripIdempotent(s: string)
    ensures Strip(Strip(s)) == Strip(s)
  {
    var t := Strip(s);
    assert TrimLeft(t) == t;
    assert TrimRight(t) == t;
  }

  /** `keyword.lower() in output.lower()` */
  predicate Found(keyword: string, output: string)
  {
    Contains(Lower(output), Lower(keyword))
  }

  /** How many keywords are found in the output. */
  function CountFound(keywords: seq<string>, output: string): (n: nat)
    ensures n <= |keywords|
  {
    if keywords == [] then 0
    else CountFound(keywords[..|keywords| - 1], output)
         + (if Found(keywords[|keywords| - 1], output) then 1 else 0)
  }

  lemma {:induction false} CountFoundAll(keywords: seq<string>, output: string)
    ensures CountFound(keywords, output) == |keywords|
            <==> forall i :: 0 <= i < |keywords| ==> Found(keywords[i], output)
    decreases |keywords|
  {
    if keywords != [] {
      var init := keywords[..|keywords| - 1];
      CountFoundAll(init, output);
      assert forall i :: 0 <= i < |init| ==> init[i] == keywords[i];
    }
  }

  lemma {:induction false} CountFoundNone(keywords: seq<string>, output: string)
    ensures CountFound(keywords, output) == 0
            <==> forall i :: 0 <= i < |keywords| ==> !Found(keywords[i], output)
    decreases |keywords|
  {
    if keywords != [] {
      var init := keywords[..|keywords| - 1];
      CountFoundNone(init, output);
      assert forall i :: 0 <= i < |init| ==> init[i] == keywords[i];
    }
  }

  /** The share of keywords found in the output; 1.0 without keywords. */
  function KeywordCoverageScore(keywords: seq<string>, output: string): (r: real)
    ensures 0.0 <= r <= 1.0
    ensures keywords == [] ==> r == 1.0
    ensures r == 1.0 <==> forall i :: 0 <= i < |keywords| ==> Found(keywords[i], output)
    ensures keywords != [] ==> (r == 0.0 <==> forall i :: 0 <= i < |keywords| ==> !Found(keywords[i], output))
  {
    if keywords == [] then 1.0
    else
      var found, total := CountFound(keywords, output) as real, |keywords| as real;
      CountFoundAll(keywords, output);
      CountFoundNone(keywords, output);
      Ratio(found, total);
      found / total
  }

  lemma Ratio(c: real, n: real)
    requires 0.0 <= c <= n && n > 0.0
    ensures 0.0 <= c / n <= 1.0
    ensures c / n == 1.0 <==> c == n
    ensures c / n == 0.0 <==> c == 0.0
  {
    assert c / n <= n / n;
    assert (c / n) * n == c;
    if c / n == 1.0 {
      assert c == 1.0 * n;
    }
  }

  /** The keywords not found in the output, in their original order. */
  function KeywordMisses(keywords: seq<string>, output: string): (ms: seq<string>)
    ensures |ms| <= |keywords|
    ensures forall m :: m in ms ==> m in keywords && !Found(m, output)
  {
    if keywords == [] then []
    else
      var last := keywords[|keywords| - 1];
      KeywordMisses(keywords[..|keywords| - 1], output)
      + (if Found(last, output) then [] else [last])
  }

  /** Every keyword is either found or listed as a miss, never both, so the
      misses agree with the coverage score. */
  lemma {:induction false} KeywordMissesComplement(keywords: seq<string>, output: string)
    ensures |KeywordMisses(keywords, output)| + CountFound(keywords, output) == |keywords|
    ensures forall k :: k in keywords && !Found(k, output) ==> k in KeywordMisses(keywords, output)
    decreases |keywords|
  {
    if keywords != [] {
      var init := keywords[..|keywords| - 1];
      KeywordMissesComplement(init, output);
      assert keywords == init + [keywords[|keywords| - 1]];
    }
  }

  /** Full coverage exactly when nothing is missed. */
  lemma CoverageFullIffNoMisses(keywords: seq<string>, output: string)
    ensures KeywordCoverageScore(keywords, output) == 1.0 <==> KeywordMisses(keywords, output) == []
  {
    KeywordMissesComplement(keywords, output);
    CountFoundAll(keywords, output);
  }

  /** 1.0 without a schema, or when the output parses and conforms; 0.0 on
      a parse error or a schema violation. */
  function SchemaValidityScore(schema: Option<Schema>, output: string, validate: SchemaValidator): (r: real)
    ensures r == 0.0 || r == 1.0
    ensures r == 1.0 <==> schema.None? || validate(schema.value, output).Conforms?
  {
    if schema.None? then 1.0
    else match validate(schema.value, output)
      case Conforms => 1.0
      case ParseError(_) => 0.0
      case Violation(_) => 0.0
  }

  /** `min(1.0, max(0.0, v))` */
  function Clamp01(v: real): (r: real)
    ensures 0.0 <= r <= 1.0
    ensures 0.0 <= v <= 1.0 ==> r == v
    ensures v < 0.0 ==> r == 0.0
    ensures v > 1.0 ==> r == 1.0
  {
    if v < 0.0 then 0.0 else if v > 1.0 then 1.0 else v
  }

  /** Reads a judge's answer: a number is clamped into [0, 1]; otherwise
      "pass"/"good" mean 1.0, checked before "fail"/"bad" meaning 0.0, and
      anything else is 0.5. */
  function LlmJudgeFromText(judgeOutput: string, parse: FloatParser): (r: real)
    ensures 0.0 <= r <= 1.0
    ensures parse(Strip(judgeOutput)).Some? ==> r == Clamp01(parse(Strip(judgeOutput)).value)
    ensures parse(Strip(judgeOutput)).None? ==>
      var lower := Lower(Strip(judgeOutput));
      (r == 1.0 <==> Contains(lower, "pass") || Contains(lower, "good"))
      && (r == 0.0 <==> !Contains(lower, "pass") && !Contains(lower, "good")
                        && (Contains(lower, "fail") || Contains(lower, "bad")))
    ensures parse(Strip(judgeOutput)).None? ==>
      var lower := Lower(Strip(judgeOutput));
      (r == 0.5 <==> !Contains(lower, "pass") && !Contains(lower, "good")
                     && !Contains(lower, "fail") && !Contains(lower, "bad"))
  {
    var cleaned := Strip(judgeOutput);
    match parse(cleaned)
    case Some(v) => Clamp01(v)
    case None =>
      var lower := Lower(cleaned);
      if Contains(lower, "pass") || Contains(lower, "good") then 1.0
      else if Contains(lower, "fail") || Contains(lower, "bad") then 0.0
      else 0.5
  }

  /** The three computed scores of an item; the judge score is taken as is. */
  function ScoreItem(item: DatasetItem, outputText: string, llmJudgeScore: Option<real>,
                     validate: SchemaValidator): (s: ItemScore)
    ensures s.exactMatch == ExactMatchScore(item.expectedAnswer, outputText)
    ensures s.keywordCoverage == KeywordCoverageScore(item.keywords, outputText)
    ensures s.schemaValid == SchemaValidityScore(item.outputSchema, outputText, validate)
    ensures s.llmJudgeScore == llmJudgeScore
    ensures UnitScore(s) <==> llmJudgeScore.None? || 0.0 <= llmJudgeScore.value <= 1.0
  {
    ItemScore(
      ExactMatchScore(item.expectedAnswer, outputText),
      KeywordCoverageScore(item.keywords, outputText),
      SchemaValidityScore(item.outputSchema, outputText, validate),
      llmJudgeScore)
  }

  /** Every field of the score lies in [0, 1]. */
  predicate UnitScore(s: ItemScore)
  {
    0.0 <= s.exactMatch <= 1.0 && 0.0 <= s.keywordCoverage <= 1.0 && 0.0 <= s.schemaValid <= 1.0
    && (s.llmJudgeScore.Some? ==> 0.0 <= s.llmJudgeScore.value <= 1.0)
  }

  function ExactMatches(scores: seq<ItemScore>): (xs: seq<real>)
    ensures |xs| == |scores| && forall i :: 0 <= i < |scores| ==> xs[i] == scores[i].exactMatch
  {
    seq(|scores|, i requires 0 <= i < |scores| => scores[i].exactMatch)
  }

  function KeywordCoverages(scores: seq<ItemScore>): (xs: seq<real>)
    ensures |xs| == |scores| && forall i :: 0 <= i < |scores| ==> xs[i] == scores[i].keywordCoverage
  {
    seq(|scores|, i requires 0 <= i < |scores| => scores[i].keywordCoverage)
  }

  function SchemaValids(scores: seq<ItemScore>): (xs: seq<real>)
    ensures |xs| == |scores| && forall i :: 0 <= i < |scores| ==> xs[i] == scores[i].schemaValid
  {
    seq(|scores|, i requires 0 <= i < |scores| => scores[i].schemaValid)
  }

  /** The judge scores that are present, in order. */
  function JudgeValues(scores: seq<ItemScore>): (xs: seq<real>)
    ensures |xs| <= |scores|
  {
    if scores == [] then []
    else
      var last := scores[|scores| - 1];
      JudgeValues(scores[..|scores| - 1]) + (if last.llmJudgeScore.Some? then [last.llmJudgeScore.value] else [])
  }

  /** There are judge values exactly when some item has a judge score. */
  lemma {:induction false} JudgeValuesEmpty(scores: seq<ItemScore>)
    ensures JudgeValues(scores) == [] <==> forall i :: 0 <= i < |scores| ==> scores[i].llmJudgeScore.None?
    decreases |scores|
  {
    if scores != [] {
      var init := scores[..|scores| - 1];
      JudgeValuesEmpty(init);
      assert forall i :: 0 <= i < |init| ==> init[i] == scores[i];
    }
  }

  /** Judge values lie within any bounds every judge score lies within. */
  lemma {:induction false} JudgeValuesWithin(scores: seq<ItemScore>, lo: real, hi: real)
    requires forall i :: 0 <= i < |scores| && scores[i].llmJudgeScore.Some? ==>
               lo <= scores[i].llmJudgeScore.value <= hi
    ensures AllWithin(JudgeValues(scores), lo, hi)
    decreases |scores|
  {
    if scores != [] {
      var init := scores[..|scores| - 1];
      assert forall i :: 0 <= i < |init| ==> init[i] == scores[i];
      JudgeValuesWithin(init, lo, hi);
    }
  }

  /** The mean of each score over the items, the judge score over the items
      that have one; an error for no items. */
  function AggregateScores(scores: seq<ItemScore>): (r: Result<AggregateMetrics, string>)
    ensures r.Err? <==> scores == []
    ensures r.Ok? ==> r.value.sampleCount == |scores|
    ensures r.Ok? ==> r.value.exactMatch == Mean(ExactMatches(scores))
    ensures r.Ok? ==> r.value.keywordCoverage == Mean(KeywordCoverages(scores))
    ensures r.Ok? ==> r.value.schemaValid == Mean(SchemaValids(scores))
    ensures r.Ok? ==> (r.value.llmJudgeScore.None? <==>
                        forall i :: 0 <= i < |scores| ==> scores[i].llmJudgeScore.None?)
    ensures r.Ok? ==> (r.value.llmJudgeScore.Some? <==> JudgeValues(scores) != [])
    ensures r.Ok? && r.value.llmJudgeScore.Some? ==> r.value.llmJudgeScore.value == Mean(JudgeValues(scores))
  {
    if scores == [] then Err("No scores were provided to aggregate.")
    else
      var judges := JudgeValues(scores);
      JudgeValuesEmpty(scores);
      Ok(AggregateMetrics(
        Mean(ExactMatches(scores)),
        Mean(KeywordCoverages(scores)),
        Mean(SchemaValids(scores)),
        if judges != [] then Some(Mean(judges)) else None,
        |scores|))
  }

  /** Aggregating scores that lie in [0, 1] gives metrics in [0, 1]. */
  lemma AggregateScoresBounds(scores: seq<ItemScore>)
    requires scores != []
    requires forall i :: 0 <= i < |scores| ==> UnitScore(scores[i])
    ensures var m := AggregateScores(scores).value;
      0.0 <= m.exactMatch <= 1.0 && 0.0 <= m.keywordCoverage <= 1.0 && 0.0 <= m.schemaValid <= 1.0
      && (m.llmJudgeScore.Some? ==> 0.0 <= m.llmJudgeScore.value <= 1.0)
  {
    MeanBounds(ExactMatches(scores), 0.0, 1.0);
    MeanBounds(KeywordCoverages(scores), 0.0, 1.0);
    MeanBounds(SchemaValids(scores), 0.0, 1.0);
    var judges := JudgeValues(scores);
    JudgeValuesWithin(scores, 0.0, 1.0);
    if judges != [] {
      MeanBounds(judges, 0.0, 1.0);
    }
  }
}
