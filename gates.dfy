/** Release gates (scoring/gates.py): minimum values for candidate metrics
    and maximum drops against a baseline, each producing a keyed check and,
    when it fails, a reason. */
module Gates {
  import opened Outcomes
  import opened Text
  import opened Dicts
  import opened Models

  /** `getattr(metrics, name)` when it is a number: the four scores (the
      judge score only when present) and the sample count. Any other name,
      or an absent judge score, is missing. */
  function MetricValue(m: AggregateMetrics, name: string): Option<real>
  {
    if name == "exact_match" then Some(m.exactMatch)
    else if name == "keyword_coverage" then Some(m.keywordCoverage)
    else if name == "schema_valid" then Some(m.schemaValid)
    else if name == "llm_judge_score" then m.llmJudgeScore
    else if name == "sample_count" then Some(m.sampleCount as real)
    else None
  }

  /** The check one threshold produces, with the reason when it fails. */
  datatype Outcome = Outcome(check: Check, reason: Option<Reason>)

  /** A step's reason is present exactly when its check fails. */
  predicate Consistent(o: Outcome)
  {
    o.reason.Some? <==> !o.check.passed
  }

  /** One `min_metric` entry: a missing value fails with value -1.0. */
  function MinOutcome(candidate: AggregateMetrics, name: string, threshold: real): (o: Outcome)
    ensures Consistent(o) && o.check.MinCheck? && o.check.threshold == threshold
    ensures o.check.passed <==> MetricValue(candidate, name).Some? && MetricValue(candidate, name).value >= threshold
    ensures o.check.value == MetricValue(candidate, name).GetOr(-1.0)
  {
    match MetricValue(candidate, name)
    case None => Outcome(MinCheck(false, -1.0, threshold), Some(MissingInCandidate(name)))
    case Some(value) =>
      var passed := value >= threshold;
      Outcome(MinCheck(passed, value, threshold),
              if passed then None else Some(BelowMinimum(name, value, threshold)))
  }

  /** One `max_drop_from_baseline` entry: without a baseline, or with either
      value missing, it fails with drop 999.0. */
  function DropOutcome(candidate: AggregateMetrics, baseline: Option<AggregateMetrics>,
                       name: string, maxDrop: real): (o: Outcome)
    ensures Consistent(o) && o.check.DropCheck? && o.check.maxDrop == maxDrop
    ensures (baseline.None? || MetricValue(candidate, name).None? || MetricValue(baseline.value, name).None?)
            ==> !o.check.passed && o.check.drop == 999.0
    ensures baseline.Some? && MetricValue(candidate, name).Some? && MetricValue(baseline.value, name).Some? ==>
      var drop := MetricValue(baseline.value, name).value - MetricValue(candidate, name).value;
      o.check.drop == drop && (o.check.passed <==> drop <= maxDrop)
  {
    var candValue := MetricValue(candidate, name);
    var baseValue := if baseline.Some? then MetricValue(baseline.value, name) else None;
    if candValue.None? || baseValue.None? then
      Outcome(DropCheck(false, 999.0, maxDrop), Some(MissingForBaseline(name)))
    else
      var drop := baseValue.value - candValue.value;
      var passed := drop <= maxDrop;
      Outcome(DropCheck(passed, drop, maxDrop), if passed then None else Some(DroppedBy(name, drop, maxDrop)))
  }

  /** The reasons and checks gathered so far. */
  datatype GateAcc = GateAcc(reasons: seq<Reason>, checks: Dict<string, Check>)

  function ReasonList(o: Outcome): seq<Reason>
  {
    if o.reason.Some? then [o.reason.value] else []
  }

  /** Appends the reason, if any, and sets `checks[key]`. */
  function Record(acc: GateAcc, key: string, o: Outcome): GateAcc
  {
    GateAcc(acc.reasons + ReasonList(o), Put(acc.checks, key, o.check))
  }

  /** What recording one step does to the lookups of the checks. */
  lemma RecordGet(acc: GateAcc, key: string, o: Outcome, k: string)
    ensures DistinctKeys(acc.checks) ==> DistinctKeys(Record(acc, key, o).checks)
    ensures Get(Record(acc, key, o).checks, k) == if k == key then Some(o.check) else Get(acc.checks, k)
  {
    PutGet(acc.checks, key, o.check, k);
  }

  /** One of the two loops of the gate evaluation, over the thresholds in
      order, with the check keys carrying `prefix`. */
  function Run(entries: Dict<string, real>, prefix: string, step: (string, real) -> Outcome,
               acc: GateAcc): GateAcc
  {
    if entries == [] then acc
    else
      var e := entries[|entries| - 1];
      Record(Run(entries[..|entries| - 1], prefix, step, acc), prefix + e.0, step(e.0, e.1))
  }

  /** The reasons of the failing steps, in order. */
  function ReasonsOf(entries: Dict<string, real>, step: (string, real) -> Outcome): seq<Reason>
  {
    if entries == [] then []
    else
      var e := entries[|entries| - 1];
      ReasonsOf(entries[..|entries| - 1], step) + ReasonList(step(e.0, e.1))
  }

  const MinPrefix := "min_metric."
  const DropPrefix := "max_drop."

  function MinStep(candidate: AggregateMetrics): (string, real) -> Outcome
  {
    (name, threshold) => MinOutcome(candidate, name, threshold)
  }

  function DropStep(candidate: AggregateMetrics, baseline: Option<AggregateMetrics>): (string, real) -> Outcome
  {
    (name, maxDrop) => DropOutcome(candidate, baseline, name, maxDrop)
  }

  /** The decision `evaluate_gates` returns: fail exactly when some reason
      was recorded. */
  function GateDecisionOf(candidate: AggregateMetrics, config: GateConfig,
                          baseline: Option<AggregateMetrics>): (d: GateDecision)
    ensures d.status == Fail <==> d.reasons != []
  {
    var afterMin := Run(config.minMetric, MinPrefix, MinStep(candidate), GateAcc([], []));
    var afterDrop := Run(config.maxDropFromBaseline, DropPrefix, DropStep(candidate, baseline), afterMin);
    GateDecision(if afterDrop.reasons == [] then Pass else Fail, afterDrop.reasons, afterDrop.checks)
  }

  /** `evaluate_gates`: the two loops, then the status. */
  method EvaluateGates(candidate: AggregateMetrics, config: GateConfig, baseline: Option<AggregateMetrics>)
    returns (d: GateDecision)
    ensures d == GateDecisionOf(candidate, config, baseline)
  {
    var afterMin := CheckMinimums(candidate, config.minMetric);
    var afterDrop := CheckDrops(candidate, baseline, config.maxDropFromBaseline, afterMin);
    d := GateDecision(if afterDrop.reasons == [] then Pass else Fail, afterDrop.reasons, afterDrop.checks);
  }

  /** The first loop of `evaluate_gates`, over `min_metric`. */
  method CheckMinimums(candidate: AggregateMetrics, mins: Dict<string, real>) returns (acc: GateAcc)
    ensures acc == Run(mins, MinPrefix, MinStep(candidate), GateAcc([], []))
  {
    var reasons: seq<Reason> := [];
    var checks: Dict<string, Check> := [];
    var i := 0;
    while i < |mins|
      invariant 0 <= i <= |mins|
      invariant GateAcc(reasons, checks) == Run(mins[..i], MinPrefix, MinStep(candidate), GateAcc([], []))
    {
      var (name, threshold) := mins[i];
      ghost var prev := GateAcc(reasons, checks);
      var value := MetricValue(candidate, name);
      if value.None? {
        reasons := reasons + [MissingInCandidate(name)];
        checks := Put(checks, MinPrefix + name, MinCheck(false, -1.0, threshold));
      } else {
        var passed := value.value >= threshold;
        checks := Put(checks, MinPrefix + name, MinCheck(passed, value.value, threshold));
        if !passed {
          reasons := reasons + [BelowMinimum(name, value.value, threshold)];
        }
      }
      assert GateAcc(reasons, checks) == Record(prev, MinPrefix + name, MinStep(candidate)(name, threshold));
      assert mins[..i + 1][..i] == mins[..i];
      i := i + 1;
    }
    assert mins[..i] == mins;
    acc := GateAcc(reasons, checks);
  }

  /** The second loop of `evaluate_gates`, over `max_drop_from_baseline`,
      continuing from what the first loop gathered. */
  method CheckDrops(candidate: AggregateMetrics, baseline: Option<AggregateMetrics>,
                    drops: Dict<string, real>, start: GateAcc) returns (acc: GateAcc)
    ensures acc == Run(drops, DropPrefix, DropStep(candidate, baseline), start)
  {
    var reasons, checks := start.reasons, start.checks;
    var j := 0;
    while j < |drops|
      invariant 0 <= j <= |drops|
      invariant GateAcc(reasons, checks) == Run(drops[..j], DropPrefix, DropStep(candidate, baseline), start)
    {
      var (name, maxDrop) := drops[j];
      ghost var prev := GateAcc(reasons, checks);
      var candValue := MetricValue(candidate, name);
      var baseValue := if baseline.Some? then MetricValue(baseline.value, name) else None;
      if candValue.None? || baseValue.None? {
        reasons := reasons + [MissingForBaseline(name)];
        checks := Put(checks, DropPrefix + name, DropCheck(false, 999.0, maxDrop));
      } else {
        var drop := baseValue.value - candValue.value;
        var passed := drop <= maxDrop;
        checks := Put(checks, DropPrefix + name, DropCheck(passed, drop, maxDrop));
        if !passed {
          reasons := reasons + [DroppedBy(name, drop, maxDrop)];
        }
      }
      assert GateAcc(reasons, checks) == Record(prev, DropPrefix + name, DropStep(candidate, baseline)(name, maxDrop));
      assert drops[..j + 1][..j] == drops[..j];
      j := j + 1;
    }
    assert drops[..j] == drops;
    acc := GateAcc(reasons, checks);
  }

  // ---- Properties of the two loops ----

  lemma PrefixInjective(prefix: string, a: string, b: string)
    requires prefix + a == prefix + b
    ensures a == b
  {
    assert a == (prefix + a)[|prefix|..];
  }

  lemma PrefixOf(prefix: string, a: string)
    ensures IsPrefix(prefix, prefix + a)
  {
    assert (prefix + a)[..|prefix|] == prefix;
  }

  /** The two key families never meet. */
  lemma PrefixesDisjoint(a: string)
    ensures !IsPrefix(DropPrefix, MinPrefix + a)
    ensures !IsPrefix(MinPrefix, DropPrefix + a)
  {
    assert (MinPrefix + a)[1] == 'i';
    assert (DropPrefix + a)[1] == 'a';
  }

  /** A loop records its reasons after those already gathered. */
  lemma {:induction false} RunReasons(entries: Dict<string, real>, prefix: string,
                                      step: (string, real) -> Outcome, acc: GateAcc)
    ensures Run(entries, prefix, step, acc).reasons == acc.reasons + ReasonsOf(entries, step)
    decreases |entries|
  {
    if entries != [] {
      RunReasons(entries[..|entries| - 1], prefix, step, acc);
    }
  }

  /** Keys stay distinct, and every key the loop adds carries its prefix. */
  lemma {:induction false} RunKeys(entries: Dict<string, real>, prefix: string,
                                   step: (string, real) -> Outcome, acc: GateAcc)
    requires DistinctKeys(acc.checks)
    ensures DistinctKeys(Run(entries, prefix, step, acc).checks)
    ensures |Run(entries, prefix, step, acc).checks| >= |acc.checks|
    ensures forall i :: |acc.checks| <= i < |Run(entries, prefix, step, acc).checks| ==>
              IsPrefix(prefix, Run(entries, prefix, step, acc).checks[i].0)
    ensures forall i :: 0 <= i < |acc.checks| ==> Run(entries, prefix, step, acc).checks[i].0 == acc.checks[i].0
    decreases |entries|
  {
    if entries != [] {
      var e := entries[|entries| - 1];
      var prev := Run(entries[..|entries| - 1], prefix, step, acc);
      RunKeys(entries[..|entries| - 1], prefix, step, acc);
      PutGet(prev.checks, prefix + e.0, step(e.0, e.1).check, prefix + e.0);
      PrefixOf(prefix, e.0);
    }
  }

  /** A key without the loop's prefix is left as it was. */
  lemma {:induction false} RunGetOther(entries: Dict<string, real>, prefix: string,
                                       step: (string, real) -> Outcome, acc: GateAcc, key: string)
    requires DistinctKeys(acc.checks) && !IsPrefix(prefix, key)
    ensures Get(Run(entries, prefix, step, acc).checks, key) == Get(acc.checks, key)
    decreases |entries|
  {
    if entries != [] {
      var e := entries[|entries| - 1];
      var prev := Run(entries[..|entries| - 1], prefix, step, acc);
      RunGetOther(entries[..|entries| - 1], prefix, step, acc, key);
      PrefixOf(prefix, e.0);
      RecordGet(prev, prefix + e.0, step(e.0, e.1), key);
    }
  }

  /** The key of a configured threshold holds that threshold's check. */
  lemma {:induction false} RunGetOwn(entries: Dict<string, real>, prefix: string,
                                     step: (string, real) -> Outcome, acc: GateAcc, name: string)
    requires DistinctKeys(acc.checks) && DistinctKeys(entries)
    ensures Get(Run(entries, prefix, step, acc).checks, prefix + name) ==
      if HasKey(entries, name) then Some(step(name, Get(entries, name).value).check)
      else Get(acc.checks, prefix + name)
    decreases |entries|
  {
    if entries != [] {
      var init := entries[..|entries| - 1];
      var e := entries[|entries| - 1];
      var prev := Run(init, prefix, step, acc);
      GetInitLast(entries, name);
      RunGetOwn(init, prefix, step, acc, name);
      RecordGet(prev, prefix + e.0, step(e.0, e.1), prefix + name);
      if prefix + e.0 == prefix + name {
        PrefixInjective(prefix, e.0, name);
      }
    }
  }

  /** With distinct names and no key of its prefix beforehand, a loop adds
      exactly one check per threshold. */
  lemma {:induction false} RunLength(entries: Dict<string, real>, prefix: string,
                                     step: (string, real) -> Outcome, acc: GateAcc)
    requires DistinctKeys(acc.checks) && DistinctKeys(entries)
    requires forall i :: 0 <= i < |acc.checks| ==> !IsPrefix(prefix, acc.checks[i].0)
    ensures |Run(entries, prefix, step, acc).checks| == |acc.checks| + |entries|
    decreases |entries|
  {
    if entries != [] {
      var init := entries[..|entries| - 1];
      var e := entries[|entries| - 1];
      var prev := Run(init, prefix, step, acc);
      assert DistinctKeys(init);
      RunLength(init, prefix, step, acc);
      RunGetOwn(init, prefix, step, acc, e.0);
      PrefixOf(prefix, e.0);
    }
  }

  /** No reasons exactly when every step of the loop passed. */
  lemma {:induction false} ReasonsEmptyIffAllPass(entries: Dict<string, real>, step: (string, real) -> Outcome)
    requires forall i :: 0 <= i < |entries| ==> Consistent(step(entries[i].0, entries[i].1))
    ensures ReasonsOf(entries, step) == [] <==>
              forall i :: 0 <= i < |entries| ==> step(entries[i].0, entries[i].1).check.passed
    decreases |entries|
  {
    if entries != [] {
      var init := entries[..|entries| - 1];
      assert forall i :: 0 <= i < |init| ==> init[i] == entries[i];
      ReasonsEmptyIffAllPass(init, step);
    }
  }

  // ---- What the decision promises ----

  /** All reasons of the minimum checks come before those of the drop checks. */
  lemma GateReasonsOrder(candidate: AggregateMetrics, config: GateConfig, baseline: Option<AggregateMetrics>)
    ensures GateDecisionOf(candidate, config, baseline).reasons ==
      ReasonsOf(config.minMetric, MinStep(candidate)) + ReasonsOf(config.maxDropFromBaseline, DropStep(candidate, baseline))
  {
    var afterMin := Run(config.minMetric, MinPrefix, MinStep(candidate), GateAcc([], []));
    RunReasons(config.minMetric, MinPrefix, MinStep(candidate), GateAcc([], []));
    RunReasons(config.maxDropFromBaseline, DropPrefix, DropStep(candidate, baseline), afterMin);
  }

  /** The gate passes exactly when every configured check passes. */
  lemma GatePassIffAllChecksPass(candidate: AggregateMetrics, config: GateConfig, baseline: Option<AggregateMetrics>)
    ensures GateDecisionOf(candidate, config, baseline).status == Pass <==>
      (forall i :: 0 <= i < |config.minMetric| ==>
         MinOutcome(candidate, config.minMetric[i].0, config.minMetric[i].1).check.passed)
      && (forall i :: 0 <= i < |config.maxDropFromBaseline| ==>
         DropOutcome(candidate, baseline, config.maxDropFromBaseline[i].0, config.maxDropFromBaseline[i].1).check.passed)
  {
    GateReasonsOrder(candidate, config, baseline);
    ReasonsEmptyIffAllPass(config.minMetric, MinStep(candidate));
    ReasonsEmptyIffAllPass(config.maxDropFromBaseline, DropStep(candidate, baseline));
  }

  /** With no thresholds configured the gate passes with no reasons and no
      checks. */
  lemma EmptyConfigPasses(candidate: AggregateMetrics, baseline: Option<AggregateMetrics>)
    ensures GateDecisionOf(candidate, DefaultGateConfig, baseline) == GateDecision(Pass, [], [])
  {
  }

  /** `checks["min_metric.<name>"]` for a configured minimum: it passes iff
      the candidate has the metric and meets the threshold; a missing metric
      shows value -1.0. */
  lemma GateMinCheck(candidate: AggregateMetrics, config: GateConfig, baseline: Option<AggregateMetrics>, name: string)
    requires DistinctKeys(config.minMetric) && HasKey(config.minMetric, name)
    ensures var threshold := Get(config.minMetric, name).value;
      var value := MetricValue(candidate, name);
      Get(GateDecisionOf(candidate, config, baseline).checks, MinPrefix + name) ==
        Some(MinCheck(value.Some? && value.value >= threshold, value.GetOr(-1.0), threshold))
  {
    var afterMin := Run(config.minMetric, MinPrefix, MinStep(candidate), GateAcc([], []));
    RunGetOwn(config.minMetric, MinPrefix, MinStep(candidate), GateAcc([], []), name);
    RunKeys(config.minMetric, MinPrefix, MinStep(candidate), GateAcc([], []));
    PrefixesDisjoint(name);
    RunGetOther(config.maxDropFromBaseline, DropPrefix, DropStep(candidate, baseline), afterMin, MinPrefix + name);
  }

  /** `checks["max_drop.<name>"]` for a configured drop limit: with a
      baseline and both values it passes iff baseline - candidate is within
      the limit; otherwise it fails with drop 999.0. */
  lemma GateDropCheck(candidate: AggregateMetrics, config: GateConfig, baseline: Option<AggregateMetrics>, name: string)
    requires DistinctKeys(config.maxDropFromBaseline) && HasKey(config.maxDropFromBaseline, name)
    ensures var maxDrop := Get(config.maxDropFromBaseline, name).value;
      var c := Get(GateDecisionOf(candidate, config, baseline).checks, DropPrefix + name);
      c.Some? && c.value.DropCheck? && c.value.maxDrop == maxDrop
      && (if baseline.Some? && MetricValue(candidate, name).Some? && MetricValue(baseline.value, name).Some?
          then var drop := MetricValue(baseline.value, name).value - MetricValue(candidate, name).value;
               c.value.drop == drop && (c.value.passed <==> drop <= maxDrop)
          else c.value.drop == 999.0 && !c.value.passed)
  {
    var afterMin := Run(config.minMetric, MinPrefix, MinStep(candidate), GateAcc([], []));
    RunKeys(config.minMetric, MinPrefix, MinStep(candidate), GateAcc([], []));
    RunGetOwn(config.maxDropFromBaseline, DropPrefix, DropStep(candidate, baseline), afterMin, name);
  }

  /** One check per configured threshold, and no others. */
  lemma GateCheckCount(candidate: AggregateMetrics, config: GateConfig, baseline: Option<AggregateMetrics>)
    requires DistinctKeys(config.minMetric) && DistinctKeys(config.maxDropFromBaseline)
    ensures |GateDecisionOf(candidate, config, baseline).checks| == |config.minMetric| + |config.maxDropFromBaseline|
  {
    var afterMin := Run(config.minMetric, MinPrefix, MinStep(candidate), GateAcc([], []));
    RunLength(config.minMetric, MinPrefix, MinStep(candidate), GateAcc([], []));
    RunKeys(config.minMetric, MinPrefix, MinStep(candidate), GateAcc([], []));
    forall i | 0 <= i < |afterMin.checks| ensures !IsPrefix(DropPrefix, afterMin.checks[i].0) {
      var key := afterMin.checks[i].0;
      assert IsPrefix(MinPrefix, key);
      assert key == MinPrefix + key[|MinPrefix|..];
      PrefixesDisjoint(key[|MinPrefix|..]);
    }
    RunLength(config.maxDropFromBaseline, DropPrefix, DropStep(candidate, baseline), afterMin);
  }

  /** A candidate above its only minimum passes. */
  lemma MinimumMetExample()
    ensures GateDecisionOf(AggregateMetrics(0.6, 0.7, 1.0, None, 10),
                           GateConfig(None, [("exact_match", 0.5)], []), None).status == Pass
  {
    var cand := AggregateMetrics(0.6, 0.7, 1.0, None, 10);
    assert MetricValue(cand, "exact_match") == Some(0.6);
    var mins := [("exact_match", 0.5)];
    assert mins[..0] == [];
  }

  /** A drop of 0.2 against an allowed 0.1 fails with a reason. */
  lemma DropExceededExample()
    ensures var d := GateDecisionOf(AggregateMetrics(0.6, 0.7, 1.0, None, 10),
                                    GateConfig(None, [], [("exact_match", 0.1)]),
                                    Some(AggregateMetrics(0.8, 0.8, 1.0, None, 10)));
            d.status == Fail && d.reasons != []
  {
    var cand := AggregateMetrics(0.6, 0.7, 1.0, None, 10);
    var base := AggregateMetrics(0.8, 0.8, 1.0, None, 10);
    assert MetricValue(cand, "exact_match") == Some(0.6);
    assert MetricValue(base, "exact_match") == Some(0.8);
    var drops := [("exact_match", 0.1)];
    assert drops[..0] == [];
  }
}
