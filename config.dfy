/** Run identity: the run key and the four fingerprints. Each is the digest
    of a JSON object serialised with sorted keys. SHA-256 as a hex string,
    `json.dumps` with compact separators and the "%.6f" rendering of the
    temperature are parameters: only how they are composed is modelled. */
module Config {
  import opened Outcomes
  import opened Dicts
  import opened Sorting
  import opened Models

  /** The primitives `stable_hash` is built from. */
  datatype Hashing = Hashing(dumps: Json -> string, sha256: string -> string, fixed6: real -> string)

  /** Distinct inputs give distinct outputs. */
  ghost predicate Injective<A(!new), B>(f: A -> B)
  {
    forall a, b :: f(a) == f(b) ==> a == b
  }

  /** What `json.dumps(sort_keys=True)` writes: every object's keys in
      code-point order, at every level. */
  function Canonical(j: Json): Json
  {
    match j
    case JList(items) => JList(seq(|items|, i requires 0 <= i < |items| => Canonical(items[i])))
    case JObject(fields) =>
      JObject(SortByKey(seq(|fields|, i requires 0 <= i < |fields| => (fields[i].0, Canonical(fields[i].1)))))
    case _ => j
  }

  /** An object whose values are all scalars, as every payload hashed here. */
  predicate Flat(fields: Dict<string, Json>)
  {
    forall i :: 0 <= i < |fields| ==> !fields[i].1.JList? && !fields[i].1.JObject?
  }

  lemma CanonicalFlat(fields: Dict<string, Json>)
    requires Flat(fields)
    ensures Canonical(JObject(fields)) == JObject(SortByKey(fields))
  {
    var mapped := seq(|fields|, i requires 0 <= i < |fields| => (fields[i].0, Canonical(fields[i].1)));
    assert mapped == fields;
  }

  /** `stable_hash` */
  function StableHash(h: Hashing, payload: Dict<string, Json>): string
  {
    h.sha256(h.dumps(Canonical(JObject(payload))))
  }

  /** The digest does not depend on the order the payload was written in. */
  lemma StableHashOrderIndependent(h: Hashing, a: Dict<string, Json>, b: Dict<string, Json>)
    requires Flat(a) && Flat(b) && DistinctKeys(a) && DistinctKeys(b)
    requires multiset(a) == multiset(b)
    ensures StableHash(h, a) == StableHash(h, b)
  {
    CanonicalFlat(a);
    CanonicalFlat(b);
    SortByKeySorted(a);
    SortByKeySorted(b);
    LexSortedUnique(SortByKey(a), SortByKey(b));
  }

  /** With injective primitives, equal digests mean equal payloads up to
      order. */
  lemma StableHashDetermines(h: Hashing, a: Dict<string, Json>, b: Dict<string, Json>)
    requires Injective(h.dumps) && Injective(h.sha256)
    requires Flat(a) && Flat(b)
    requires StableHash(h, a) == StableHash(h, b)
    ensures multiset(a) == multiset(b)
  {
    CanonicalFlat(a);
    CanonicalFlat(b);
    assert SortByKey(a) == SortByKey(b);
  }

  /** Under equal digests, an entry of one payload is an entry of the
      other. */
  lemma SameEntry(h: Hashing, a: Dict<string, Json>, b: Dict<string, Json>, k: string, va: Json, vb: Json)
    requires Injective(h.dumps) && Injective(h.sha256)
    requires Flat(a) && Flat(b) && DistinctKeys(b)
    requires StableHash(h, a) == StableHash(h, b)
    requires (k, va) in a && (k, vb) in b
    ensures va == vb
  {
    StableHashDetermines(h, a, b);
    assert (k, va) in multiset(b);
    var i :| 0 <= i < |b| && b[i] == (k, va);
    var j :| 0 <= j < |b| && b[j] == (k, vb);
  }

  function OptionalText(s: Option<string>): Json
  {
    if s.Some? then JStr(s.value) else JNull
  }

  /** The fields the run key covers, and nothing else. */
  function RunKeyPayload(v: VariantConfig): (p: Dict<string, Json>)
    ensures Flat(p) && DistinctKeys(p)
  {
    [("dataset_name", JStr(v.datasetName)),
     ("dataset_version", JStr(v.datasetVersion)),
     ("prompt_version", JStr(v.promptVersion)),
     ("model_name", JStr(v.modelName)),
     ("retrieval_enabled", JBool(v.retrievalEnabled)),
     ("llm_judge_enabled", JBool(v.llmJudgeEnabled)),
     ("seed", JInt(v.seed))]
  }

  /** `build_run_key`: the first 16 characters of the digest. */
  function BuildRunKey(h: Hashing, v: VariantConfig): (key: string)
    ensures |key| <= 16
    ensures var full := StableHash(h, RunKeyPayload(v));
      |key| <= |full| && key == full[..|key|] && (|full| >= 16 ==> |key| == 16) && (|full| < 16 ==> key == full)
  {
    var full := StableHash(h, RunKeyPayload(v));
    if |full| <= 16 then full else full[..16]
  }

  /** Two variants that differ only in name, template, judge model or
      temperature share a run key, and so a version sequence. */
  lemma RunKeyIgnoresOtherFields(h: Hashing, v: VariantConfig, w: VariantConfig)
    requires v.datasetName == w.datasetName && v.datasetVersion == w.datasetVersion
    requires v.promptVersion == w.promptVersion && v.modelName == w.modelName
    requires v.retrievalEnabled == w.retrievalEnabled && v.llmJudgeEnabled == w.llmJudgeEnabled
    requires v.seed == w.seed
    ensures BuildRunKey(h, v) == BuildRunKey(h, w)
  {
  }

  datatype Fingerprints = Fingerprints(
    datasetFingerprint: string,
    promptFingerprint: string,
    configFingerprint: string,
    experimentSignature: string)

  function DatasetPayload(name: string, version: string, checksum: string): (p: Dict<string, Json>)
    ensures Flat(p) && DistinctKeys(p)
  {
    [("dataset_name", JStr(name)), ("dataset_version", JStr(version)), ("dataset_checksum", JStr(checksum))]
  }

  function PromptPayload(promptVersion: string, template: string): (p: Dict<string, Json>)
    ensures Flat(p) && DistinctKeys(p)
  {
    [("prompt_version", JStr(promptVersion)), ("prompt_template", JStr(template))]
  }

  function ConfigPayload(h: Hashing, v: VariantConfig, promptFingerprint: string, datasetFingerprint: string)
    : (p: Dict<string, Json>)
    ensures Flat(p) && DistinctKeys(p)
  {
    [("model_name", JStr(v.modelName)),
     ("retrieval_enabled", JBool(v.retrievalEnabled)),
     ("llm_judge_enabled", JBool(v.llmJudgeEnabled)),
     ("llm_judge_model", OptionalText(v.llmJudgeModel)),
     ("temperature", JStr(h.fixed6(v.temperature))),
     ("seed", JInt(v.seed)),
     ("prompt_fingerprint", JStr(promptFingerprint)),
     ("dataset_fingerprint", JStr(datasetFingerprint))]
  }

  function SignaturePayload(datasetFingerprint: string, promptFingerprint: string, configFingerprint: string)
    : (p: Dict<string, Json>)
    ensures Flat(p) && DistinctKeys(p)
  {
    [("dataset_fingerprint", JStr(datasetFingerprint)),
     ("prompt_fingerprint", JStr(promptFingerprint)),
     ("config_fingerprint", JStr(configFingerprint)),
     ("platform_version", JStr("1"))]
  }

  /** `build_fingerprints` for a variant and the dataset's checksum. */
  function BuildFingerprints(h: Hashing, v: VariantConfig, checksum: string): (f: Fingerprints)
    ensures f.datasetFingerprint == StableHash(h, DatasetPayload(v.datasetName, v.datasetVersion, checksum))
    ensures f.promptFingerprint == StableHash(h, PromptPayload(v.promptVersion, v.promptTemplate))
    ensures f.configFingerprint == StableHash(h, ConfigPayload(h, v, f.promptFingerprint, f.datasetFingerprint))
    ensures f.experimentSignature
            == StableHash(h, SignaturePayload(f.datasetFingerprint, f.promptFingerprint, f.configFingerprint))
  {
    var dataset := StableHash(h, DatasetPayload(v.datasetName, v.datasetVersion, checksum));
    var prompt := StableHash(h, PromptPayload(v.promptVersion, v.promptTemplate));
    var config := StableHash(h, ConfigPayload(h, v, prompt, dataset));
    Fingerprints(dataset, prompt, config, StableHash(h, SignaturePayload(dataset, prompt, config)))
  }

  /** The dataset fingerprint sees only the dataset's name, version and
      checksum; the prompt fingerprint only the prompt version and
      template. */
  lemma FingerprintScopes(h: Hashing, v: VariantConfig, w: VariantConfig, c: string, d: string)
    ensures v.datasetName == w.datasetName && v.datasetVersion == w.datasetVersion && c == d
            ==> BuildFingerprints(h, v, c).datasetFingerprint == BuildFingerprints(h, w, d).datasetFingerprint
    ensures v.promptVersion == w.promptVersion && v.promptTemplate == w.promptTemplate
            ==> BuildFingerprints(h, v, c).promptFingerprint == BuildFingerprints(h, w, d).promptFingerprint
  {
  }

  /** With injective primitives the prompt fingerprint tells templates
      apart. */
  lemma PromptFingerprintSeesTemplate(h: Hashing, v: VariantConfig, w: VariantConfig, c: string)
    requires Injective(h.dumps) && Injective(h.sha256)
    requires v.promptTemplate != w.promptTemplate
    ensures BuildFingerprints(h, v, c).promptFingerprint != BuildFingerprints(h, w, c).promptFingerprint
  {
    var a, b := PromptPayload(v.promptVersion, v.promptTemplate), PromptPayload(w.promptVersion, w.promptTemplate);
    if StableHash(h, a) == StableHash(h, b) {
      SameEntry(h, a, b, "prompt_template", a[1].1, b[1].1);
    }
  }

  /** With injective primitives a change of checksum reaches every
      fingerprint but the prompt's: the dataset fingerprint, the config
      fingerprint that covers it, and the experiment signature. */
  lemma ChecksumReachesSignature(h: Hashing, v: VariantConfig, c: string, d: string)
    requires Injective(h.dumps) && Injective(h.sha256)
    requires c != d
    ensures var f, g := BuildFingerprints(h, v, c), BuildFingerprints(h, v, d);
      f.datasetFingerprint != g.datasetFingerprint
      && f.configFingerprint != g.configFingerprint
      && f.experimentSignature != g.experimentSignature
  {
    var f, g := BuildFingerprints(h, v, c), BuildFingerprints(h, v, d);
    var da, db := DatasetPayload(v.datasetName, v.datasetVersion, c), DatasetPayload(v.datasetName, v.datasetVersion, d);
    if f.datasetFingerprint == g.datasetFingerprint {
      SameEntry(h, da, db, "dataset_checksum", da[2].1, db[2].1);
    }
    var ca := ConfigPayload(h, v, f.promptFingerprint, f.datasetFingerprint);
    var cb := ConfigPayload(h, v, g.promptFingerprint, g.datasetFingerprint);
    if f.configFingerprint == g.configFingerprint {
      SameEntry(h, ca, cb, "dataset_fingerprint", ca[7].1, cb[7].1);
    }
    var sa := SignaturePayload(f.datasetFingerprint, f.promptFingerprint, f.configFingerprint);
    var sb := SignaturePayload(g.datasetFingerprint, g.promptFingerprint, g.configFingerprint);
    if f.experimentSignature == g.experimentSignature {
      SameEntry(h, sa, sb, "dataset_fingerprint", sa[0].1, sb[0].1);
    }
  }

  /** With injective primitives, config payloads that differ in one entry
      hash apart. */
  lemma ConfigPayloadsDiffer(h: Hashing, v: VariantConfig, w: VariantConfig, pv: string, dv: string,
                             pw: string, dw: string, i: nat)
    requires Injective(h.dumps) && Injective(h.sha256)
    requires i < 8
    requires ConfigPayload(h, v, pv, dv)[i] != ConfigPayload(h, w, pw, dw)[i]
    ensures StableHash(h, ConfigPayload(h, v, pv, dv)) != StableHash(h, ConfigPayload(h, w, pw, dw))
  {
    var ca, cb := ConfigPayload(h, v, pv, dv), ConfigPayload(h, w, pw, dw);
    assert ca[i].0 == cb[i].0;
    if StableHash(h, ca) == StableHash(h, cb) {
      SameEntry(h, ca, cb, ca[i].0, ca[i].1, cb[i].1);
    }
  }

  /** With injective primitives the config fingerprint sees the
      temperature as rendered to six decimals: over the same prompt and
      dataset fingerprints, two renderings give two config fingerprints. */
  lemma ConfigFingerprintSeesTemperature(h: Hashing, v: VariantConfig, w: VariantConfig,
                                         promptFingerprint: string, datasetFingerprint: string)
    requires Injective(h.dumps) && Injective(h.sha256)
    requires h.fixed6(v.temperature) != h.fixed6(w.temperature)
    ensures StableHash(h, ConfigPayload(h, v, promptFingerprint, datasetFingerprint))
            != StableHash(h, ConfigPayload(h, w, promptFingerprint, datasetFingerprint))
  {
    ConfigPayloadsDiffer(h, v, w, promptFingerprint, datasetFingerprint, promptFingerprint, datasetFingerprint, 4);
  }

  /** With injective primitives the config fingerprint sees the judge
      model, absent or named. */
  lemma ConfigFingerprintSeesJudgeModel(h: Hashing, v: VariantConfig, w: VariantConfig,
                                        promptFingerprint: string, datasetFingerprint: string)
    requires Injective(h.dumps) && Injective(h.sha256)
    requires v.llmJudgeModel != w.llmJudgeModel
    ensures StableHash(h, ConfigPayload(h, v, promptFingerprint, datasetFingerprint))
            != StableHash(h, ConfigPayload(h, w, promptFingerprint, datasetFingerprint))
  {
    assert OptionalText(v.llmJudgeModel) != OptionalText(w.llmJudgeModel);
    ConfigPayloadsDiffer(h, v, w, promptFingerprint, datasetFingerprint, promptFingerprint, datasetFingerprint, 3);
  }
}
