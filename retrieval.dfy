/** The context line prepended to a prompt when retrieval is enabled. */
module Retrieval {
  import opened Text
  import opened Dicts
  import opened Models

  const ContextHead := "[retrieval-context] domain="
  const DifficultyLabel := "; difficulty="

  /** `build_retrieval_context`: the item's domain and difficulty tags,
      "general" and "unknown" when absent. */
  function BuildRetrievalContext(item: DatasetItem): (r: string)
    ensures IsPrefix(ContextHead, r)
    ensures var domain := GetOr(item.tags, "domain", "general");
      r[|ContextHead|..] == domain + DifficultyLabel + GetOr(item.tags, "difficulty", "unknown")
  {
    ContextHead + GetOr(item.tags, "domain", "general") + DifficultyLabel + GetOr(item.tags, "difficulty", "unknown")
  }

  /** An untagged item gets both defaults. */
  lemma UntaggedContext(item: DatasetItem)
    requires !HasKey(item.tags, "domain") && !HasKey(item.tags, "difficulty")
    ensures BuildRetrievalContext(item) == "[retrieval-context] domain=general; difficulty=unknown"
  {
  }

  /** Only the "domain" and "difficulty" tags matter. */
  lemma ContextDependsOnTwoTags(a: DatasetItem, b: DatasetItem)
    requires Get(a.tags, "domain") == Get(b.tags, "domain")
    requires Get(a.tags, "difficulty") == Get(b.tags, "difficulty")
    ensures BuildRetrievalContext(a) == BuildRetrievalContext(b)
  {
  }

  /** At the same difficulty, different domains give different contexts:
      the context names the domain unambiguously. */
  lemma ContextNamesDomain(a: DatasetItem, b: DatasetItem)
    requires GetOr(a.tags, "difficulty", "unknown") == GetOr(b.tags, "difficulty", "unknown")
    requires BuildRetrievalContext(a) == BuildRetrievalContext(b)
    ensures GetOr(a.tags, "domain", "general") == GetOr(b.tags, "domain", "general")
  {
    var da, db := GetOr(a.tags, "domain", "general"), GetOr(b.tags, "domain", "general");
    var tail := DifficultyLabel + GetOr(a.tags, "difficulty", "unknown");
    var ra, rb := BuildRetrievalContext(a), BuildRetrievalContext(b);
    assert ra[|ContextHead|..] == da + tail;
    assert rb[|ContextHead|..] == db + tail;
    assert |da| == |db|;
    assert da == (da + tail)[..|da|];
  }
}
