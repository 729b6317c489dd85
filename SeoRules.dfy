/** The static SEO rule table: rule key to target column, comparison
    operator, optional threshold and the sentence answered on success. */
module SeoRules {
  import opened Wrappers
  import opened Text
  import opened Frame

  datatype Rule = Rule(description: string, column: string, operator: string, threshold: Option<Cell>)

  const Rules: map<string, Rule> := map[
    "long_title" := Rule("Title tags longer than recommended length", "title 1 length", ">", Some(Int(60))),
    "missing_meta" := Rule("Pages missing meta descriptions", "meta description 1", "isnull", None),
    "non_indexable" := Rule("Non-indexable pages", "indexability", "!=", Some(Str("Indexable")))
  ]

  /** `rule.get("threshold")`: a rule without one reads as `None`. */
  function ThresholdOf(rule: Rule): (t: Cell)
    ensures rule.threshold.None? ==> t == Null
    ensures rule.threshold.Some? ==> t == rule.threshold.value
  {
    rule.threshold.GetOr(Null)
  }

  /** The operators the agent gives a branch of its own. */
  predicate IsHandledOperator(op: string) {
    op == ">" || op == "!=" || op == "isnull"
  }

  lemma RuleKeys()
    ensures Rules.Keys == {"long_title", "missing_meta", "non_indexable"}
    ensures |Rules| == 3
  {
    assert Rules.Keys == {"long_title", "missing_meta", "non_indexable"};
  }

  lemma LongTitleRule()
    ensures Rules["long_title"].column == "title 1 length"
    ensures Rules["long_title"].operator == ">"
    ensures ThresholdOf(Rules["long_title"]) == Int(60)
    ensures IsLower(Rules["long_title"].column) && IsStripped(Rules["long_title"].column)
  {
  }

  lemma MissingMetaRule()
    ensures Rules["missing_meta"].column == "meta description 1"
    ensures Rules["missing_meta"].operator == "isnull"
    ensures Rules["missing_meta"].threshold.None?
    ensures ThresholdOf(Rules["missing_meta"]) == Null
    ensures IsLower(Rules["missing_meta"].column) && IsStripped(Rules["missing_meta"].column)
  {
  }

  lemma NonIndexableRule()
    ensures Rules["non_indexable"].column == "indexability"
    ensures Rules["non_indexable"].operator == "!="
    ensures ThresholdOf(Rules["non_indexable"]) == Str("Indexable")
    ensures IsLower(Rules["non_indexable"].column) && IsStripped(Rules["non_indexable"].column)
  {
  }

  /** No rule of the table falls through to the agent's pass-through branch. */
  lemma EveryOperatorHandled()
    ensures forall k :: k in Rules ==> IsHandledOperator(Rules[k].operator)
  {
  }
}
