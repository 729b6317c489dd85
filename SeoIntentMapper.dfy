/** The SEO keyword mapper the orchestrator uses: first matching keyword
    combination wins, tested on the lower-cased query. */
module SeoIntentMapper {
  import opened Wrappers
  import opened Text
  import opened SeoRules

  predicate AsksTitleLength(q: string) {
    Contains(q, "title") && Contains(q, "length")
  }

  predicate AsksMissingMeta(q: string) {
    Contains(q, "meta description") && (Contains(q, "missing") || Contains(q, "empty"))
  }

  predicate AsksIndexability(q: string) {
    Contains(q, "indexable") || Contains(q, "indexability")
  }

  function MapSeoQueryToRule(query: string): (r: Option<string>)
    ensures r.Some? ==> r.value in Rules
  {
    var q := Lower(query);
    if AsksTitleLength(q) then Some("long_title")
    else if AsksMissingMeta(q) then Some("missing_meta")
    else if AsksIndexability(q) then Some("non_indexable")
    else None
  }

  /** The mapping ignores letter case: the query and its lower-cased form
      map to the same rule. */
  lemma CaseInsensitive(query: string)
    ensures MapSeoQueryToRule(Lower(query)) == MapSeoQueryToRule(query)
  {
    LowerIdempotent(query);
  }

  /** "title" with "length" selects long_title, ahead of every other rule. */
  lemma TitleLengthFirst(query: string)
    ensures MapSeoQueryToRule(query) == Some("long_title") <==> AsksTitleLength(Lower(query))
  {
  }

  /** "meta description" with "missing" or "empty" selects missing_meta
      exactly when the title rule did not fire. */
  lemma MissingMetaSecond(query: string)
    ensures MapSeoQueryToRule(query) == Some("missing_meta")
            <==> !AsksTitleLength(Lower(query)) && AsksMissingMeta(Lower(query))
  {
  }

  /** "indexable" or "indexability" selects non_indexable only when neither
      earlier rule fired. */
  lemma NonIndexableThird(query: string)
    ensures MapSeoQueryToRule(query) == Some("non_indexable")
            <==> !AsksTitleLength(Lower(query)) && !AsksMissingMeta(Lower(query))
                 && AsksIndexability(Lower(query))
  {
  }

  lemma NoMatchIsNone(query: string)
    ensures MapSeoQueryToRule(query).None?
            <==> !AsksTitleLength(Lower(query)) && !AsksMissingMeta(Lower(query))
                 && !AsksIndexability(Lower(query))
  {
  }

  const MissingMetaQuestion := "are our meta descriptions missing"

  /** The example question fires the second test and not the first. */
  lemma MissingMetaQuestionWords()
    ensures !AsksTitleLength(MissingMetaQuestion) && AsksMissingMeta(MissingMetaQuestion)
  {
    NotContainsMissingChar(MissingMetaQuestion, "title", 'l');
    ContainsAt(MissingMetaQuestion, "meta description", 8);
    ContainsAt(MissingMetaQuestion, "missing", 26);
  }

  /** The question "are our meta descriptions missing" asks for missing_meta. */
  lemma MissingMetaExample()
    ensures MapSeoQueryToRule(MissingMetaQuestion) == Some("missing_meta")
  {
    assert IsLower(MissingMetaQuestion) by {
      forall i | 0 <= i < |MissingMetaQuestion|
        ensures !IsUpper(MissingMetaQuestion[i])
      {
      }
    }
    LowerOfLower(MissingMetaQuestion);
    MissingMetaQuestionWords();
  }
}
