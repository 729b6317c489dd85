/** A second, unused SEO planner: its own keyword list and its own rule
    priorities, with rule keys of which only long_title is in the table. */
module SeoPlanner {
  import opened Wrappers
  import opened Text
  import opened SeoRules

  const SeoKeywords: seq<string> :=
    ["title", "meta", "h1", "seo", "index", "noindex", "canonical", "redirect", "https", "status", "crawl"]

  /** `any(k in q for k in seo_keywords)` on the lower-cased query. */
  predicate IsSeoQuery(query: string) {
    exists k | k in SeoKeywords :: Contains(Lower(query), k)
  }

  predicate AsksLongTitle(q: string) {
    Contains(q, "title") && (Contains(q, "60") || Contains(q, "long"))
  }

  predicate AsksNoindex(q: string) {
    Contains(q, "noindex") || (Contains(q, "index") && Contains(q, "no"))
  }

  function MapQueryToSeoRule(query: string): (r: Option<string>)
    ensures r.Some? ==> r.value in {"long_title", "non_https", "noindex", "redirects"}
  {
    var q := Lower(query);
    if AsksLongTitle(q) then Some("long_title")
    else if Contains(q, "https") then Some("non_https")
    else if AsksNoindex(q) then Some("noindex")
    else if Contains(q, "redirect") then Some("redirects")
    else None
  }

  lemma ElevenKeywords()
    ensures |SeoKeywords| == 11
  {
  }

  /** The fixed priority order: long_title, then non_https, then noindex,
      then redirects, and None when nothing matched. */
  lemma PriorityOrder(query: string)
    ensures var q := Lower(query);
            var r := MapQueryToSeoRule(query);
            && (r == Some("long_title") <==> AsksLongTitle(q))
            && (r == Some("non_https") <==> !AsksLongTitle(q) && Contains(q, "https"))
            && (r == Some("noindex") <==> !AsksLongTitle(q) && !Contains(q, "https") && AsksNoindex(q))
            && (r == Some("redirects") <==> !AsksLongTitle(q) && !Contains(q, "https") && !AsksNoindex(q)
                                            && Contains(q, "redirect"))
            && (r.None? <==> !AsksLongTitle(q) && !Contains(q, "https") && !AsksNoindex(q)
                             && !Contains(q, "redirect"))
  {
  }

  /** Every query this planner maps to a rule is also one it calls an SEO query. */
  lemma {:induction false} RuleImpliesSeoQuery(query: string)
    requires MapQueryToSeoRule(query).Some?
    ensures IsSeoQuery(query)
  {
    var q := Lower(query);
    if AsksLongTitle(q) {
      assert SeoKeywords[0] == "title";
    } else if Contains(q, "https") {
      assert SeoKeywords[8] == "https";
    } else if Contains(q, "noindex") {
      assert SeoKeywords[5] == "noindex";
    } else if AsksNoindex(q) {
      assert SeoKeywords[4] == "index";
    } else {
      assert SeoKeywords[7] == "redirect";
    }
  }

  /** Apart from long_title, the keys this planner yields are not in the
      rule table. */
  lemma {:induction false} OnlyLongTitleIsARuleKey(query: string)
    requires MapQueryToSeoRule(query).Some?
    ensures MapQueryToSeoRule(query).value in Rules <==> MapQueryToSeoRule(query) == Some("long_title")
  {
    RuleKeys();
  }
}
