/** The GA4 allowlists that every report request is filtered through. */
module Ga4Validator {

  const AllowedMetrics: set<string> :=
    {"users", "sessions", "screenPageViews", "eventCount", "engagedSessions"}

  const AllowedDimensions: set<string> :=
    {"date", "pagePath", "sessionSource", "country", "deviceCategory"}

  /** The vocabulary the planner prompt tells the model to choose from. */
  const PromptMetrics: seq<string> := ["users", "sessions", "screenPageViews", "eventCount"]
  const PromptDimensions: seq<string> := ["date", "pagePath", "sessionSource", "country", "deviceCategory"]

  lemma FiveOfEach()
    ensures |AllowedMetrics| == 5 && |AllowedDimensions| == 5
  {
  }

  /** The planner's fallback metric is not allowed, and pagePath, the field
      a page filter tests, is an allowed dimension. */
  lemma NotableMembers()
    ensures "activeUsers" !in AllowedMetrics
    ensures "pagePath" in AllowedDimensions
  {
  }

  /** Every name the planner prompt permits survives the allowlists. */
  lemma PromptVocabularyAllowed()
    ensures forall m :: m in PromptMetrics ==> m in AllowedMetrics
    ensures forall d :: d in PromptDimensions ==> d in AllowedDimensions
  {
  }
}
