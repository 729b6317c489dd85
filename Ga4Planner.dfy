/** `plan_ga4_query`: ask the model for a plan, and on any failure fall back
    to a fixed plan. A parsed plan is returned as the model wrote it. */
module Ga4Planner {
  import opened Wrappers
  import opened Ga4PlanSchema
  import opened Llm
  import Ga4Agent
  import Ga4Validator
  import Ga4Postprocess

  const PlannerRole := "You are a GA4 query planner."

  /** The deterministic fallback: active users, no dimensions, last 7 days. */
  const FallbackPlan := Ga4QueryPlan(["activeUsers"], [], "7daysAgo", "today")

  function PlannerMessages(query: string): (m: seq<Message>)
    ensures |m| == 2 && m[0].role == System && m[1] == Message(User, Text(query))
  {
    [Message(System, Text(PlannerRole)), Message(User, Text(query))]
  }

  /** `parsePlan` is `GA4QueryPlan.model_validate_json`: a plan, or None
      when the reply is not JSON of the plan's shape. */
  function PlanGa4Query(query: string, llm: LlmClient, model: ChatModel,
                        parsePlan: string -> Option<Ga4QueryPlan>): (p: Ga4QueryPlan)
    ensures !llm.Enabled() ==> p == FallbackPlan
    ensures Chat(llm, model, PlannerMessages(query)).Failure? ==> p == FallbackPlan
    ensures p != FallbackPlan ==>
      exists raw :: Chat(llm, model, PlannerMessages(query)) == Success(raw) && parsePlan(raw) == Some(p)
  {
    match Chat(llm, model, PlannerMessages(query))
    case Failure(_) => FallbackPlan
    case Success(raw) =>
      match parsePlan(raw)
      case Some(plan) => plan
      case None => FallbackPlan
  }

  /** A reply that parses is returned unchanged, even naming metrics or
      dimensions the allowlists reject. */
  lemma ParsedPlanReturnedAsIs(query: string, llm: LlmClient, model: ChatModel,
                               parsePlan: string -> Option<Ga4QueryPlan>, raw: string)
    requires Chat(llm, model, PlannerMessages(query)) == Success(raw)
    requires parsePlan(raw).Some?
    ensures PlanGa4Query(query, llm, model, parsePlan) == parsePlan(raw).value
  {
  }

  /** A reply that does not parse gives the fallback. */
  lemma UnparsableReplyFallsBack(query: string, llm: LlmClient, model: ChatModel,
                                 parsePlan: string -> Option<Ga4QueryPlan>, raw: string)
    requires Chat(llm, model, PlannerMessages(query)) == Success(raw)
    requires parsePlan(raw).None?
    ensures PlanGa4Query(query, llm, model, parsePlan) == FallbackPlan
  {
  }

  /** The fallback's metric is not allowlisted and it has no dimensions, so
      the report it leads to asks for users by date. */
  lemma FallbackRunsAsUsersByDate(propertyId: string, pagePath: Option<string>)
    ensures "activeUsers" !in Ga4Validator.AllowedMetrics && FallbackPlan.dimensions == []
    ensures Ga4Agent.BuildRequest(propertyId, FallbackPlan.metrics, FallbackPlan.dimensions,
                                  FallbackPlan.startDate, FallbackPlan.endDate, pagePath).metrics == ["users"]
    ensures Ga4Agent.BuildRequest(propertyId, FallbackPlan.metrics, FallbackPlan.dimensions,
                                  FallbackPlan.startDate, FallbackPlan.endDate, pagePath).dimensions == ["date"]
    ensures Ga4Agent.BuildRequest(propertyId, FallbackPlan.metrics, FallbackPlan.dimensions,
                                  FallbackPlan.startDate, FallbackPlan.endDate, pagePath).dateRanges
         == [Ga4Agent.DateRange("7daysAgo", "today")]
  {
    Ga4Validator.NotableMembers();
  }

  /** Yet the fallback plan itself is not a time series: its own dimension
      list, which is what the router reports, lacks "date". */
  lemma FallbackIsNotTimeSeries()
    ensures !Ga4Postprocess.IsTimeSeries(FallbackPlan.dimensions)
  {
  }
}
