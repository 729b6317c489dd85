/** `QueryResponse`: an answer and optional data. The data the router can
    return take one of a few shapes, listed here. */
module ResponseSchema {
  import opened Wrappers
  import Frame
  import Ga4PlanSchema
  import IntentSchema
  import Ga4Agent

  datatype Payload =
    | NoData
    /** The SEO agent's list of page identifiers. */
    | Identifiers(ids: seq<Frame.Cell>)
    /** `{"error": <message>}`. */
    | ErrorDetail(error: string)
    /** The analytics reply: plan, page filter, time-series flag, report. */
    | AnalyticsData(queryPlan: Ga4PlanSchema.Ga4QueryPlan, pagePathFilter: Option<string>,
                    timeSeries: bool, result: Ga4Agent.ReportResult)
    /** The intent plan, for intents no agent handles. */
    | PlanData(plan: IntentSchema.RawIntentPlan)

  datatype Response = Response(answer: string, data: Payload)
}
