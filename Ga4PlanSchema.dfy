/** `GA4QueryPlan`: four required fields, no constraint on their values.
    Metric and dimension lists may be empty and may name anything; dates
    are free text such as "7daysAgo" or "today". */
module Ga4PlanSchema {

  datatype Ga4QueryPlan = Ga4QueryPlan(
    metrics: seq<string>,
    dimensions: seq<string>,
    startDate: string,
    endDate: string)
}
