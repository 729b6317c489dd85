/** Post-processing of a GA4 report: the time-series test, the fixed
    explanation for an empty report, and the model-written summary of the
    first ten rows with a fixed fallback. */
module Ga4Postprocess {
  import opened Wrappers
  import opened Seqs
  import opened Ga4Agent
  import opened Llm

  const EmptyResultExplanation :=
    "No GA4 data was found for this query. "
    + "This can happen if there was no traffic during the selected date range "
    + "or if the specified page did not receive any visits."

  const RetrievedFallback := "GA4 data retrieved successfully."

  const SummaryRowLimit := 10

  /** `is_time_series`. */
  predicate IsTimeSeries(dimensions: seq<string>) {
    "date" in dimensions
  }

  /** `explain_empty_result`: the query plays no part in the answer. */
  function ExplainEmptyResult(query: string): (r: string)
    ensures r == EmptyResultExplanation
  {
    EmptyResultExplanation
  }

  lemma ExplanationIgnoresQuery(q1: string, q2: string)
    ensures ExplainEmptyResult(q1) == ExplainEmptyResult(q2)
  {
  }

  /** The two messages the summariser sends: at most ten rows are quoted. */
  function SummaryMessages(query: string, rows: seq<ReportRow>): (m: seq<Message>)
    ensures |m| == 2 && m[0] == Message(System, Instructions(Ga4SummaryPrompt))
    ensures m[1].role == User && m[1].content.QueryAndRows? && m[1].content.query == query
    ensures |m[1].content.rows| <= SummaryRowLimit
    ensures |m[1].content.rows| <= |rows| && m[1].content.rows == rows[..|m[1].content.rows|]
    ensures |rows| >= SummaryRowLimit ==> |m[1].content.rows| == SummaryRowLimit
    ensures |rows| < SummaryRowLimit ==> m[1].content.rows == rows
  {
    [Message(System, Instructions(Ga4SummaryPrompt)),
     Message(User, QueryAndRows(query, Take(rows, SummaryRowLimit)))]
  }

  /** `summarize_ga4_result`. */
  function SummarizeGa4Result(query: string, result: ReportResult, llm: LlmClient, model: ChatModel): (s: string)
    ensures result.rows == [] ==> s == EmptyResultExplanation
    ensures result.rows != [] && !llm.Enabled() ==> s == RetrievedFallback
    ensures result.rows != [] ==>
      match Chat(llm, model, SummaryMessages(query, result.rows))
      case Success(reply) => s == reply
      case Failure(_) => s == RetrievedFallback
  {
    if result.rows == [] then ExplainEmptyResult(query)
    else
      match Chat(llm, model, SummaryMessages(query, result.rows))
      case Success(reply) => reply
      case Failure(_) => RetrievedFallback
  }

  /** An empty report is explained without consulting the model. */
  lemma EmptyReportSkipsModel(query: string, result: ReportResult, llm1: LlmClient, llm2: LlmClient,
                              m1: ChatModel, m2: ChatModel)
    requires result.rows == []
    ensures SummarizeGa4Result(query, result, llm1, m1) == SummarizeGa4Result(query, result, llm2, m2)
  {
  }

  /** Rows past the tenth, and the headers, never reach the model: two
      non-empty reports agreeing on their first ten rows get the same summary. */
  lemma SummaryIgnoresRowsPastTenth(query: string, r1: ReportResult, r2: ReportResult,
                                    llm: LlmClient, model: ChatModel)
    requires r1.rows != [] && r2.rows != []
    requires Take(r1.rows, SummaryRowLimit) == Take(r2.rows, SummaryRowLimit)
    ensures SummarizeGa4Result(query, r1, llm, model) == SummarizeGa4Result(query, r2, llm, model)
  {
    assert SummaryMessages(query, r1.rows) == SummaryMessages(query, r2.rows);
  }
}
