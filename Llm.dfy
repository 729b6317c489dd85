/** The chat client. The remote completion endpoint is the `ChatModel`
    oracle; the client adds only its guard: without an API key every
    call fails with "LLM not available". */
module Llm {
  import opened Wrappers
  import opened Ga4Agent

  datatype Role = System | User

  /** The prompt constants, by name; their wording has no behaviour here. */
  datatype Prompt = IntentDetectionPrompt | Ga4SummaryPrompt

  /** A message body: a named prompt, plain text, or the summariser's
      query together with the report rows it quotes. */
  datatype Content = Instructions(prompt: Prompt) | Text(text: string) | QueryAndRows(query: string, rows: seq<ReportRow>)

  datatype Message = Message(role: Role, content: Content)

  /** The completion endpoint: a reply, or the text of the exception raised. */
  type ChatModel = seq<Message> -> Result<string, string>

  const NotAvailable := "LLM not available"

  /** `LiteLLMClient`, reduced to the key it read from the environment. */
  datatype LlmClient = LlmClient(apiKey: Option<string>) {
    /** `bool(api_key)`: a key that is set and non-empty. */
    predicate Enabled() {
      apiKey.Some? && apiKey.value != []
    }
  }

  /** `chat`. */
  function Chat(llm: LlmClient, model: ChatModel, messages: seq<Message>): (r: Result<string, string>)
    ensures !llm.Enabled() ==> r == Failure(NotAvailable)
    ensures llm.Enabled() ==> r == model(messages)
  {
    if llm.Enabled() then model(messages) else Failure(NotAvailable)
  }

  /** A disabled client never consults the model: any two models agree. */
  lemma DisabledIgnoresModel(llm: LlmClient, m1: ChatModel, m2: ChatModel, messages: seq<Message>)
    requires !llm.Enabled()
    ensures Chat(llm, m1, messages) == Chat(llm, m2, messages)
    ensures Chat(llm, m1, messages).Failure?
  {
  }
}
