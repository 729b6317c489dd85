# Marketing query router: a verified model of its decision layer

The system answers natural-language marketing questions. A router classifies
each question. Analytics questions go to a Google Analytics 4 (GA4) report
agent. SEO questions go to an agent that evaluates one of three audit rules
over a crawl table loaded from a Google Sheet. Anything else gets a fixed
"intent detected" reply. The language model, the GA4 SDK, `pandas.read_csv`
and the credentials file are all outside the model. Each one enters as an
oracle value: a function parameter that returns a result or a failure.

Modules, one per source file, plus four shared helpers:

- `Wrappers`: `Option` and `Result`.
- `Text`: Python's `lower`, `strip` and substring `in`.
- `Seqs`: the order-preserving filter behind list comprehensions.
- `Frame`: a DataFrame as column labels plus rows of `Null | Int | Str` cells.

| module | source |
|---|---|
| `SeoRules` | app/utils/seo_rules.py |
| `SeoIntentMapper` | app/utils/seo_intent_mapper.py |
| `SeoPlanner` | app/utils/seo_planner.py |
| `SeoLoader` | app/utils/seo_loader.py |
| `SeoAgent` | app/agents/seo_agent.py |
| `Ga4Validator` | app/utils/ga4_validator.py |
| `Ga4PlanSchema` | app/schemas/ga4_plan.py |
| `IntentSchema` | app/schemas/intent.py |
| `ResponseSchema` | app/schemas/response.py |
| `Llm` | app/llm/client.py |
| `Ga4Planner` | app/utils/ga4_planner.py |
| `Ga4Agent` | app/agents/ga4_agent.py |
| `Ga4Postprocess` | app/utils/ga4_postprocess.py |
| `Orchestrator` | app/orchestrator.py |

Most of the source is pure: branches, comprehensions and early returns. It
becomes functions and lemmas. The one piece of state is the GA4 agent's
lazily created client. It becomes the class `Ga4Agent.Agent`, with a
`client` field and the methods `InitClient` and `RunReport`.

- `RunReport` is proved equal to the pure `RunReportSpec`.
- `Orchestrator.Handle` threads that object through a request. It is proved
  equal to the pure `Orchestrator.Orchestrate`.

The SEO agent only ever reads the table it loaded, so it is a value.

Notes on the code's behaviour:

- Column lookup in the SEO agent is exact membership in the loaded column
  labels, not a case-insensitive substring match. The worked example with
  a column "Title 1 Length" still works, but only because the loader
  lower-cases and strips every label first.
- The GA4 planner's fallback plan is metrics `["activeUsers"]`, no
  dimensions, `"7daysAgo"` to `"today"`. It is not users by date over a
  computed window. Only `run_report`'s default substitution turns it into
  users by date.
- There is no path-extraction routine. `extract_page_path` is imported by
  the router from the GA4 planner module (app/orchestrator.py:9) but defined
  nowhere. That import raises ImportError, so the router as written cannot
  be imported at all. The model treats the page path as an input.
- The chat client makes one call, with no retry or backoff.
- The planner sends the model the one-line system message "You are a GA4
  query planner.". It does not send the longer planner prompt, which is
  defined but unused.

pandas comparison semantics, as modelled (pandas 2.x):

- A column without text is numeric. `column > text` raises TypeError on it.
- A column holding text is compared cell by cell. Comparing a number with
  text raises.
- A missing cell fails `>` and passes `!=`. A missing threshold (`None`)
  makes `>` keep nothing and `!=` keep everything.
- `!=` and `isnull` never raise.

## Model

| member | source | states |
|---|---|---|
| SeoRules.RuleKeys | app/utils/seo_rules.py:1-19 | The rule table has exactly the three keys long_title, missing_meta and non_indexable. |
| SeoRules.LongTitleRule | app/utils/seo_rules.py:2-7 | long_title tests column "title 1 length" with ">" against 60; the column label is lower-case and trimmed. |
| SeoRules.MissingMetaRule | app/utils/seo_rules.py:8-12 | missing_meta uses "isnull" on "meta description 1" and has no threshold, which the agent reads as None. |
| SeoRules.NonIndexableRule | app/utils/seo_rules.py:13-18 | non_indexable tests "indexability" with "!=" against the text "Indexable". |
| SeoRules.EveryOperatorHandled | app/utils/seo_rules.py:5-16 | Every rule's operator is one the agent handles in a branch of its own, so no table rule reaches the pass-through branch. |
| SeoRules.ThresholdOf | app/agents/seo_agent.py:50 | A rule without a threshold yields None (a missing cell); otherwise its threshold. |
| SeoIntentMapper.MapSeoQueryToRule | app/utils/seo_intent_mapper.py:1-13 | Every rule the mapper returns is a key of the rule table. |
| SeoIntentMapper.CaseInsensitive | app/utils/seo_intent_mapper.py:2 | The query and its lower-cased form map to the same rule. |
| SeoIntentMapper.TitleLengthFirst | app/utils/seo_intent_mapper.py:4-5 | The result is long_title exactly when the lower-cased query contains "title" and "length". |
| SeoIntentMapper.MissingMetaSecond | app/utils/seo_intent_mapper.py:7-8 | The result is missing_meta exactly when the title rule does not fire and the query contains "meta description" with "missing" or "empty". |
| SeoIntentMapper.NonIndexableThird | app/utils/seo_intent_mapper.py:10-11 | The result is non_indexable exactly when neither earlier rule fires and "indexable" or "indexability" occurs. |
| SeoIntentMapper.NoMatchIsNone | app/utils/seo_intent_mapper.py:13 | The result is None exactly when no keyword combination matches. |
| SeoIntentMapper.MissingMetaExample | app/utils/seo_intent_mapper.py:7-8 | "are our meta descriptions missing" maps to missing_meta. |
| SeoPlanner.IsSeoQuery | app/utils/seo_planner.py:3-18 | Holds when the lower-cased query contains one of the eleven SEO keywords. |
| SeoPlanner.ElevenKeywords | app/utils/seo_planner.py:4-16 | The SEO-query keyword list has eleven entries. |
| SeoPlanner.MapQueryToSeoRule | app/utils/seo_planner.py:21-36 | The planner only ever yields long_title, non_https, noindex or redirects. |
| SeoPlanner.PriorityOrder | app/utils/seo_planner.py:24-34 | Each key is returned exactly when its test holds and no earlier test does: title with 60/long, then https, then noindex (or both "index" and "no"), then redirect. |
| SeoPlanner.RuleImpliesSeoQuery | app/utils/seo_planner.py:3-34 | Whenever the planner yields a rule, is_seo_query holds for the same query. |
| SeoPlanner.OnlyLongTitleIsARuleKey | app/utils/seo_planner.py:27-34 | A yielded key is in the rule table exactly when it is long_title. |
| SeoLoader.FirstMatch | app/utils/seo_loader.py:9-10 | The leftmost position at or after the start where the pattern matches, with no match before it. |
| SeoLoader.FirstMatchIsLeast | app/utils/seo_loader.py:9-10 | A match with no earlier match is the one the search finds. |
| SeoLoader.RunEnd | app/utils/seo_loader.py:9-10 | The greedy `+` run: every character up to the end is in the class and the next one is not. |
| SeoLoader.RunEndIsMaximal | app/utils/seo_loader.py:9-10 | Any maximal run is the run found. |
| SeoLoader.Group | app/utils/seo_loader.py:9-16 | There is no group exactly when the pattern matches nowhere. Otherwise the group is the maximal non-empty run of class characters after the literal, at the leftmost match. |
| SeoLoader.ConvertGoogleSheetToCsv | app/utils/seo_loader.py:5-21 | Fails with "Invalid Google Sheets URL" exactly when no "/d/<id>" is found; otherwise returns the export link of the id after the first "/d/" and the digits after the first "gid=", or "0" when there is no gid. |
| SeoLoader.ExportUrlLayout | app/utils/seo_loader.py:18-21 | The export link is the 39-character prefix, the id, the 23-character infix and the gid, in that order. |
| SeoLoader.PrefixSlashD | app/utils/seo_loader.py:19 | The fixed prefix holds "/d/" only at its end and holds no "=". |
| SeoLoader.InfixEquals | app/utils/seo_loader.py:20 | The fixed infix holds "=" only after "format" and after its closing "gid". |
| SeoLoader.LaidOutSheetId | app/utils/seo_loader.py:9-15 | In an export link, the id pattern recovers exactly the id. |
| SeoLoader.LaidOutNoEarlyGid | app/utils/seo_loader.py:10 | An export link holds no "gid=" before the gid's own. |
| SeoLoader.LaidOutGid | app/utils/seo_loader.py:10-16 | In an export link, the gid pattern recovers exactly the gid. |
| SeoLoader.ConvertExportUrl | app/utils/seo_loader.py:18-21 | Converting an export link returns it unchanged. |
| SeoLoader.ConvertIdempotent | app/utils/seo_loader.py:18-38 | Converting a converted link gives the same result again. |
| SeoLoader.NormalizeColumn | app/utils/seo_loader.py:41 | A normalised label has no upper-case letter and no leading or trailing whitespace. |
| SeoLoader.LowerPreservesStripped | app/utils/seo_loader.py:41 | Lower-casing keeps a trimmed label trimmed. |
| SeoLoader.NormalizeIdempotent | app/utils/seo_loader.py:41 | Normalising twice equals normalising once. |
| SeoLoader.NormalizeFixesNormal | app/utils/seo_loader.py:41 | A label that is already lower-case and trimmed is unchanged. |
| SeoLoader.RuleColumnNormalised | app/utils/seo_rules.py:4-15 | Every rule's column label is a fixed point of normalisation, so it can equal a loaded label. |
| SeoLoader.NormalizeColumns | app/utils/seo_loader.py:41 | Normalisation keeps the number and order of labels and normalises each one. |
| SeoLoader.ReadTarget | app/utils/seo_loader.py:36-38 | A Sheets link is read as its converted export link, or fails as the conversion does; any other source is read as given. |
| SeoLoader.LoadSeoData | app/utils/seo_loader.py:24-46 | A missing or empty source gives the empty table without a read, and every loaded column label is normalised. |
| SeoLoader.LoadedTable | app/utils/seo_loader.py:40-42 | A successful read keeps the rows as read and renames each column by normalisation. |
| SeoLoader.LoadFailureIsEmpty | app/utils/seo_loader.py:12-46 | A Sheets link whose conversion fails, or a source whose read fails, loads the empty table. |
| SeoLoader.IdlessSheetLinkLoadsEmpty | app/utils/seo_loader.py:9-46 | A Sheets link with no "/d/<id>" fails conversion with "Invalid Google Sheets URL" and loads the empty table without a read. |
| SeoLoader.ExportUrlReadsItself | app/utils/seo_loader.py:27-38 | An export link goes through conversion and is read unchanged. |
| SeoLoader.LoadExportLinkSameAsEditLink | app/utils/seo_loader.py:27-40 | A Sheets edit link and its export link load the same table. |
| SeoAgent.NewAgent | app/agents/seo_agent.py:17-25 | The agent keeps its source, and its table is exactly what the loader returns for that source. A missing or empty source gives an empty table. Every loaded label is already normalised. |
| SeoAgent.StrLessTransitive | app/agents/seo_agent.py:63 | Text comparison is transitive. |
| SeoAgent.StrLessTrichotomy | app/agents/seo_agent.py:63 | Exactly one of less, equal or greater holds; with transitivity, text comparison is a strict total order. |
| SeoAgent.Matches | app/agents/seo_agent.py:62-72 | The kept rows come from the table, and a row is kept exactly when its cell passes the operator's test. |
| SeoAgent.MatchesConcat | app/agents/seo_agent.py:62-72 | Filtering distributes over concatenation, so table order is preserved. |
| SeoAgent.MatchesIsFilter | app/agents/seo_agent.py:62-72 | The row mask equals the generic order-preserving filter with the operator's test. |
| SeoAgent.MatchesOne | app/agents/seo_agent.py:62-72 | A single row is kept exactly when its cell passes. |
| SeoAgent.MatchesPair | app/agents/seo_agent.py:62-72 | Two rows are kept exactly as each is kept alone, in order. |
| SeoAgent.OtherOperatorKeepsAll | app/agents/seo_agent.py:71-72 | An operator without a branch keeps every row. |
| SeoAgent.OperatorMeaning | app/agents/seo_agent.py:62-70 | ">" against a number keeps exactly the larger numbers; "!=" against text keeps every other cell; "isnull" keeps exactly the missing cells; with no threshold, ">" keeps nothing and "!=" keeps everything. |
| SeoAgent.IdentifierIndex | app/agents/seo_agent.py:74-78 | The identifier column is "address" when present, otherwise the first column. |
| SeoAgent.Evaluate | app/agents/seo_agent.py:60-83 | Fails exactly when ">" raises on the column. Otherwise it returns at most 50 identifiers: the first min(50, n) matching rows' identifiers, in table order. |
| SeoAgent.Run | app/agents/seo_agent.py:27-89 | An empty table gives the no-data answer before the key is checked. An unknown key gives "Unsupported SEO analysis request.". A missing column gives an answer naming it. Otherwise the reply follows `Evaluate`. Its identifiers come with the rule's description; a raised comparison gives "Failed to process SEO analysis." with the error text. |
| SeoAgent.EmptyTableAnyKey | app/agents/seo_agent.py:33-37 | On an empty table every key, valid or not, gets the same answer. |
| SeoAgent.SuccessIdentifiers | app/agents/seo_agent.py:62-83 | Every returned identifier is the identifier cell of a table row that passes the rule. |
| SeoAgent.PlannerKeysUnsupported | app/utils/seo_planner.py:27-34 | On a loaded table, the unused planner's keys other than long_title are answered as unsupported. |
| SeoAgent.LongTitleExampleMatches | app/agents/seo_agent.py:62-64 | Title lengths 45, 75, 60, 90 against "> 60" keep the second and fourth rows. |
| SeoAgent.LongTitleExampleEvaluate | app/agents/seo_agent.py:62-78 | Evaluating long_title on the four example pages yields exactly the addresses "/b" and "/d". |
| SeoAgent.LongTitleExample | app/agents/seo_agent.py:27-83 | The same table through `run` gives the rule's description and the two long-title addresses. |
| SeoAgent.TextInLengthColumnFails | app/agents/seo_agent.py:62-89 | A text cell in the title-length column makes `>` raise; the reply is the failure answer with Python's TypeError text. |
| Ga4Validator.FiveOfEach | app/utils/ga4_validator.py:3-17 | There are five allowed metrics and five allowed dimensions. |
| Ga4Validator.NotableMembers | app/utils/ga4_validator.py:3-13 | "activeUsers" is not an allowed metric; "pagePath" is an allowed dimension. |
| Ga4Validator.PromptVocabularyAllowed | app/llm/prompts.py:34-35 | Every metric and dimension the planner prompt permits is allowlisted. |
| IntentSchema.ParseIntent | app/schemas/intent.py:9 | An intent parses exactly when it is analytics, seo or multi, and it writes back to the same literal. |
| IntentSchema.ParseAgent | app/schemas/intent.py:5 | A task agent parses exactly when it is analytics or seo. |
| IntentSchema.ValidateTasks | app/schemas/intent.py:4-11 | Tasks validate exactly when every agent does; order, count and goals are kept. |
| IntentSchema.Validate | app/schemas/intent.py:8-11 | A plan validates exactly when its intent and every task agent are in range; the flag and the task count are kept. |
| IntentSchema.IntentNameRoundTrip | app/schemas/intent.py:9 | Writing an intent and parsing it back returns it. |
| IntentSchema.AgentNameRoundTrip | app/schemas/intent.py:5 | Writing a task agent and parsing it back returns it. |
| IntentSchema.ValidateToRaw | app/schemas/intent.py:8-11 | Every plan, written out and validated again, is returned unchanged. |
| IntentSchema.ValidatedWritesBack | app/schemas/intent.py:8-11 | A validated plan writes back to exactly its input. |
| IntentSchema.MultiIsNotAnAgent | app/schemas/intent.py:5-9 | "multi" is a valid intent, but a task naming it fails validation. |
| Llm.Chat | app/llm/client.py:11-17 | Without a non-empty API key every call fails with "LLM not available"; otherwise the endpoint's answer is returned. |
| Llm.DisabledIgnoresModel | app/llm/client.py:16-17 | A disabled client never consults the endpoint. |
| Ga4Planner.PlannerMessages | app/utils/ga4_planner.py:12-15 | Two messages: a system message, then the query as the user message. |
| Ga4Planner.PlanGa4Query | app/utils/ga4_planner.py:4-26 | A disabled model or a failed call gives the fallback plan; any other plan is one the model returned and the decoder accepted. |
| Ga4Planner.ParsedPlanReturnedAsIs | app/utils/ga4_planner.py:17 | A decoded plan is returned unchanged, with no allowlist filtering. |
| Ga4Planner.UnparsableReplyFallsBack | app/utils/ga4_planner.py:17-26 | A reply that does not decode gives the fallback plan. |
| Ga4Planner.FallbackRunsAsUsersByDate | app/utils/ga4_planner.py:19-26 | The fallback's metric is not allowlisted and it has no dimensions, so its request asks for users by date over "7daysAgo" to "today". |
| Ga4Planner.FallbackIsNotTimeSeries | app/utils/ga4_postprocess.py:24-25 | The fallback plan is not a time series by its own dimensions. |
| Ga4Agent.InitializedClient | app/agents/ga4_agent.py:30-42 | An existing client is kept. Otherwise a missing credentials file gives exactly the credentials-missing error. An unreadable file gives another error. A service account gives a new client. |
| Ga4Agent.ClientSetOnce | app/agents/ga4_agent.py:32-33 | Once the client is set, no later initialisation replaces it. |
| Ga4Agent.FailedInitLeavesNoClient | app/agents/ga4_agent.py:35-38 | A failed initialisation leaves the field empty. |
| Ga4Agent.Allowlisted | app/agents/ga4_agent.py:61-68 | The sent list is never empty and holds only allowed names. It is the allowed requested names, or the default alone when none is allowed. |
| Ga4Agent.AllowlistedCounts | app/agents/ga4_agent.py:61-62 | Each allowed name keeps its multiplicity; disallowed names vanish. |
| Ga4Agent.AllowlistedConcat | app/agents/ga4_agent.py:61-62 | Filtering keeps the relative order of the requested names. |
| Ga4Agent.AllowlistedKeepsAllowed | app/agents/ga4_agent.py:61-68 | A non-empty, fully allowed list is sent unchanged. |
| Ga4Agent.AllowlistedIdempotent | app/agents/ga4_agent.py:61-68 | Applying the allowlist twice equals applying it once. |
| Ga4Agent.DefaultsAllowed | app/agents/ga4_agent.py:64-68 | The defaults "users" and "date" are themselves allowlisted. |
| Ga4Agent.PagePathFilter | app/agents/ga4_agent.py:70-81 | A filter exists exactly when the page path is non-empty, and it is a CONTAINS match of that path on "pagePath". |
| Ga4Agent.BuildRequest | app/agents/ga4_agent.py:83-91 | The property is "properties/" plus the id. There is one date range with the dates unchanged, and the allowlisted non-empty metric and dimension lists. |
| Ga4Agent.NothingAllowedMeansUsersByDate | app/agents/ga4_agent.py:64-68 | With nothing allowlisted requested, the request asks for exactly ["users"] by ["date"]. |
| Ga4Agent.Flatten | app/agents/ga4_agent.py:95-105 | Headers keep response order; one row per response row, in order, with its dimension and metric values. |
| Ga4Agent.FlattenLossless | app/agents/ga4_agent.py:95-105 | The response can be rebuilt from the flattened result. |
| Ga4Agent.RunReportSpec | app/agents/ga4_agent.py:44-105 | An initialisation error is returned as is. Once initialised, the endpoint's answer to the shaped request is returned flattened, and its failure is returned as a report error with its text. The credentials error arises only without a client and without a file. |
| Ga4Agent.NoCredentialsNoRequest | app/agents/ga4_agent.py:35-58 | Without a client and a file, the report fails with the credentials message whatever the endpoint would do. |
| Ga4Agent.Agent.constructor | app/agents/ga4_agent.py:27-28 | The client starts unset. |
| Ga4Agent.Agent.InitClient | app/agents/ga4_agent.py:30-42 | Returns the initialisation outcome and sets the field only on success; an existing client is never replaced. |
| Ga4Agent.Agent.RunReport | app/agents/ga4_agent.py:44-105 | Returns what `RunReportSpec` gives for the field on entry and leaves the field as initialisation leaves it. |
| Ga4Postprocess.IsTimeSeries | app/utils/ga4_postprocess.py:24-25 | Holds when "date" is among the dimensions. |
| Ga4Postprocess.ExplainEmptyResult | app/utils/ga4_postprocess.py:27-32 | The explanation is one fixed sentence. |
| Ga4Postprocess.ExplanationIgnoresQuery | app/utils/ga4_postprocess.py:27-32 | Any two queries get the same explanation. |
| Ga4Postprocess.SummaryMessages | app/utils/ga4_postprocess.py:13-16 | The user message quotes the query and at most the first ten rows, in order; all rows when fewer than ten. |
| Ga4Postprocess.SummarizeGa4Result | app/utils/ga4_postprocess.py:7-21 | No rows gives the fixed explanation. Otherwise the model's reply is returned, or "GA4 data retrieved successfully." when the call fails or the model is disabled. |
| Ga4Postprocess.EmptyReportSkipsModel | app/utils/ga4_postprocess.py:8-11 | An empty report's summary does not depend on the model. |
| Ga4Postprocess.SummaryIgnoresRowsPastTenth | app/utils/ga4_postprocess.py:15 | Two non-empty reports with the same first ten rows get the same summary. |
| Orchestrator.DetectIntent | app/orchestrator.py:36-76 | An override keyword gives the SEO plan without the model. Otherwise a failed call gives the analytics fallback. Any other plan was returned by the model, decoded and validated. |
| Orchestrator.ValidModelPlanIsUsed | app/orchestrator.py:65-68 | A model reply that decodes and validates is the plan returned. |
| Orchestrator.UndecodableReplyFallsBack | app/orchestrator.py:65-76 | A model reply that does not decode gives the analytics fallback. |
| Orchestrator.InvalidLiteralsFallBack | app/orchestrator.py:65-76 | Model JSON with an out-of-range intent or agent gives the analytics fallback. |
| Orchestrator.HasSeoKeyword | app/orchestrator.py:43-53 | Holds when the lower-cased query contains one of the twelve override keywords. |
| Orchestrator.OverrideCaseInsensitive | app/orchestrator.py:52-53 | The override fires for a query exactly when it fires for its lower-cased form. |
| Orchestrator.MetaAndIndexabilityAreOverridden | app/orchestrator.py:43-58 | A query the SEO mapper sends to missing_meta or non_indexable holds an override keyword, so it is routed to SEO. |
| Orchestrator.TitleLengthHasNoKeyword | app/orchestrator.py:43-53 | "title length" does not trigger the override. |
| Orchestrator.TitleLengthIsLongTitle | app/utils/seo_intent_mapper.py:4-5 | The SEO mapper sends "title length" to long_title. |
| Orchestrator.TitleLengthNeedsTheModel | app/orchestrator.py:43-76 | Without a model, "title length" is routed to analytics, although the SEO mapper would choose long_title. |
| Orchestrator.AnalyticsAnswer | app/orchestrator.py:101-136 | A credentials error becomes the answer with no data. Any other report error becomes "Failed to fetch GA4 data." with the error text. Success carries the planner's plan, the page path, a time-series flag taken from the plan's own dimensions and the report itself, with the summary as the answer. |
| Orchestrator.Orchestrate | app/orchestrator.py:82-158 | Analytics without a non-empty property id gets "GA4 propertyId is required for analytics queries.". SEO without a rule gets "SEO analysis request not supported."; SEO with a rule returns the agent's reply verbatim. multi gets "Intent detected: multi" with the plan. Analytics with a property id gives `AnalyticsAnswer`. Analytics data only follows an analytics intent with a property id. |
| Orchestrator.ClientAfterOrchestrate | app/orchestrator.py:93-112 | The GA4 client can change only in the analytics branch with a property id, and never once set. |
| Orchestrator.NoModelNoPropertyId | app/orchestrator.py:70-99 | Without a model or an override keyword, a missing or empty property id is reported for every query. |
| Orchestrator.MissingCredentialsAnswer | app/orchestrator.py:114-118 | An analytics query without credentials or client answers with the credentials message and no data. |
| Orchestrator.FallbackReportIsNotTimeSeries | app/orchestrator.py:126-136 | Without a model, a successful report carries the fallback plan with time_series false, although its request asks for users by date. |
| Orchestrator.Handle | app/orchestrator.py:82-158 | Returns what `Orchestrate` gives for the client on entry and leaves the client as the report attempt does. |

## Left out

- app/main.py: the web endpoint, dotenv loading and the empty-query 400 reply are framework plumbing. `Orchestrate` accepts any query.
- app/llm/prompts.py: the prompt texts are named by a `Prompt` tag, not spelled out; they have no behaviour.
- The language model, `json.loads`, pydantic's `model_validate_json`, `pandas.read_csv`, the network fetch of the sheet and the GA4 SDK are oracle parameters: they are never run and nothing is assumed of them.
- `extract_page_path` is not part of this model; the page path is an input of `Orchestrator.Orchestrate`.
- The process-wide singletons and any race on lazy client creation are not modelled. `Orchestrator.Handle` takes the one GA4 agent object explicitly.
- Text.Lower: lower-cases ASCII letters only; Python's full Unicode case mapping is not modelled.
- Frame.Table: cells are missing, integer or text. Floats, other dtypes and duplicate column labels are not modelled. With duplicate labels the first is taken, where pandas would return a frame.
- SeoAgent.Run: the error text for a raised comparison follows CPython's and pandas' TypeError wording for the three cases modelled. Other failures inside pandas are not modelled.
- SeoAgent.Agent: the crawl table is given as loaded; reading it is the `readCsv` oracle.
- Ga4Agent.Credentials: the credentials file is one of absent, rejected by the SDK (with its error text) or a usable service account; file system access is not modelled.
- Ga4Agent.RunReportResponse: header and value objects are reduced to their names and string values.
- Ga4Postprocess.SummaryMessages: the rows are quoted as data; the f-string rendering of the message text is not modelled.
- Intent JSON whose shape is wrong (not an object, fields missing or of the wrong type) is a decoder failure (`None`). Only out-of-range literals are checked in the model.
