/** The query router: intent detection (a deterministic SEO keyword
    override, then the model, then an analytics fallback) and the branch
    on intent that calls the GA4 or the SEO agent. */
module Orchestrator {
  import opened Wrappers
  import opened Text
  import opened IntentSchema
  import opened ResponseSchema
  import opened Llm
  import Ga4PlanSchema
  import Ga4Agent
  import Ga4Planner
  import Ga4Postprocess
  import SeoIntentMapper
  import SeoAgent

  const SeoOverrideKeywords: seq<string> := [
    "title tag", "title tags",
    "meta description",
    "indexability", "indexable",
    "https", "canonical",
    "robots", "sitemap",
    "hreflang", "alt text", "images"
  ]

  const PropertyIdRequired := "GA4 propertyId is required for analytics queries."
  const FetchFailed := "Failed to fetch GA4 data."
  const SeoNotSupported := "SEO analysis request not supported."

  /** Everything the router reaches outside itself: the model and the JSON
      decoders, the page path the query names, the credentials file and the
      GA4 report endpoint. */
  datatype Collaborators = Collaborators(
    llm: LlmClient,
    model: ChatModel,
    parseIntent: string -> Option<RawIntentPlan>,
    parsePlan: string -> Option<Ga4PlanSchema.Ga4QueryPlan>,
    pagePath: Option<string>,
    credentials: Ga4Agent.Credentials,
    api: Ga4Agent.ReportApi)

  // --------------------------------------------------------- detect_intent

  predicate HasSeoKeyword(query: string) {
    exists k :: k in SeoOverrideKeywords && Contains(Lower(query), k)
  }

  function IntentMessages(query: string): seq<Message> {
    [Message(System, Instructions(IntentDetectionPrompt)), Message(User, Text(query))]
  }

  /** The override's plan: one SEO task whose goal is the query. */
  function SeoOverridePlan(query: string): IntentPlan {
    IntentPlan(Seo, false, [AgentTask(SeoTask, query)])
  }

  /** The fallback's plan: one analytics task whose goal is the query. */
  function AnalyticsFallbackPlan(query: string): IntentPlan {
    IntentPlan(Analytics, true, [AgentTask(AnalyticsTask, query)])
  }

  /** `detect_intent`: never fails; the model is consulted only when no
      override keyword occurs, and its plan is used only when it decodes
      and validates. */
  function DetectIntent(query: string, env: Collaborators): (p: IntentPlan)
    ensures HasSeoKeyword(query) ==> p == SeoOverridePlan(query)
    ensures !HasSeoKeyword(query) && Chat(env.llm, env.model, IntentMessages(query)).Failure? ==>
      p == AnalyticsFallbackPlan(query)
    ensures !HasSeoKeyword(query) && p != AnalyticsFallbackPlan(query) ==>
      exists raw :: Chat(env.llm, env.model, IntentMessages(query)) == Success(raw)
        && env.parseIntent(raw).Some? && Validate(env.parseIntent(raw).value) == Some(p)
  {
    if HasSeoKeyword(query) then SeoOverridePlan(query)
    else
      match Chat(env.llm, env.model, IntentMessages(query))
      case Failure(_) => AnalyticsFallbackPlan(query)
      case Success(raw) =>
        match env.parseIntent(raw)
        case None => AnalyticsFallbackPlan(query)
        case Some(parsed) =>
          match Validate(parsed)
          case None => AnalyticsFallbackPlan(query)
          case Some(plan) => plan
  }

  /** Out-of-range literals in the model's JSON give the analytics fallback. */
  lemma InvalidLiteralsFallBack(query: string, env: Collaborators, raw: string)
    requires !HasSeoKeyword(query)
    requires Chat(env.llm, env.model, IntentMessages(query)) == Success(raw)
    requires env.parseIntent(raw).Some?
    requires !(ParseIntent(env.parseIntent(raw).value.intent).Some? && ValidAgents(env.parseIntent(raw).value.tasks))
    ensures DetectIntent(query, env) == AnalyticsFallbackPlan(query)
  {
  }

  /** A reply that decodes and validates is the plan the router follows. */
  lemma ValidModelPlanIsUsed(query: string, env: Collaborators, raw: string, plan: IntentPlan)
    requires !HasSeoKeyword(query)
    requires Chat(env.llm, env.model, IntentMessages(query)) == Success(raw)
    requires env.parseIntent(raw).Some?
    requires Validate(env.parseIntent(raw).value) == Some(plan)
    ensures DetectIntent(query, env) == plan
  {
  }

  /** A reply that is not intent JSON gives the analytics fallback. */
  lemma UndecodableReplyFallsBack(query: string, env: Collaborators, raw: string)
    requires !HasSeoKeyword(query)
    requires Chat(env.llm, env.model, IntentMessages(query)) == Success(raw)
    requires env.parseIntent(raw).None?
    ensures DetectIntent(query, env) == AnalyticsFallbackPlan(query)
  {
  }

  /** The override ignores letter case. */
  lemma OverrideCaseInsensitive(query: string)
    ensures HasSeoKeyword(Lower(query)) <==> HasSeoKeyword(query)
  {
    LowerIdempotent(query);
  }

  /** A question the SEO mapper answers with missing_meta or non_indexable
      always carries an override keyword, so it is routed to SEO without
      the model. */
  lemma MetaAndIndexabilityAreOverridden(query: string, env: Collaborators)
    requires SeoIntentMapper.MapSeoQueryToRule(query) == Some("missing_meta")
          || SeoIntentMapper.MapSeoQueryToRule(query) == Some("non_indexable")
    ensures HasSeoKeyword(query)
    ensures DetectIntent(query, env) == SeoOverridePlan(query)
  {
    var q := Lower(query);
    assert SeoOverrideKeywords[2] == "meta description";
    assert SeoOverrideKeywords[3] == "indexability" && SeoOverrideKeywords[4] == "indexable";
    if SeoIntentMapper.AsksMissingMeta(q) {
      assert "meta description" in SeoOverrideKeywords && Contains(q, "meta description");
    } else {
      assert Contains(q, "indexable") || Contains(q, "indexability");
      if Contains(q, "indexable") {
        assert "indexable" in SeoOverrideKeywords;
      } else {
        assert "indexability" in SeoOverrideKeywords;
      }
    }
  }

  /** No word of `words` occurs in `s` when each word holds a character,
      given at the same index of `witnesses`, that `s` lacks. */
  lemma NoWordOccurs(s: string, words: seq<string>, witnesses: seq<char>)
    requires |words| == |witnesses|
    requires forall i :: 0 <= i < |words| ==> witnesses[i] in words[i] && witnesses[i] !in s
    ensures forall w :: w in words ==> !Contains(s, w)
  {
    forall w | w in words ensures !Contains(s, w) {
      var i :| 0 <= i < |words| && words[i] == w;
      NotContainsMissingChar(s, w, witnesses[i]);
    }
  }

  lemma TitleLengthHasNoKeyword()
    ensures !HasSeoKeyword("title length")
  {
    assert Lower("title length") == "title length";
    NoWordOccurs("title length", SeoOverrideKeywords, "aamxxpcrsram");
  }

  lemma TitleLengthIsLongTitle()
    ensures SeoIntentMapper.MapSeoQueryToRule("title length") == Some("long_title")
  {
    assert Lower("title length") == "title length";
    ContainsAt("title length", "title", 0);
    ContainsAt("title length", "length", 6);
  }

  /** "title length" has no override keyword: the SEO mapper would choose
      long_title, but without a model the router sends it to analytics. */
  lemma TitleLengthNeedsTheModel(env: Collaborators)
    requires !env.llm.Enabled()
    ensures SeoIntentMapper.MapSeoQueryToRule("title length") == Some("long_title")
    ensures DetectIntent("title length", env) == AnalyticsFallbackPlan("title length")
  {
    TitleLengthIsLongTitle();
    TitleLengthHasNoKeyword();
  }

  // ----------------------------------------------------------- orchestrate

  predicate HasPropertyId(propertyId: Option<string>) {
    propertyId.Some? && propertyId.value != []
  }

  /** The analytics branch once a property id is present. */
  function AnalyticsAnswer(query: string, propertyId: string, env: Collaborators,
                           client: Option<Ga4Agent.Ga4Client>): (r: Response)
    ensures r.data.AnalyticsData? || r.data.NoData? || r.data.ErrorDetail?
    ensures r.data.NoData? ==> (r.answer == Ga4Agent.CredentialsMissingMessage && client.None?
      && env.credentials.Absent?)
    ensures r.data.ErrorDetail? ==> r.answer == FetchFailed
    ensures r.data.AnalyticsData? ==>
      r.data.queryPlan == Ga4Planner.PlanGa4Query(query, env.llm, env.model, env.parsePlan)
      && r.data.pagePathFilter == env.pagePath
      && (r.data.timeSeries <==> "date" in r.data.queryPlan.dimensions)
    ensures var plan := Ga4Planner.PlanGa4Query(query, env.llm, env.model, env.parsePlan);
      match Ga4Agent.RunReportSpec(client, env.credentials, env.api, propertyId, plan.metrics, plan.dimensions,
                                   plan.startDate, plan.endDate, env.pagePath)
      case Success(res) =>
        r.data == AnalyticsData(plan, env.pagePath, "date" in plan.dimensions, res)
        && r.answer == Ga4Postprocess.SummarizeGa4Result(query, res, env.llm, env.model)
      case Failure(e) =>
        (e.ReportFailed? ==> r == Response(FetchFailed, ErrorDetail(e.message)))
        && (e.CredentialsMissing? ==> r == Response(e.message, NoData))
  {
    var plan := Ga4Planner.PlanGa4Query(query, env.llm, env.model, env.parsePlan);
    match Ga4Agent.RunReportSpec(client, env.credentials, env.api, propertyId, plan.metrics, plan.dimensions,
                                 plan.startDate, plan.endDate, env.pagePath)
    case Failure(e) =>
      if e.CredentialsMissing? then Response(e.message, NoData) else Response(FetchFailed, ErrorDetail(e.message))
    case Success(result) =>
      Response(Ga4Postprocess.SummarizeGa4Result(query, result, env.llm, env.model),
               AnalyticsData(plan, env.pagePath, Ga4Postprocess.IsTimeSeries(plan.dimensions), result))
  }

  /** `orchestrate`, given the GA4 agent's client field on entry. */
  function Orchestrate(query: string, propertyId: Option<string>, env: Collaborators,
                       client: Option<Ga4Agent.Ga4Client>, seo: SeoAgent.Agent): (r: Response)
    ensures DetectIntent(query, env).intent == Analytics && !HasPropertyId(propertyId) ==>
      r == Response(PropertyIdRequired, NoData)
    ensures DetectIntent(query, env).intent == Seo ==>
      match SeoIntentMapper.MapSeoQueryToRule(query)
      case None => r == Response(SeoNotSupported, NoData)
      case Some(key) => r == SeoAgent.Run(seo, key)
    ensures DetectIntent(query, env).intent == Multi ==>
      r == Response("Intent detected: multi", PlanData(ToRaw(DetectIntent(query, env))))
    ensures DetectIntent(query, env).intent == Analytics && HasPropertyId(propertyId) ==>
      r == AnalyticsAnswer(query, propertyId.value, env, client)
    ensures r.data.AnalyticsData? ==> DetectIntent(query, env).intent == Analytics && HasPropertyId(propertyId)
  {
    var plan := DetectIntent(query, env);
    if plan.intent == Analytics then
      if !HasPropertyId(propertyId) then Response(PropertyIdRequired, NoData)
      else AnalyticsAnswer(query, propertyId.value, env, client)
    else if plan.intent == Seo then
      match SeoIntentMapper.MapSeoQueryToRule(query)
      case None => Response(SeoNotSupported, NoData)
      case Some(key) => SeoAgent.Run(seo, key)
    else
      Response("Intent detected: " + IntentName(plan.intent), PlanData(ToRaw(plan)))
  }

  /** The GA4 client field after `orchestrate`: only a report attempt can
      set it. */
  function ClientAfterOrchestrate(query: string, propertyId: Option<string>, env: Collaborators,
                                  client: Option<Ga4Agent.Ga4Client>): (c: Option<Ga4Agent.Ga4Client>)
    ensures client.Some? ==> c == client
    ensures DetectIntent(query, env).intent != Analytics || !HasPropertyId(propertyId) ==> c == client
  {
    if DetectIntent(query, env).intent == Analytics && HasPropertyId(propertyId) then
      Ga4Agent.ClientAfter(client, env.credentials)
    else
      client
  }

  /** With no model and no override keyword, every query is an analytics
      query, so a missing property id is reported whatever was asked. */
  lemma NoModelNoPropertyId(query: string, env: Collaborators, client: Option<Ga4Agent.Ga4Client>,
                            seo: SeoAgent.Agent)
    requires !env.llm.Enabled() && !HasSeoKeyword(query)
    ensures Orchestrate(query, None, env, client, seo) == Response(PropertyIdRequired, NoData)
    ensures Orchestrate(query, Some([]), env, client, seo) == Response(PropertyIdRequired, NoData)
  {
  }

  /** Without credentials or a client, an analytics query answers with the
      credentials message and no data. */
  lemma MissingCredentialsAnswer(query: string, propertyId: string, env: Collaborators, seo: SeoAgent.Agent)
    requires DetectIntent(query, env).intent == Analytics && propertyId != []
    requires env.credentials.Absent?
    ensures Orchestrate(query, Some(propertyId), env, None, seo)
         == Response("credentials.json not found. GA4 analytics cannot run.", NoData)
  {
  }

  /** With the model disabled, a successful report carries the planner's
      fallback plan and time_series false, although the request it ran
      asked for users by date. */
  lemma FallbackReportIsNotTimeSeries(query: string, propertyId: string, env: Collaborators,
                                      client: Option<Ga4Agent.Ga4Client>, seo: SeoAgent.Agent)
    requires !env.llm.Enabled() && !HasSeoKeyword(query) && propertyId != []
    requires Orchestrate(query, Some(propertyId), env, client, seo).data.AnalyticsData?
    ensures Orchestrate(query, Some(propertyId), env, client, seo).data.queryPlan == Ga4Planner.FallbackPlan
    ensures !Orchestrate(query, Some(propertyId), env, client, seo).data.timeSeries
    ensures Ga4Agent.BuildRequest(propertyId, Ga4Planner.FallbackPlan.metrics, Ga4Planner.FallbackPlan.dimensions,
              Ga4Planner.FallbackPlan.startDate, Ga4Planner.FallbackPlan.endDate, env.pagePath).dimensions == ["date"]
  {
    Ga4Planner.FallbackRunsAsUsersByDate(propertyId, env.pagePath);
  }

  /** `ga4_agent` with `orchestrate` run against it: the reply, and the
      client field updated as the report attempt leaves it. */
  method Handle(ga4: Ga4Agent.Agent, query: string, propertyId: Option<string>, env: Collaborators,
                seo: SeoAgent.Agent) returns (r: Response)
    modifies ga4
    ensures r == Orchestrate(query, propertyId, env, old(ga4.client), seo)
    ensures ga4.client == ClientAfterOrchestrate(query, propertyId, env, old(ga4.client))
  {
    var plan := DetectIntent(query, env);
    if plan.intent == Analytics {
      if !HasPropertyId(propertyId) {
        return Response(PropertyIdRequired, NoData);
      }
      var queryPlan := Ga4Planner.PlanGa4Query(query, env.llm, env.model, env.parsePlan);
      var report := ga4.RunReport(env.credentials, env.api, propertyId.value, queryPlan.metrics,
                                  queryPlan.dimensions, queryPlan.startDate, queryPlan.endDate, env.pagePath);
      match report
      case Failure(e) =>
        if e.CredentialsMissing? {
          r := Response(e.message, NoData);
        } else {
          r := Response(FetchFailed, ErrorDetail(e.message));
        }
      case Success(result) =>
        var summary := Ga4Postprocess.SummarizeGa4Result(query, result, env.llm, env.model);
        r := Response(summary, AnalyticsData(queryPlan, env.pagePath,
                                             Ga4Postprocess.IsTimeSeries(queryPlan.dimensions), result));
    } else if plan.intent == Seo {
      var key := SeoIntentMapper.MapSeoQueryToRule(query);
      if key.None? {
        return Response(SeoNotSupported, NoData);
      }
      r := SeoAgent.Run(seo, key.value);
    } else {
      r := Response("Intent detected: " + IntentName(plan.intent), PlanData(ToRaw(plan)));
    }
  }
}
