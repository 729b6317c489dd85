/** The GA4 analytics agent: a lazily initialised client field, allowlist
    filtering with default substitution, request shaping and response
    flattening. The SDK's `run_report` is the `ReportApi` oracle. */
module Ga4Agent {
  import opened Wrappers
  import opened Seqs
  import opened Ga4Validator

  const CredentialsMissingMessage := "credentials.json not found. GA4 analytics cannot run."
  const DefaultMetric := "users"
  const DefaultDimension := "date"
  const PagePathField := "pagePath"
  const PropertyPrefix := "properties/"

  /** `Filter.StringFilter.MatchType`. */
  datatype MatchType = MatchExact | MatchBeginsWith | MatchEndsWith | MatchContains | MatchFullRegexp | MatchPartialRegexp

  /** A `FilterExpression` holding one string filter on one field. */
  datatype StringFilter = StringFilter(fieldName: string, matchType: MatchType, value: string)

  datatype DateRange = DateRange(startDate: string, endDate: string)

  datatype RunReportRequest = RunReportRequest(
    property: string,
    metrics: seq<string>,
    dimensions: seq<string>,
    dateRanges: seq<DateRange>,
    dimensionFilter: Option<StringFilter>)

  /** The SDK's response: header names and rows of string values. */
  datatype ResponseRow = ResponseRow(dimensionValues: seq<string>, metricValues: seq<string>)
  datatype RunReportResponse = RunReportResponse(
    dimensionHeaders: seq<string>,
    metricHeaders: seq<string>,
    rows: seq<ResponseRow>)

  /** The plain dictionary `run_report` returns. */
  datatype ReportRow = ReportRow(dimensions: seq<string>, metrics: seq<string>)
  datatype ReportResult = ReportResult(
    dimensionHeaders: seq<string>,
    metricHeaders: seq<string>,
    rows: seq<ReportRow>)

  /** A client built from a service-account file. */
  datatype Ga4Client = Ga4Client(account: string)

  /** What is found at `credentials.json`: nothing, a file the SDK refuses,
      or a usable service account. */
  datatype Credentials = Absent | Unreadable(reason: string) | ServiceAccount(account: string)

  /** `FileNotFoundError` versus every other exception. */
  datatype Ga4Error = CredentialsMissing(message: string) | ReportFailed(message: string)

  /** `BetaAnalyticsDataClient.run_report`: a response or an error text. */
  type ReportApi = (Ga4Client, RunReportRequest) -> Result<RunReportResponse, string>

  // ---------------------------------------------------------------- client

  /** The client `_init_client` leaves usable, or the error it raises. */
  function InitializedClient(client: Option<Ga4Client>, creds: Credentials): (r: Result<Ga4Client, Ga4Error>)
    ensures client.Some? ==> r == Success(client.value)
    ensures client.None? ==> (r == Failure(CredentialsMissing(CredentialsMissingMessage)) <==> creds.Absent?)
    ensures client.None? && creds.Unreadable? ==> r == Failure(ReportFailed(creds.reason))
    ensures client.None? && creds.ServiceAccount? ==> r == Success(Ga4Client(creds.account))
  {
    if client.Some? then Success(client.value)
    else
      match creds
      case Absent => Failure(CredentialsMissing(CredentialsMissingMessage))
      case Unreadable(reason) => Failure(ReportFailed(reason))
      case ServiceAccount(account) => Success(Ga4Client(account))
  }

  /** The `client` field after `_init_client`: set on success, else unchanged. */
  function ClientAfter(client: Option<Ga4Client>, creds: Credentials): Option<Ga4Client> {
    match InitializedClient(client, creds)
    case Success(c) => Some(c)
    case Failure(_) => client
  }

  /** Once set, the client is never replaced, whatever credentials appear. */
  lemma ClientSetOnce(client: Option<Ga4Client>, first: Credentials, later: Credentials)
    requires ClientAfter(client, first).Some?
    ensures ClientAfter(ClientAfter(client, first), later) == ClientAfter(client, first)
    ensures client.Some? ==> ClientAfter(client, first) == client
  {
  }

  /** A failed initialisation leaves no client behind. */
  lemma FailedInitLeavesNoClient(creds: Credentials)
    requires !creds.ServiceAccount?
    ensures ClientAfter(None, creds) == None
    ensures InitializedClient(None, creds).Failure?
  {
  }

  // ------------------------------------------------------------ allowlists

  /** The requested names that are allowlisted, in order, with duplicates. */
  function Kept(requested: seq<string>, allowed: set<string>): seq<string> {
    Filter(requested, x => x in allowed)
  }

  /** The list `run_report` sends: the allowlisted requested names, or the
      default alone when none is allowlisted. */
  function Allowlisted(requested: seq<string>, allowed: set<string>, default: string): (r: seq<string>)
    requires default in allowed
    ensures r != []
    ensures forall x :: x in r ==> x in allowed
    ensures Kept(requested, allowed) != [] ==> r == Kept(requested, allowed)
    ensures (forall x :: x in requested ==> x !in allowed) ==> r == [default]
  {
    var kept := Kept(requested, allowed);
    if kept == [] then [default]
    else
      assert kept[0] in kept;
      kept
  }

  /** Allowlisted names keep their multiplicity and relative order. */
  lemma AllowlistedCounts(requested: seq<string>, allowed: set<string>, default: string, x: string)
    requires default in allowed
    requires exists y :: y in requested && y in allowed
    ensures multiset(Allowlisted(requested, allowed, default))[x] ==
      if x in allowed then multiset(requested)[x] else 0
  {
    var y :| y in requested && y in allowed;
    assert y in Kept(requested, allowed);
    FilterCounts(requested, x => x in allowed, x);
  }

  lemma {:induction false} AllowlistedConcat(a: seq<string>, b: seq<string>, allowed: set<string>, default: string)
    requires default in allowed
    requires Kept(a, allowed) != []
    ensures Allowlisted(a + b, allowed, default) == Kept(a, allowed) + Kept(b, allowed)
  {
    FilterConcat(a, b, x => x in allowed);
  }

  /** A list that is already allowlisted goes out unchanged. */
  lemma AllowlistedKeepsAllowed(requested: seq<string>, allowed: set<string>, default: string)
    requires default in allowed
    requires requested != [] && forall x :: x in requested ==> x in allowed
    ensures Allowlisted(requested, allowed, default) == requested
  {
    FilterAll(requested, x => x in allowed);
  }

  /** Filtering a second time changes nothing. */
  lemma AllowlistedIdempotent(requested: seq<string>, allowed: set<string>, default: string)
    requires default in allowed
    ensures Allowlisted(Allowlisted(requested, allowed, default), allowed, default)
         == Allowlisted(requested, allowed, default)
  {
    AllowlistedKeepsAllowed(Allowlisted(requested, allowed, default), allowed, default);
  }

  /** The substituted defaults pass their own allowlists. */
  lemma DefaultsAllowed()
    ensures DefaultMetric in AllowedMetrics
    ensures DefaultDimension in AllowedDimensions
  {
  }

  // --------------------------------------------------------------- request

  /** The optional filter: a CONTAINS match on pagePath, present exactly when
      the page path is given and non-empty. */
  function PagePathFilter(pagePath: Option<string>): (f: Option<StringFilter>)
    ensures f.Some? <==> pagePath.Some? && pagePath.value != []
    ensures f.Some? ==> f.value.fieldName == "pagePath" && f.value.matchType == MatchContains
    ensures f.Some? ==> f.value.value == pagePath.value
  {
    if pagePath.Some? && pagePath.value != [] then
      Some(StringFilter(PagePathField, MatchContains, pagePath.value))
    else
      None
  }

  function BuildRequest(propertyId: string, metrics: seq<string>, dimensions: seq<string>,
                        startDate: string, endDate: string, pagePath: Option<string>): (req: RunReportRequest)
    ensures req.property == "properties/" + propertyId
    ensures req.metrics != [] && forall m :: m in req.metrics ==> m in AllowedMetrics
    ensures req.dimensions != [] && forall d :: d in req.dimensions ==> d in AllowedDimensions
    ensures req.metrics == Allowlisted(metrics, AllowedMetrics, DefaultMetric)
    ensures req.dimensions == Allowlisted(dimensions, AllowedDimensions, DefaultDimension)
    ensures req.dateRanges == [DateRange(startDate, endDate)]
    ensures req.dimensionFilter == PagePathFilter(pagePath)
  {
    RunReportRequest(
      PropertyPrefix + propertyId,
      Allowlisted(metrics, AllowedMetrics, DefaultMetric),
      Allowlisted(dimensions, AllowedDimensions, DefaultDimension),
      [DateRange(startDate, endDate)],
      PagePathFilter(pagePath))
  }

  /** A request naming nothing allowlisted asks for users by date. */
  lemma NothingAllowedMeansUsersByDate(propertyId: string, metrics: seq<string>, dimensions: seq<string>,
                                       startDate: string, endDate: string, pagePath: Option<string>)
    requires forall m :: m in metrics ==> m !in AllowedMetrics
    requires forall d :: d in dimensions ==> d !in AllowedDimensions
    ensures BuildRequest(propertyId, metrics, dimensions, startDate, endDate, pagePath).metrics == ["users"]
    ensures BuildRequest(propertyId, metrics, dimensions, startDate, endDate, pagePath).dimensions == ["date"]
  {
  }

  // -------------------------------------------------------------- response

  function FlattenRow(row: ResponseRow): ReportRow {
    ReportRow(row.dimensionValues, row.metricValues)
  }

  /** The response as plain header and value lists. */
  function Flatten(resp: RunReportResponse): (r: ReportResult)
    ensures r.dimensionHeaders == resp.dimensionHeaders
    ensures r.metricHeaders == resp.metricHeaders
    ensures |r.rows| == |resp.rows|
    ensures forall i :: 0 <= i < |resp.rows| ==>
      r.rows[i].dimensions == resp.rows[i].dimensionValues && r.rows[i].metrics == resp.rows[i].metricValues
  {
    ReportResult(resp.dimensionHeaders, resp.metricHeaders,
      seq(|resp.rows|, i requires 0 <= i < |resp.rows| => FlattenRow(resp.rows[i])))
  }

  function Unflatten(r: ReportResult): RunReportResponse {
    RunReportResponse(r.dimensionHeaders, r.metricHeaders,
      seq(|r.rows|, i requires 0 <= i < |r.rows| => ResponseRow(r.rows[i].dimensions, r.rows[i].metrics)))
  }

  /** Flattening loses nothing: the response can be rebuilt from it. */
  lemma FlattenLossless(resp: RunReportResponse)
    ensures Unflatten(Flatten(resp)) == resp
  {
    assert Unflatten(Flatten(resp)).rows == resp.rows;
  }

  // ------------------------------------------------------------ run_report

  /** What `run_report` returns or raises, given the client field on entry. */
  function RunReportSpec(client: Option<Ga4Client>, creds: Credentials, api: ReportApi,
                         propertyId: string, metrics: seq<string>, dimensions: seq<string>,
                         startDate: string, endDate: string, pagePath: Option<string>): (r: Result<ReportResult, Ga4Error>)
    ensures InitializedClient(client, creds).Failure? ==> r == Failure(InitializedClient(client, creds).error)
    ensures r.Success? ==> InitializedClient(client, creds).Success?
    ensures r.Success? ==> exists resp ::
      api(InitializedClient(client, creds).value,
          BuildRequest(propertyId, metrics, dimensions, startDate, endDate, pagePath)) == Success(resp)
      && r.value == Flatten(resp)
    ensures r.Failure? && r.error.CredentialsMissing? ==> client.None? && creds.Absent?
    ensures InitializedClient(client, creds).Success? ==>
      match api(InitializedClient(client, creds).value,
                BuildRequest(propertyId, metrics, dimensions, startDate, endDate, pagePath))
      case Success(resp) => r == Success(Flatten(resp))
      case Failure(m) => r == Failure(ReportFailed(m))
  {
    match InitializedClient(client, creds)
    case Failure(e) => Failure(e)
    case Success(c) =>
      match api(c, BuildRequest(propertyId, metrics, dimensions, startDate, endDate, pagePath))
      case Success(resp) => Success(Flatten(resp))
      case Failure(msg) => Failure(ReportFailed(msg))
  }

  /** Without credentials and without a client, the report fails with the
      credentials message before any request reaches the API. */
  lemma NoCredentialsNoRequest(api1: ReportApi, api2: ReportApi,
                               propertyId: string, metrics: seq<string>, dimensions: seq<string>,
                               startDate: string, endDate: string, pagePath: Option<string>)
    ensures RunReportSpec(None, Absent, api1, propertyId, metrics, dimensions, startDate, endDate, pagePath)
         == Failure(CredentialsMissing(CredentialsMissingMessage))
    ensures RunReportSpec(None, Absent, api1, propertyId, metrics, dimensions, startDate, endDate, pagePath)
         == RunReportSpec(None, Absent, api2, propertyId, metrics, dimensions, startDate, endDate, pagePath)
  {
  }

  /** `GA4Agent`: holds the lazily created client. */
  class Agent {
    var client: Option<Ga4Client>

    constructor()
      ensures client == None
    {
      client := None;
    }

    /** `_init_client`: creates the client on first use, at most once. */
    method InitClient(creds: Credentials) returns (r: Result<Ga4Client, Ga4Error>)
      modifies this
      ensures r == InitializedClient(old(client), creds)
      ensures client == ClientAfter(old(client), creds)
      ensures old(client).Some? ==> client == old(client)
    {
      if client.Some? {
        return Success(client.value);
      }
      match creds
      case Absent =>
        r := Failure(CredentialsMissing(CredentialsMissingMessage));
      case Unreadable(reason) =>
        r := Failure(ReportFailed(reason));
      case ServiceAccount(account) =>
        client := Some(Ga4Client(account));
        r := Success(client.value);
    }

    /** `run_report`. */
    method RunReport(creds: Credentials, api: ReportApi,
                     propertyId: string, metrics: seq<string>, dimensions: seq<string>,
                     startDate: string, endDate: string, pagePath: Option<string>)
      returns (r: Result<ReportResult, Ga4Error>)
      modifies this
      ensures r == RunReportSpec(old(client), creds, api, propertyId, metrics, dimensions, startDate, endDate, pagePath)
      ensures client == ClientAfter(old(client), creds)
    {
      var init := InitClient(creds);
      if init.Failure? {
        return Failure(init.error);
      }
      var request := BuildRequest(propertyId, metrics, dimensions, startDate, endDate, pagePath);
      var response := api(init.value, request);
      if response.Failure? {
        return Failure(ReportFailed(response.error));
      }
      r := Success(Flatten(response.value));
    }
  }
}
