/**
 * The HTTP handler of the service (internal/api/handler.go): `QueryLogs`
 * validates a request, asks the analyzer for log groups, replaces any
 * analyzer or database error by one of three fallback payloads (two fixed
 * texts, and a generic one that quotes the error), and answers with the
 * groups in API form.
 *
 * JSON decoding is not modelled: a request carries the decoder's outcome.
 * The response is the status code and the body that would be encoded.
 */
module Api {
  import opened Wrappers
  import opened Strings
  import opened ClickHouse
  import opened Analyzer

  /** The decoded JSON body of a query; times are nanoseconds. */
  datatype QueryLogsRequest = QueryLogsRequest(
    org: string, dashboard: string, panelTitle: string, metricName: string,
    startTime: int, endTime: int)

  /** An HTTP request: its method and what decoding its body gave. */
  datatype HttpRequest = HttpRequest(httpMethod: string, body: Result<QueryLogsRequest, string>)

  /** A log group as the API returns it. */
  datatype ApiLogGroup = ApiLogGroup(representativeLogs: seq<string>, relativeChange: real)

  /** The two JSON bodies: an error report, or the log groups. */
  datatype ResponseBody =
    | ErrorBody(error: string, message: string, code: int)
    | LogsBody(logGroups: seq<ApiLogGroup>)

  datatype Response = Response(status: int, body: ResponseBody)

  /**
   * A handler: the analyzer, or the error that prevented its creation.
   * `None` stands for Go's nil.
   */
  datatype Handler = Handler(analyzer: Option<Store>, analyzerError: Option<string>)

  /** A handler as `NewHandler` builds it: exactly one of the two is set. */
  predicate WellFormedHandler(h: Handler) {
    h.analyzer.None? <==> h.analyzerError.Some?
  }

  /** `NewHandler`, given the outcome of creating the analyzer. */
  function NewHandler(created: Result<Store, string>): (h: Handler)
    ensures WellFormedHandler(h)
    ensures created.Failure? ==> h.analyzerError == Some(created.error)
  {
    match created
    case Success(db) => Handler(Some(db), None)
    case Failure(err) => Handler(None, Some(err))
  }

  /** `writeJSONError`: the code field repeats the status. */
  function ErrorResponse(status: int, error: string, message: string): Response {
    Response(status, ErrorBody(error, message, status))
  }

  /** Some identity field is empty. */
  predicate MissingField(q: QueryLogsRequest) {
    q.org == "" || q.dashboard == "" || q.panelTitle == "" || q.metricName == ""
  }

  /**
   * The response to a request that fails validation, checked in this order:
   * method, body, identity fields, time range; `None` when it passes.
   */
  function Rejection(req: HttpRequest): (rejected: Option<Response>)
    ensures rejected.Some? ==> rejected.value.status in {400, 405} && rejected.value.body.ErrorBody?
    ensures rejected.None? <==>
      req.httpMethod == "POST" && req.body.Success? && !MissingField(req.body.value)
      && req.body.value.startTime < req.body.value.endTime
  {
    if req.httpMethod != "POST" then
      Some(ErrorResponse(405, "Method not allowed", "Only POST is allowed"))
    else if req.body.Failure? then
      Some(ErrorResponse(400, "Invalid request", req.body.error))
    else if MissingField(req.body.value) then
      Some(ErrorResponse(400, "Invalid request", "Missing required fields"))
    else if !(req.body.value.startTime < req.body.value.endTime) then
      Some(ErrorResponse(400, "Invalid time range", "Start time must be before end time"))
    else
      None
  }

  /**
   * `containsStr`: a length test, then the offset scan, whose loop is the
   * same one the ClickHouse client uses and is modelled once, as
   * `Strings.ContainsMiddle`.
   */
  method ContainsStr(s: string, sub: string) returns (r: bool)
    ensures r <==> IsSubstring(sub, s)
    ensures sub == "" ==> r
  {
    if |s| < |sub| {
      return false;
    }
    r := ContainsMiddle(s, sub);
    if sub == "" {
      EmptyIsSubstring(s);
    }
  }

  /** The three kinds of fallback payload. */
  datatype Fallback = Connectivity | SchemaMissing | Unclassified

  /**
   * The fallback an error text selects: a connectivity word wins over a
   * missing-table word, and anything else is unclassified.
   */
  function Classify(err: string): Fallback {
    if IsSubstring("Connection refused", err) || IsSubstring("connect", err) || IsSubstring("timeout", err) then
      Connectivity
    else if IsSubstring("does not exist", err) || IsSubstring("UNKNOWN_TABLE", err) then
      SchemaMissing
    else
      Unclassified
  }

  /** The mock groups shown when the database cannot be reached. */
  const MockGroups: seq<LogGroup> := [
    LogGroup([
      "⚠️  MOCK DATA: ClickHouse database is not connected",
      "📝 Example anomaly: ERROR: Out of memory on node-3",
      "📝 Example anomaly: WARNING: High CPU usage detected (95%)",
      "📝 Example anomaly: CRITICAL: Disk space below 5%"], 2.5, 0.8, "mock_error_template"),
    LogGroup([
      "📝 Example pattern: Connection timeout after 30s",
      "📝 Example pattern: Retrying connection attempt 3/5"], 1.2, 0.4, "mock_warning_template"),
    LogGroup([
      "📝 Example info: Service started successfully",
      "📝 Example info: Health check passed"], 0.3, 0.1, "mock_info_template")]

  /** The group shown when the tables are missing. */
  const MissingTablesGroup: LogGroup := LogGroup([
    "⚠️  Required tables missing. Please restart the service to auto-create tables.",
    "📝 MOCK DATA: These are example logs shown because tables don't exist yet"], 0.0, 0.0, "error")

  /** The group shown for any other error; it quotes the error text. */
  function GenericErrorGroup(err: string): LogGroup {
    LogGroup([
      "⚠️  Hover log database encountered an error. Please contact support.",
      "Error details: " + err], 0.0, 0.0, "error")
  }

  /** The groups that replace the analysis when it fails with `err`. */
  function FallbackGroups(err: string): seq<LogGroup> {
    match Classify(err)
    case Connectivity => MockGroups
    case SchemaMissing => [MissingTablesGroup]
    case Unclassified => [GenericErrorGroup(err)]
  }

  /**
   * Every fallback has at least one group; each is marked as not real data
   * (ID "error" or an ID starting with "mock_"), and an "error" group
   * scores 0 on both measures.
   */
  lemma FallbackGroupsMarked(err: string)
    ensures |FallbackGroups(err)| >= 1
    ensures forall g | g in FallbackGroups(err) :: g.templateId == "error" || HasPrefix(g.templateId, "mock_")
    ensures forall g | g in FallbackGroups(err) && g.templateId == "error" ::
      g.relativeChange == 0.0 && g.klContribution == 0.0
    ensures Classify(err) == Unclassified ==>
      FallbackGroups(err)[0].representativeLogs[1] == "Error details: " + err
  {
  }

  /**
   * The message the client substitutes for a missing table is never
   * unclassified: it says "does not exist", so the missing-tables payload is
   * chosen unless a connectivity word comes first.
   */
  lemma MissingTableNeverGeneric(table: string)
    ensures Classify(MissingTableMessage(table)) != Unclassified
  {
    MissingTableMessageSaysDoesNotExist(table);
  }

  /** Lines 113-179: choose the fallback groups by the handler's own substring tests. */
  method ChooseFallback(err: string) returns (groups: seq<LogGroup>)
    ensures groups == FallbackGroups(err)
  {
    var refused := ContainsStr(err, "Connection refused");
    var connect := ContainsStr(err, "connect");
    var timeout := ContainsStr(err, "timeout");
    if refused || connect || timeout {
      return MockGroups;
    }
    var missing := ContainsStr(err, "does not exist");
    var unknown := ContainsStr(err, "UNKNOWN_TABLE");
    if missing || unknown {
      return [MissingTablesGroup];
    }
    groups := [GenericErrorGroup(err)];
  }

  /** The API form of the analyzer's groups. */
  function Project(groups: seq<LogGroup>): seq<ApiLogGroup> {
    seq(|groups|, i requires 0 <= i < |groups| =>
      ApiLogGroup(groups[i].representativeLogs, groups[i].relativeChange))
  }

  /**
   * Lines 182-189: fill an array of the same length, index by index. Each
   * API group copies the logs and relative change of the group at its index.
   */
  method ProjectGroups(groups: seq<LogGroup>) returns (api: seq<ApiLogGroup>)
    ensures |api| == |groups|
    ensures forall i | 0 <= i < |groups| ::
      api[i].representativeLogs == groups[i].representativeLogs && api[i].relativeChange == groups[i].relativeChange
    ensures api == Project(groups)
  {
    var a := new ApiLogGroup[|groups|];
    for i := 0 to |groups|
      invariant forall k | 0 <= k < i :: a[k] == ApiLogGroup(groups[k].representativeLogs, groups[k].relativeChange)
    {
      a[i] := ApiLogGroup(groups[i].representativeLogs, groups[i].relativeChange);
    }
    api := a[..];
  }

  /** The 200 answer for an analysis outcome: its groups, or the fallback for its error. */
  function Answer(outcome: Result<seq<LogGroup>, string>): Response {
    match outcome
    case Success(groups) => Response(200, LogsBody(Project(groups)))
    case Failure(err) => Response(200, LogsBody(Project(FallbackGroups(err))))
  }

  /** The identity fields of a request. */
  function IdentityOf(q: QueryLogsRequest): Identity {
    Identity(q.org, q.dashboard, q.panelTitle, q.metricName)
  }

  /**
   * What `QueryLogs` answers and which queries reach the database: a
   * rejected request is answered before the analyzer is consulted; without
   * an analyzer the creation error stands in for the analysis error;
   * otherwise the answer is that of some outcome `AnalyzeLogs` may give.
   */
  ghost predicate Served(h: Handler, req: HttpRequest, ln: real -> real, resp: Response, queries: seq<Query>) {
    match Rejection(req)
    case Some(rejected) => resp == rejected && queries == []
    case None =>
      var q := req.body.value;
      match h.analyzer
      case None =>
        && queries == []
        && resp == Answer(if h.analyzerError.Some? then Failure(h.analyzerError.value) else Success([]))
      case Some(db) =>
        exists r | Analyzed(db, IdentityOf(q), Window(q.startTime, q.endTime), ln, r, queries) :: resp == Answer(r)
  }

  /** `QueryLogs`. */
  method QueryLogs(h: Handler, req: HttpRequest, ln: real -> real) returns (resp: Response, queries: seq<Query>)
    ensures Served(h, req, ln, resp, queries)
  {
    queries := [];
    if req.httpMethod != "POST" {
      return ErrorResponse(405, "Method not allowed", "Only POST is allowed"), queries;
    }
    if req.body.Failure? {
      return ErrorResponse(400, "Invalid request", req.body.error), queries;
    }
    var q := req.body.value;
    if q.org == "" || q.dashboard == "" || q.panelTitle == "" || q.metricName == "" {
      return ErrorResponse(400, "Invalid request", "Missing required fields"), queries;
    }
    if !(q.startTime < q.endTime) {
      return ErrorResponse(400, "Invalid time range", "Start time must be before end time"), queries;
    }
    var logGroups: seq<LogGroup> := [];
    var err: Option<string> := None;
    ghost var outcome: Result<seq<LogGroup>, string> := Success([]);
    if h.analyzer.None? {
      err := h.analyzerError;
      if err.Some? {
        outcome := Failure(err.value);
      }
    } else {
      var r;
      r, queries := AnalyzeLogs(h.analyzer.value, IdentityOf(q), Window(q.startTime, q.endTime), ln);
      outcome := r;
      if r.Failure? {
        err := Some(r.error);
      } else {
        logGroups := r.value;
      }
    }
    if err.Some? {
      logGroups := ChooseFallback(err.value);
    }
    var api := ProjectGroups(logGroups);
    resp := Response(200, LogsBody(api));
    assert resp == Answer(outcome);
  }

  /**
   * Every response is 405, 400 or 200; it is 200 exactly when the request
   * passes validation, and a rejected request sends no query.
   */
  lemma ServedStatus(h: Handler, req: HttpRequest, ln: real -> real, resp: Response, queries: seq<Query>)
    requires Served(h, req, ln, resp, queries)
    ensures resp.status in {200, 400, 405}
    ensures resp.status == 200 <==> Rejection(req).None?
    ensures resp.status == 405 <==> req.httpMethod != "POST"
    ensures resp.status != 200 ==> queries == [] && resp.body.ErrorBody?
  {
    if Rejection(req).None? {
      var q := req.body.value;
      if h.analyzer.Some? {
        var r :| Analyzed(h.analyzer.value, IdentityOf(q), Window(q.startTime, q.endTime), ln, r, queries)
                 && resp == Answer(r);
      }
    }
  }

  /**
   * A valid request to a handler built by `NewHandler` without an analyzer
   * gets 200 and at least one fallback group, and nothing is queried.
   */
  lemma NoAnalyzerFallsBack(h: Handler, req: HttpRequest, ln: real -> real, resp: Response, queries: seq<Query>)
    requires WellFormedHandler(h) && h.analyzer.None?
    requires Rejection(req).None?
    requires Served(h, req, ln, resp, queries)
    ensures resp.status == 200 && resp.body.LogsBody? && |resp.body.logGroups| >= 1
    ensures queries == []
  {
    FallbackGroupsMarked(h.analyzerError.value);
  }

  /**
   * A valid request whose analysis fails, for whatever reason, still gets
   * 200 and at least one fallback group, chosen by the error text.
   */
  lemma AnalysisErrorFallsBack(h: Handler, req: HttpRequest, ln: real -> real, resp: Response, queries: seq<Query>,
                               r: Result<seq<LogGroup>, string>)
    requires h.analyzer.Some? && Rejection(req).None?
    requires Served(h, req, ln, resp, queries)
    requires var q := req.body.value;
             Analyzed(h.analyzer.value, IdentityOf(q), Window(q.startTime, q.endTime), ln, r, queries)
    requires r.Failure?
    ensures resp == Response(200, LogsBody(Project(FallbackGroups(r.error))))
    ensures |resp.body.logGroups| >= 1
  {
    var q := req.body.value;
    var r' :| Analyzed(h.analyzer.value, IdentityOf(q), Window(q.startTime, q.endTime), ln, r', queries)
              && resp == Answer(r');
    AnalyzedDeterminedByQueries(h.analyzer.value, IdentityOf(q), Window(q.startTime, q.endTime), ln, r, r', queries);
    FallbackGroupsMarked(r.error);
  }
}
