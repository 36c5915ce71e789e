/**
 * The request-tracing feature of OpenCensusTracer.kt: its configuration and
 * defaults, the install-time check, the route subscriber, and the per-request
 * span lifecycle (filter, trace-context extraction, SENT event, request
 * attributes, handler, response attributes and status, RECEIVED event, end).
 *
 * What the feature gets from outside is passed in as values: the parsed
 * request (with `RoutingPath.parse` already applied), the trace-context
 * extraction as an injected function, the user hooks and the handler as
 * descriptions of what they write and whether they throw.
 */
module Tracing {
  import opened Wrappers
  import opened Spans
  import opened SpanExtension
  import Routes

  // ---------------------------------------------------------------------
  // Inputs
  // ---------------------------------------------------------------------

  /** A thrown exception, by class or message. */
  datatype Exception = Exception(name: string)

  /** What the trace-context format's `extract` did: a span context, or a
      `SpanContextParseException` (thrown for an absent header too). */
  datatype Extraction = Extracted(context: SpanContext) | ParseFailed

  /** The parts of an `ApplicationRequest` the tracer reads.  `pathParts` is
      `RoutingPath.parse(path)`; `contentLength` is the parsed header. */
  datatype Request = Request(
    httpMethod: string,
    host: string,
    path: string,
    uri: string,
    userAgent: Option<string>,
    contentLength: Option<nat>,
    body: string,
    pathParts: seq<string>)

  /** The parts of an `ApplicationResponse` the tracer reads. */
  datatype Response = Response(status: Option<int32>, contentLength: Option<nat>)

  /** A response nothing has been written to yet. */
  const Unanswered := Response(None, None)

  datatype Call = Call(request: Request, response: Response)

  /** What one run of a user attribute hook does: the attributes it puts on the
      span, in order, and the exception it throws afterwards, if any. */
  datatype HookRun = HookRun(puts: seq<(string, AttributeValue)>, failure: Option<Exception>)

  /** A user attribute hook `(ApplicationCall, Span) -> Unit`. */
  type Hook = Call -> HookRun

  /** What `context.proceed()` does: the attributes the downstream handler puts on
      the current span, the response as it stands afterwards, and the exception
      it throws, if any. */
  datatype HandlerRun = HandlerRun(puts: seq<(string, AttributeValue)>, response: Response, failure: Option<Exception>)

  /** How a call through the interceptor ends for its caller. */
  datatype Outcome = Completed | Threw(exception: Exception)

  // ---------------------------------------------------------------------
  // Configuration and installation
  // ---------------------------------------------------------------------

  const HttpHost := "http.host"
  const HttpMethod := "http.method"
  const HttpPath := "http.path"
  const HttpUserAgent := "http.user_agent"
  const HttpUrl := "http.url"
  const HttpStatusCode := "http.status_code"
  const HttpRequestBody := "http.request_body"
  const NoAgent := "NoAgent"
  const RouteKey := "Route"

  /** `OpenCensusTracer.Configuration` (the sampler is not modelled). */
  datatype Configuration = Configuration(
    loggingRequestBody: bool,
    filter: Request -> bool,
    spanNameHandler: (Request, seq<string>) -> string,
    requestAttributeHandler: Option<Hook>,
    responseAttributeHandler: Option<Hook>)

  /** The installed feature; `extract` is the process-wide trace-context format. */
  datatype OpenCensusTracer = OpenCensusTracer(
    filter: Request -> bool,
    spanNameHandler: (Request, seq<string>) -> string,
    requestAttributeHandler: Option<Hook>,
    responseAttributeHandler: Option<Hook>,
    loggingRequestBody: bool,
    extract: Request -> Extraction)

  /** `i` is a position where `pat` occurs in `s`. */
  predicate OccursAt(s: string, pat: string, i: nat) {
    i + |pat| <= |s| && s[i..i + |pat|] == pat
  }

  lemma OccursAtTail(s: string, pat: string, i: nat)
    requires |s| > 0
    ensures OccursAt(s[1..], pat, i) <==> OccursAt(s, pat, i + 1)
  {
    if i + |pat| <= |s| - 1 {
      assert s[1..][i..i + |pat|] == s[i + 1..i + 1 + |pat|];
    }
  }

  /** Kotlin `String.contains(String)`. */
  function Contains(s: string, pat: string): (r: bool)
    ensures r <==> exists i: nat :: OccursAt(s, pat, i)
    decreases |s|
  {
    if |s| < |pat| then false
    else if s[..|pat|] == pat then assert OccursAt(s, pat, 0); true
    else
      assert !OccursAt(s, pat, 0);
      assert forall i: nat :: OccursAt(s[1..], pat, i) <==> OccursAt(s, pat, i + 1) by {
        forall i: nat ensures OccursAt(s[1..], pat, i) <==> OccursAt(s, pat, i + 1) {
          OccursAtTail(s, pat, i);
        }
      }
      assert (exists i: nat :: OccursAt(s, pat, i)) ==> exists i: nat :: OccursAt(s[1..], pat, i) by {
        if exists i: nat :: OccursAt(s, pat, i) {
          var i: nat :| OccursAt(s, pat, i);
          assert i > 0;
          assert OccursAt(s[1..], pat, i - 1);
        }
      }
      Contains(s[1..], pat)
  }

  /** The default `filter`: trace every request whose path does not contain "/metrics". */
  function DefaultFilter(path: string): (r: bool)
    ensures r <==> !exists i: nat :: OccursAt(path, "/metrics", i)
  {
    !Contains(path, "/metrics")
  }

  /** The default `spanNameHandler`: the method, a space, "/" and the first
      parsed path segment (nothing when the path has none). */
  function DefaultSpanName(httpMethod: string, parts: seq<string>): (r: string)
    ensures |parts| == 0 ==> r == httpMethod + " /"
    ensures |parts| > 0 ==> r == httpMethod + " /" + parts[0]
  {
    httpMethod + " /" + (if |parts| == 0 then "" else parts[0])
  }

  /** `Configuration()` before the user's `configure` block runs: body logging off,
      no hooks, the "/metrics" filter and the first-segment span name. */
  function DefaultConfiguration(): (c: Configuration)
    ensures !c.loggingRequestBody
    ensures c.requestAttributeHandler.None? && c.responseAttributeHandler.None?
    ensures forall req: Request :: c.filter(req) <==> !Contains(req.path, "/metrics")
    ensures forall req: Request, parts: seq<string> ::
      c.spanNameHandler(req, parts) == DefaultSpanName(req.httpMethod, parts)
  {
    Configuration(
      false,
      (req: Request) => DefaultFilter(req.path),
      (req: Request, parts: seq<string>) => DefaultSpanName(req.httpMethod, parts),
      None,
      None)
  }

  /** The default filter drops metrics scrapes and keeps everything else. */
  lemma DefaultFilterExamples()
    ensures !DefaultConfiguration().filter(Request("GET", "h", "/metrics", "/metrics", None, None, "", ["metrics"]))
    ensures !DefaultFilter("/api/metrics/jvm")
    ensures DefaultFilter("/customer")
  {
    assert OccursAt("/metrics", "/metrics", 0);
    assert OccursAt("/api/metrics/jvm", "/metrics", 4);
    assert !Contains("/customer", "/metrics") by {
      assert "/customer"[..8][1] != "/metrics"[1];
      assert "/customer"[1..][..8][0] != "/metrics"[0];
      assert |"/customer"[1..][1..]| < 8;
    }
  }
  /** A health-check path is traced by default; only an application's own filter
      can drop it. */
  lemma HealthCheckIsTraced()
    ensures DefaultFilter("/health-check")
  {
    var s := "/health-check";
    forall i: nat ensures !OccursAt(s, "/metrics", i) {
      if i + 8 <= |s| {
        if i == 0 {
          assert s[i..i + 8][1] != "/metrics"[1];
        } else {
          assert s[i] != '/';
          assert s[i..i + 8][0] != "/metrics"[0];
        }
      }
    }
  }


  /** Only the first segment matters to the default span name. */
  lemma DefaultSpanNameFirstSegment(httpMethod: string, first: string, rest: seq<string>)
    ensures DefaultSpanName(httpMethod, [first] + rest) == DefaultSpanName(httpMethod, [first])
    ensures DefaultSpanName("POST", ["customer"]) == "POST /customer"
    ensures DefaultSpanName("GET", []) == "GET /"
  {
  }

  /** `install`: fails with IllegalStateException exactly when body logging is
      asked for without DoubleReceive; otherwise the feature carries the
      configuration as given. */
  function Install(configuration: Configuration, doubleReceiveInstalled: bool, extract: Request -> Extraction)
    : (r: Result<OpenCensusTracer, Exception>)
    ensures r.Failure? <==> configuration.loggingRequestBody && !doubleReceiveInstalled
    ensures r.Failure? ==> r.error == Exception("IllegalStateException")
    ensures r.Success? ==>
      && r.value.filter == configuration.filter
      && r.value.spanNameHandler == configuration.spanNameHandler
      && r.value.requestAttributeHandler == configuration.requestAttributeHandler
      && r.value.responseAttributeHandler == configuration.responseAttributeHandler
      && r.value.loggingRequestBody == configuration.loggingRequestBody
      && r.value.extract == extract
  {
    if configuration.loggingRequestBody && !doubleReceiveInstalled then
      Failure(Exception("IllegalStateException"))
    else
      Success(OpenCensusTracer(
        configuration.filter,
        configuration.spanNameHandler,
        configuration.requestAttributeHandler,
        configuration.responseAttributeHandler,
        configuration.loggingRequestBody,
        extract))
  }

  // ---------------------------------------------------------------------
  // Route recording (the RoutingCallStarted subscriber)
  // ---------------------------------------------------------------------

  /** Java `computeIfAbsent`: store `v` under `k` unless `k` is already there. */
  function ComputeIfAbsent<K, V>(m: map<K, V>, k: K, v: V): (r: map<K, V>)
    ensures k in r && r.Keys == m.Keys + {k}
    ensures k in m ==> r == m
    ensures k !in m ==> r[k] == v
    ensures forall j :: j in m && j != k ==> r[j] == m[j]
  {
    if k in m then m else m[k := v]
  }

  /** The call's attribute store, restricted to its route-valued entries. */
  class CallAttributes {
    var routes: map<string, Routes.Route>

    constructor ()
      ensures routes == map[]
    {
      routes := map[];
    }
  }

  /** The subscriber: remember the matched route under `RouteKey` unless one is
      already remembered. */
  method RoutingCallStarted(attributes: CallAttributes, route: Routes.Route)
    modifies attributes
    ensures attributes.routes == ComputeIfAbsent(old(attributes.routes), RouteKey, route)
  {
    if RouteKey !in attributes.routes {
      attributes.routes := attributes.routes[RouteKey := route];
    }
  }

  /** The attribute store after the subscriber has seen `routes`, in order: the
      route key is added when there is a route, and no other entry changes. */
  function RecordAll<V>(m: map<string, V>, routes: seq<V>): (r: map<string, V>)
    ensures r.Keys == if routes == [] then m.Keys else m.Keys + {RouteKey}
    ensures forall j :: j in m && j != RouteKey ==> r[j] == m[j]
    decreases |routes|
  {
    if routes == [] then m else RecordAll(ComputeIfAbsent(m, RouteKey, routes[0]), routes[1..])
  }

  /** The first route recorded for a call is the one kept. */
  lemma {:induction false} FirstRouteWins<V>(m: map<string, V>, routes: seq<V>)
    requires RouteKey !in m && |routes| > 0
    ensures RouteKey in RecordAll(m, routes) && RecordAll(m, routes)[RouteKey] == routes[0]
  {
    KeptOnceRecorded(ComputeIfAbsent(m, RouteKey, routes[0]), routes[1..]);
  }

  lemma {:induction false} KeptOnceRecorded<V>(m: map<string, V>, routes: seq<V>)
    requires RouteKey in m
    ensures RecordAll(m, routes) == m
    decreases |routes|
  {
    if routes != [] {
      KeptOnceRecorded(ComputeIfAbsent(m, RouteKey, routes[0]), routes[1..]);
    }
  }

  // ---------------------------------------------------------------------
  // Request attributes
  // ---------------------------------------------------------------------

  /** Kotlin `replace("//", "/")`: one left-to-right pass over non-overlapping
      occurrences. */
  function ReplaceDoubleSlash(s: string): (r: string)
    ensures |r| <= |s|
    ensures r == s <==> !Contains(s, "//")
    decreases |s|
  {
    if |s| < 2 then s
    else if s[..2] == "//" then "/" + ReplaceDoubleSlash(s[2..])
    else [s[0]] + ReplaceDoubleSlash(s[1..])
  }

  /** One pass only: a run of three slashes still leaves two. */
  lemma ReplaceDoubleSlashOnePass()
    ensures ReplaceDoubleSlash("/a//b") == "/a/b"
    ensures ReplaceDoubleSlash("///") == "//"
    ensures ReplaceDoubleSlash("////") == "//"
  {
    assert "/a//b"[..2][1] != "//"[1];
    assert "/a//b"[1..] == "a//b";
    assert "a//b"[..2][0] != "//"[0];
    assert "a//b"[1..] == "//b";
    assert "//b"[..2] == "//";
    assert "//b"[2..] == "b";
    assert "///"[..2] == "//";
    assert "///"[2..] == "/";
    assert "////"[..2] == "//";
    assert "////"[2..] == "//";
    assert "//"[..2] == "//";
    assert "//"[2..] == "";
  }

  /** The attribute puts of a hook or handler, in order. */
  function Puts(ps: seq<(string, AttributeValue)>): (ws: seq<Write>)
    ensures |ws| == |ps|
    ensures forall i :: 0 <= i < |ws| ==> ws[i] == AttributePut(ps[i].0, ps[i].1)
    decreases |ps|
  {
    if ps == [] then [] else Puts(ps[..|ps| - 1]) + [AttributePut(ps[|ps| - 1].0, ps[|ps| - 1].1)]
  }

  /** The writes `hook?.invoke(call, span)` makes. */
  function HookWrites(hook: Option<Hook>, call: Call): seq<Write> {
    if hook.None? then [] else Puts(hook.value(call).puts)
  }

  /** What `hook?.invoke(call, span)` throws. */
  function HookFailure(hook: Option<Hook>, call: Call): Option<Exception> {
    if hook.None? then None else hook.value(call).failure
  }

  /** The standard request attributes, in the order `setRequestAttribute` writes them. */
  function StandardRequestWrites(loggingRequestBody: bool, req: Request): seq<Write> {
    StringAttributeWrites(HttpHost, Some(req.host))
    + StringAttributeWrites(HttpMethod, Some(req.httpMethod))
    + StringAttributeWrites(HttpPath, Some(ReplaceDoubleSlash(req.path)))
    + StringAttributeWrites(HttpUserAgent, Some(req.userAgent.GetOr(NoAgent)))
    + StringAttributeWrites(HttpUrl, Some(req.uri))
    + (if loggingRequestBody then StringAttributeWrites(HttpRequestBody, Some(req.body)) else [])
  }

  /** The standard request attributes are attribute puts only. */
  lemma StandardWritesAreAttributes(loggingRequestBody: bool, req: Request)
    ensures OnlyAttributes(StandardRequestWrites(loggingRequestBody, req))
  {
    var w1 := StringAttributeWrites(HttpHost, Some(req.host));
    var w2 := StringAttributeWrites(HttpMethod, Some(req.httpMethod));
    var w3 := StringAttributeWrites(HttpPath, Some(ReplaceDoubleSlash(req.path)));
    var w4 := StringAttributeWrites(HttpUserAgent, Some(req.userAgent.GetOr(NoAgent)));
    var w5 := StringAttributeWrites(HttpUrl, Some(req.uri));
    var w6 := if loggingRequestBody then StringAttributeWrites(HttpRequestBody, Some(req.body)) else [];
    OnlyAttributesAppend(w1, w2);
    OnlyAttributesAppend(w1 + w2, w3);
    OnlyAttributesAppend(w1 + w2 + w3, w4);
    OnlyAttributesAppend(w1 + w2 + w3 + w4, w5);
    OnlyAttributesAppend(w1 + w2 + w3 + w4 + w5, w6);
  }

  lemma HookWritesAreAttributes(hook: Option<Hook>, call: Call)
    ensures OnlyAttributes(HookWrites(hook, call))
  {
  }

  /** Everything `setRequestAttribute` writes: the standard attributes, then the
      hook's.  Only attributes are written, and at most one per standard attribute
      before the hook's. */
  function RequestAttributeWrites(t: OpenCensusTracer, call: Call): (ws: seq<Write>)
    ensures OnlyAttributes(ws)
    ensures |ws| <= (if t.loggingRequestBody then 6 else 5) + |HookWrites(t.requestAttributeHandler, call)|
  {
    StandardWritesAreAttributes(t.loggingRequestBody, call.request);
    OnlyAttributesAppend(StandardRequestWrites(t.loggingRequestBody, call.request),
                         HookWrites(t.requestAttributeHandler, call));
    StandardRequestWrites(t.loggingRequestBody, call.request) + HookWrites(t.requestAttributeHandler, call)
  }

  // ---------------------------------------------------------------------
  // Response attributes
  // ---------------------------------------------------------------------

  /** `call.response.status()?.value ?: 0`. */
  function StatusCode(resp: Response): (code: int32)
    ensures resp.status.Some? ==> code == resp.status.value
    ensures resp.status.None? ==> code == 0
  {
    resp.status.GetOr(0)
  }

  /** What `setResponseAttributes` writes after the status: the status-code
      attribute twice (the second time only when the status is set), then the hook's. */
  function ResponseAttributeTail(t: OpenCensusTracer, call: Call): seq<Write> {
    IntAttributeWrites(HttpStatusCode, Some(StatusCode(call.response)))
    + IntAttributeWrites(HttpStatusCode, call.response.status)
    + HookWrites(t.responseAttributeHandler, call)
  }

  lemma TailIsAttributes(t: OpenCensusTracer, call: Call)
    ensures OnlyAttributes(ResponseAttributeTail(t, call))
  {
    var a := IntAttributeWrites(HttpStatusCode, Some(StatusCode(call.response)));
    var b := IntAttributeWrites(HttpStatusCode, call.response.status);
    HookWritesAreAttributes(t.responseAttributeHandler, call);
    OnlyAttributesAppend(a, b);
    OnlyAttributesAppend(a + b, HookWrites(t.responseAttributeHandler, call));
  }

  /** Everything `setResponseAttributes` writes: the status first, then the
      status-code attribute, then attribute puts only. */
  function ResponseAttributeWrites(t: OpenCensusTracer, call: Call): (ws: seq<Write>)
    ensures |ws| >= 2
    ensures ws[0] == StatusSet(StatusOf(StatusCode(call.response)))
    ensures ws[1] == AttributePut(HttpStatusCode, LongValue(ToLong(StatusCode(call.response))))
    ensures OnlyAttributes(ws[1..])
  {
    TailIsAttributes(t, call);
    assert ([StatusSet(StatusOf(StatusCode(call.response)))] + ResponseAttributeTail(t, call))[1..]
        == ResponseAttributeTail(t, call);
    [StatusSet(StatusOf(StatusCode(call.response)))] + ResponseAttributeTail(t, call)
  }

  // ---------------------------------------------------------------------
  // The span lifecycle
  // ---------------------------------------------------------------------

  /** The `try`/`catch` around `extract`: a parse failure gives no remote parent. */
  function RemoteParent(x: Extraction): (parent: Option<SpanContext>)
    ensures parent.Some? <==> x.Extracted?
    ensures x.Extracted? ==> parent == Some(x.context)
  {
    match x
    case Extracted(c) => Some(c)
    case ParseFailed => None
  }

  function SentEvent(req: Request): MessageEvent {
    MessageEvent(Sent, req.contentLength.GetOr(0))
  }

  function ReceivedEvent(resp: Response): MessageEvent {
    MessageEvent(Received, resp.contentLength.GetOr(0))
  }

  /** The request hook threw, so the handler never ran. */
  predicate RequestPhaseFailed(t: OpenCensusTracer, req: Request) {
    HookFailure(t.requestAttributeHandler, Call(req, Unanswered)).Some?
  }

  /** The response as the `finally` block sees it. */
  function FinalResponse(t: OpenCensusTracer, req: Request, run: HandlerRun): Response {
    if RequestPhaseFailed(t, req) then Unanswered else run.response
  }

  /** The response hook threw inside `finally`, so no RECEIVED event follows. */
  predicate ResponseHookFailed(t: OpenCensusTracer, req: Request, run: HandlerRun) {
    HookFailure(t.responseAttributeHandler, Call(req, FinalResponse(t, req, run))).Some?
  }

  /** The writes made by the handler to the span (none when it never ran). */
  function HandlerWrites(t: OpenCensusTracer, req: Request, run: HandlerRun): seq<Write> {
    if RequestPhaseFailed(t, req) then [] else Puts(run.puts)
  }

  /** The RECEIVED event, unless the response hook threw before it. */
  function ReceivedWrites(t: OpenCensusTracer, req: Request, run: HandlerRun): seq<Write> {
    if ResponseHookFailed(t, req, run) then [] else [EventAdded(ReceivedEvent(FinalResponse(t, req, run)))]
  }

  /** Every write made to a traced request's span, in order: SENT first, the end last. */
  function SpanWrites(t: OpenCensusTracer, req: Request, run: HandlerRun): (ws: seq<Write>)
    ensures |ws| >= 4
    ensures ws[0] == EventAdded(SentEvent(req))
    ensures ws[|ws| - 1] == Ended
  {
    [EventAdded(SentEvent(req))]
    + RequestAttributeWrites(t, Call(req, Unanswered))
    + HandlerWrites(t, req, run)
    + ResponseAttributeWrites(t, Call(req, FinalResponse(t, req, run)))
    + ReceivedWrites(t, req, run)
    + [Ended]
  }

  /** How the traced call ends: an exception from `finally` replaces any other;
      otherwise the request hook's or the handler's exception is re-thrown
      unchanged. */
  function InterceptOutcome(t: OpenCensusTracer, req: Request, run: HandlerRun): (r: Outcome)
    ensures r == Completed <==>
      !ResponseHookFailed(t, req, run) && !RequestPhaseFailed(t, req) && run.failure.None?
    ensures !ResponseHookFailed(t, req, run) && !RequestPhaseFailed(t, req) && run.failure.Some? ==>
      r == Threw(run.failure.value)
  {
    var responseFailure := HookFailure(t.responseAttributeHandler, Call(req, FinalResponse(t, req, run)));
    var requestFailure := HookFailure(t.requestAttributeHandler, Call(req, Unanswered));
    if responseFailure.Some? then Threw(responseFailure.value)
    else if requestFailure.Some? then Threw(requestFailure.value)
    else if run.failure.Some? then Threw(run.failure.value)
    else Completed
  }

  /** The call as it ends when the filter bypasses tracing: the handler runs untraced. */
  function UntracedOutcome(run: HandlerRun): Outcome {
    if run.failure.Some? then Threw(run.failure.value) else Completed
  }

  /** Put a hook's or handler's attributes on the span, one by one. */
  method PutAll(span: Span, ps: seq<(string, AttributeValue)>)
    requires span.Valid()
    modifies span
    ensures span.Valid() && span.Log == old(span.Log) + Puts(ps)
  {
    var i := 0;
    while i < |ps|
      invariant 0 <= i <= |ps|
      invariant span.Valid() && span.Log == old(span.Log) + Puts(ps[..i])
    {
      assert ps[..i + 1][..i] == ps[..i];
      span.PutAttribute(ps[i].0, ps[i].1);
      i := i + 1;
    }
    assert ps[..i] == ps;
  }

  /** `hook?.invoke(call, span)`. */
  method RunHook(hook: Option<Hook>, span: Span, call: Call) returns (failure: Option<Exception>)
    requires span.Valid()
    modifies span
    ensures span.Valid() && span.Log == old(span.Log) + HookWrites(hook, call)
    ensures failure == HookFailure(hook, call)
  {
    if hook.None? {
      assert old(span.Log) + [] == old(span.Log);
      return None;
    }
    var run := hook.value(call);
    PutAll(span, run.puts);
    failure := run.failure;
  }

  /** `setRequestAttribute`: the standard attributes, then the user hook. */
  method SetRequestAttribute(t: OpenCensusTracer, call: Call, span: Span) returns (failure: Option<Exception>)
    requires span.Valid()
    modifies span
    ensures span.Valid() && span.Log == old(span.Log) + RequestAttributeWrites(t, call)
    ensures failure == HookFailure(t.requestAttributeHandler, call)
  {
    var req := call.request;
    ghost var log0 := span.Log;
    ghost var ws: seq<Write> := [];
    StringAttribute(span, HttpHost, Some(req.host));
    ws := StringAttributeWrites(HttpHost, Some(req.host));
    StringAttribute(span, HttpMethod, Some(req.httpMethod));
    AppendAssoc(log0, ws, StringAttributeWrites(HttpMethod, Some(req.httpMethod)));
    ws := ws + StringAttributeWrites(HttpMethod, Some(req.httpMethod));
    StringAttribute(span, HttpPath, Some(ReplaceDoubleSlash(req.path)));
    AppendAssoc(log0, ws, StringAttributeWrites(HttpPath, Some(ReplaceDoubleSlash(req.path))));
    ws := ws + StringAttributeWrites(HttpPath, Some(ReplaceDoubleSlash(req.path)));
    StringAttribute(span, HttpUserAgent, Some(req.userAgent.GetOr(NoAgent)));
    AppendAssoc(log0, ws, StringAttributeWrites(HttpUserAgent, Some(req.userAgent.GetOr(NoAgent))));
    ws := ws + StringAttributeWrites(HttpUserAgent, Some(req.userAgent.GetOr(NoAgent)));
    StringAttribute(span, HttpUrl, Some(req.uri));
    AppendAssoc(log0, ws, StringAttributeWrites(HttpUrl, Some(req.uri)));
    ws := ws + StringAttributeWrites(HttpUrl, Some(req.uri));
    if t.loggingRequestBody {
      StringAttribute(span, HttpRequestBody, Some(req.body));
      AppendAssoc(log0, ws, StringAttributeWrites(HttpRequestBody, Some(req.body)));
      ws := ws + StringAttributeWrites(HttpRequestBody, Some(req.body));
    }
    assert ws == StandardRequestWrites(t.loggingRequestBody, req);
    AppendAssoc(log0, ws, HookWrites(t.requestAttributeHandler, call));
    failure := RunHook(t.requestAttributeHandler, span, call);
  }

  /** `setResponseAttributes`: status, status-code attribute (twice), then the user hook. */
  method SetResponseAttributes(t: OpenCensusTracer, call: Call, span: Span) returns (failure: Option<Exception>)
    requires span.Valid()
    modifies span
    ensures span.Valid() && span.Log == old(span.Log) + ResponseAttributeWrites(t, call)
    ensures failure == HookFailure(t.responseAttributeHandler, call)
  {
    var status := StatusCode(call.response);
    ghost var log0 := span.Log;
    SetStatusCode(span, status);
    ghost var log1 := span.Log;
    ghost var ws: seq<Write> := [];
    IntAttribute(span, HttpStatusCode, Some(status));
    ws := IntAttributeWrites(HttpStatusCode, Some(status));
    IntAttribute(span, HttpStatusCode, call.response.status);
    AppendAssoc(log1, ws, IntAttributeWrites(HttpStatusCode, call.response.status));
    ws := ws + IntAttributeWrites(HttpStatusCode, call.response.status);
    failure := RunHook(t.responseAttributeHandler, span, call);
    AppendAssoc(log1, ws, HookWrites(t.responseAttributeHandler, call));
    AppendAssoc(log0, [StatusSet(StatusOf(status))], ResponseAttributeTail(t, call));
  }

  /** `intercept`: open a SERVER span under the extracted remote parent (none when
      extraction failed), record SENT, then under try/finally the request
      attributes and the handler, and in `finally` the response attributes and
      RECEIVED; closing the scope ends the span. */
  method Intercept(t: OpenCensusTracer, req: Request, run: HandlerRun) returns (span: Span, outcome: Outcome)
    ensures fresh(span) && span.Valid()
    ensures span.name == t.spanNameHandler(req, req.pathParts)
    ensures span.parent == RemoteParent(t.extract(req)) && span.kind == Some(Server)
    ensures span.Log == SpanWrites(t, req, run)
    ensures outcome == InterceptOutcome(t, req, run)
  {
    var spanContext := RemoteParent(t.extract(req));
    span := new Span(t.spanNameHandler(req, req.pathParts), spanContext, Some(Server));
    AddEvent(span, SentEvent(req));
    ghost var ws: seq<Write> := [EventAdded(SentEvent(req))];
    // try
    var response := Unanswered;
    var failure := SetRequestAttribute(t, Call(req, Unanswered), span);
    ws := ws + RequestAttributeWrites(t, Call(req, Unanswered));
    assert span.Log == ws;
    if failure.None? {
      // context.proceed()
      PutAll(span, run.puts);
      response := run.response;
      failure := run.failure;
    }
    ws := ws + HandlerWrites(t, req, run);
    assert span.Log == ws;
    assert response == FinalResponse(t, req, run);
    // finally
    var finallyFailure := SetResponseAttributes(t, Call(req, response), span);
    ws := ws + ResponseAttributeWrites(t, Call(req, response));
    assert span.Log == ws;
    if finallyFailure.None? {
      AddEvent(span, ReceivedEvent(response));
    }
    ws := ws + ReceivedWrites(t, req, run);
    assert span.Log == ws;
    // the scope closes
    span.End();
    outcome :=
      if finallyFailure.Some? then Threw(finallyFailure.value)
      else if failure.Some? then Threw(failure.value)
      else Completed;
  }

  /** The pipeline interceptor: bypass when the filter rejects the call,
      otherwise trace it. */
  method HandleCall(t: OpenCensusTracer, req: Request, run: HandlerRun) returns (span: Span?, outcome: Outcome)
    ensures span == null <==> !t.filter(req)
    ensures span == null ==> outcome == UntracedOutcome(run)
    ensures span != null ==>
      && fresh(span) && span.Valid()
      && span.name == t.spanNameHandler(req, req.pathParts)
      && span.parent == RemoteParent(t.extract(req)) && span.kind == Some(Server)
      && span.Log == SpanWrites(t, req, run)
      && outcome == InterceptOutcome(t, req, run)
  {
    if !t.filter(req) {
      return null, UntracedOutcome(run);
    }
    span, outcome := Intercept(t, req, run);
  }
}
