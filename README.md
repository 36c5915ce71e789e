# ktor-tracer-extension in Dafny

A model of the request-tracing library `ktor-tracer-extension`. It is a Ktor feature that opens an
OpenCensus span of kind SERVER for every HTTP call the filter accepts, and writes to that span:

- a SENT message event;
- the standard HTTP request attributes, then those of an optional user hook;
- whatever the downstream handler puts on the span;
- in a `finally` block: the canonical status derived from the HTTP status code, the
  `http.status_code` attribute, and the attributes of an optional response hook;
- a RECEIVED message event, after which the span ends.

The feature also remembers the route matched for a call (first one wins). The helper
`Route.function` rebuilds a normalised path such as `/customer/{id}` from a route's ancestors.

Files (one module each):

- `Wrappers.dfy`: `Option` and `Result`.
- `Spans.dfy`: the OpenCensus span the library writes to.
  - `Span` is a class with mutable status, attributes, annotations, events and an `ended` flag.
  - Each of its methods appends one `Write` to a ghost log.
  - The class invariant is that the fields equal the replay of the log over a freshly started
    span (`Replay`).
- `SpanExtension.dfy`: `Span+Extension.kt`.
  - The HTTP-status to canonical-status mapping, the two `attribute` overloads, `annotation` and
    `messageEvent`.
  - Each is a method on a `Span` proved to append exactly the writes given by a function, with
    lemmas saying what those writes do to a span record.
- `Tracing.dfy`: `OpenCensusTracer.kt`, covering:
  - the configuration and its default filter and span name;
  - `install`, and the route subscriber with its `computeIfAbsent`;
  - `setRequestAttribute`, `setResponseAttributes`, `intercept` and the pipeline interceptor.
    `Intercept` is proved to make exactly the writes `SpanWrites`, in order, and to end the way
    `InterceptOutcome` says.
- `Routes.dfy`: `Route.function` as a loop over parent links of a `Route` class, and `isSupport`.
- `Lifecycle.dfy`: what a traced request's writes guarantee:
  - counts of SENT, RECEIVED, status and end;
  - their order;
  - the final span record and status-code attribute;
  - the standard request attributes;
  - the malformed-context case and a concrete request.

What comes from outside the library is passed in as values:

- The trace-context extraction is a function `Request -> Extraction`. OpenCensus's
  `traceContextFormat` throws `SpanContextParseException`, both for a malformed header and for an
  absent one; `ParseFailed` stands for that.
- A user hook is a function from the call to the attributes it puts and the exception it throws
  afterwards, if any.
- The handler (`context.proceed()`) is described the same way: the attributes it puts, the
  response it leaves behind and the exception it throws.
- `RoutingPath.parse(path)` arrives already applied, as `Request.pathParts`.

Behaviour of the code worth knowing, all modelled as written:

- The response hook runs inside `setResponseAttributes`, so it runs before the RECEIVED event is
  recorded, not after it.
- An exception thrown by the response hook, inside `finally`, replaces the handler's exception
  and prevents the RECEIVED event. The "exactly one RECEIVED" property is therefore proved
  exactly when the response hook does not throw (`Lifecycle.ExactlyOnce`).
- The default filter excludes only paths containing "/metrics". A health-check path is traced
  unless the application's own filter excludes it, as the example application's filter does.
- The status-code attribute is written twice (OpenCensusTracer.kt lines 117–118). Both writes
  are modelled. `Lifecycle.FinalStatusCodeAttribute` shows the final value is the status used.

## Model

| member | source | states |
|---|---|---|
| `SpanExtension.StatusOf` | src/main/kotlin/dev/ohtake/ktor/tracer/Span+Extension.kt:6-18 | Each canonical status is produced exactly for its codes: OK iff 200..399; INVALID_ARGUMENT iff 400, UNAUTHENTICATED iff 401, PERMISSION_DENIED iff 403, NOT_FOUND iff 404, RESOURCE_EXHAUSTED iff 429, INTERNAL iff 500, UNIMPLEMENTED iff 501, UNAVAILABLE iff 503, DEADLINE_EXCEEDED iff 504; UNKNOWN iff none of these. |
| `SpanExtension.StatusTable` | src/main/kotlin/dev/ohtake/ktor/tracer/Span+Extension.kt:7-17 | Sample points: 200, 304 and 399 give OK, every mapped code its status, and 0 (unset), 199 and 418 give UNKNOWN. |
| `SpanExtension.SetStatusCode` | src/main/kotlin/dev/ohtake/ktor/tracer/Span+Extension.kt:5-19 | `setStatus(Int)` appends exactly one status write, the mapped status, and the span's status becomes it. |
| `SpanExtension.AddEvent` | src/main/kotlin/dev/ohtake/ktor/tracer/Span+Extension.kt:21-23 | `messageEvent` appends exactly one event write and the event goes at the end of the span's event list. |
| `SpanExtension.EventIsAppended` | src/main/kotlin/dev/ohtake/ktor/tracer/Span+Extension.kt:21-23 | After the event write the list is one longer, earlier events are untouched, and the new event is last. |
| `SpanExtension.StringAttribute` | src/main/kotlin/dev/ohtake/ktor/tracer/Span+Extension.kt:25-28 | `attribute(key, String?)` appends no write for null or "" and one string put otherwise; the attribute map is unchanged, or updated at `key` only. |
| `SpanExtension.EmptyStringAttributeIsDropped` | src/main/kotlin/dev/ohtake/ktor/tracer/Span+Extension.kt:26 | A null or empty string leaves the whole span record unchanged. |
| `SpanExtension.StringAttributeIsStored` | src/main/kotlin/dev/ohtake/ktor/tracer/Span+Extension.kt:27 | A non-empty string maps `key` to that string; every other key keeps its presence and value; events are untouched. |
| `SpanExtension.LaterStringAttributeWins` | src/main/kotlin/dev/ohtake/ktor/tracer/Span+Extension.kt:25-28 | Two non-empty writes to one key leave the later value. |
| `SpanExtension.ToLong` | src/main/kotlin/dev/ohtake/ktor/tracer/Span+Extension.kt:32 | Widening a 32-bit integer to a 64-bit long keeps the number. |
| `SpanExtension.IntAttribute` | src/main/kotlin/dev/ohtake/ktor/tracer/Span+Extension.kt:30-33 | `attribute(key, Int?)` appends no write for null and one long put otherwise; the attribute map is unchanged, or updated at `key` only. |
| `SpanExtension.IntAttributeWidens` | src/main/kotlin/dev/ohtake/ktor/tracer/Span+Extension.kt:31-32 | A null integer leaves the record unchanged; otherwise `key` maps to a long value holding the same number. |
| `SpanExtension.StringAttributeValues` | src/main/kotlin/dev/ohtake/ktor/tracer/Span+Extension.kt:39 | The converted map has the same keys, each value wrapped as a string attribute. |
| `SpanExtension.AddAnnotation` | src/main/kotlin/dev/ohtake/ktor/tracer/Span+Extension.kt:35-41 | `annotation` appends the writes of `AnnotationWrites`: none for a null or empty map, otherwise exactly one annotation, carrying the description and the map as string attribute values. |
| `SpanExtension.AnnotationIsAppended` | src/main/kotlin/dev/ohtake/ktor/tracer/Span+Extension.kt:36-40 | A null or empty map leaves the record unchanged; otherwise exactly one annotation is appended after the old ones, with the same description, the same key set and each value wrapped. |
| `Spans.Span.constructor` | src/main/kotlin/dev/ohtake/ktor/tracer/OpenCensusTracer.kt:64-68 | The span builder starts a span with the given name, parent and kind and nothing recorded. |
| `Spans.Span.SetStatus` | src/main/kotlin/dev/ohtake/ktor/tracer/Span+Extension.kt:7-17 | Span `setStatus` replaces the status and logs one status write; the invariant is kept. |
| `Spans.Span.PutAttribute` | src/main/kotlin/dev/ohtake/ktor/tracer/Span+Extension.kt:27 | Span `putAttribute` updates the attribute map at one key and logs one put; the invariant is kept. |
| `Spans.Span.AddAnnotation` | src/main/kotlin/dev/ohtake/ktor/tracer/Span+Extension.kt:37-40 | Span `addAnnotation` appends the annotation and logs it; the invariant is kept. |
| `Spans.Span.AddMessageEvent` | src/main/kotlin/dev/ohtake/ktor/tracer/Span+Extension.kt:22 | Span `addMessageEvent` appends the event and logs it; the invariant is kept. |
| `Spans.Span.End` | src/main/kotlin/dev/ohtake/ktor/tracer/OpenCensusTracer.kt:68-69 | Closing the scoped span ends it (sets `ended`) and logs the end; the invariant is kept. |
| `Tracing.Contains` | src/main/kotlin/dev/ohtake/ktor/tracer/OpenCensusTracer.kt:30 | `contains` is true iff the pattern occurs at some position of the string. |
| `Tracing.DefaultFilter` | src/main/kotlin/dev/ohtake/ktor/tracer/OpenCensusTracer.kt:27-33 | The default filter rejects a request iff "/metrics" occurs in its path. |
| `Tracing.DefaultConfiguration` | src/main/kotlin/dev/ohtake/ktor/tracer/OpenCensusTracer.kt:24-39 | A fresh configuration has body logging off, no request or response hook, a filter that rejects exactly the paths containing "/metrics", and the first-segment span name. |
| `Tracing.HealthCheckIsTraced` | src/main/kotlin/dev/ohtake/ktor/tracer/OpenCensusTracer.kt:27-33 | "/health-check" passes the default filter. |
| `Tracing.DefaultFilterExamples` | src/main/kotlin/dev/ohtake/ktor/tracer/OpenCensusTracer.kt:27-33 | "/metrics" and "/api/metrics/jvm" are rejected; "/customer" is traced. |
| `Tracing.DefaultSpanName` | src/main/kotlin/dev/ohtake/ktor/tracer/OpenCensusTracer.kt:34-36 | The default span name is the method, " /", then the first path segment, or nothing when there is none. |
| `Tracing.DefaultSpanNameFirstSegment` | src/main/kotlin/dev/ohtake/ktor/tracer/OpenCensusTracer.kt:35 | Only the first segment counts; "POST" with ["customer"] gives "POST /customer" and "GET" with no segments gives "GET /". |
| `Tracing.Install` | src/main/kotlin/dev/ohtake/ktor/tracer/OpenCensusTracer.kt:127-143 | `install` fails with IllegalStateException iff body logging is on and DoubleReceive is missing; otherwise the feature carries the configured filter, span name, hooks and body flag. |
| `Tracing.ComputeIfAbsent` | src/main/kotlin/dev/ohtake/ktor/tracer/OpenCensusTracer.kt:149 | `computeIfAbsent` adds the key with the new value only if absent and changes no other entry. |
| `Tracing.RoutingCallStarted` | src/main/kotlin/dev/ohtake/ktor/tracer/OpenCensusTracer.kt:148-150 | The subscriber updates the call's attributes by `computeIfAbsent` under the "Route" key. |
| `Tracing.RecordAll` | src/main/kotlin/dev/ohtake/ktor/tracer/OpenCensusTracer.kt:148-150 | After a sequence of routing events the store has the keys it had, plus the "Route" key when there was at least one event; no other entry changes. |
| `Tracing.FirstRouteWins` | src/main/kotlin/dev/ohtake/ktor/tracer/OpenCensusTracer.kt:148-150 | Whatever routes the subscriber sees for a call, the first one is the one stored. |
| `Tracing.KeptOnceRecorded` | src/main/kotlin/dev/ohtake/ktor/tracer/OpenCensusTracer.kt:149 | Once a route is stored, later routing events change nothing. |
| `Tracing.ReplaceDoubleSlash` | src/main/kotlin/dev/ohtake/ktor/tracer/OpenCensusTracer.kt:102 | The replacement never lengthens the path, and leaves it unchanged iff it contains no "//". |
| `Tracing.ReplaceDoubleSlashOnePass` | src/main/kotlin/dev/ohtake/ktor/tracer/OpenCensusTracer.kt:102 | One left-to-right pass: "/a//b" gives "/a/b", but "///" and "////" both give "//". |
| `Tracing.Puts` | src/main/kotlin/dev/ohtake/ktor/tracer/OpenCensusTracer.kt:111 | A hook's or handler's attribute puts become one put write each, in order. |
| `Tracing.StatusCode` | src/main/kotlin/dev/ohtake/ktor/tracer/OpenCensusTracer.kt:115 | The status used is the response's status code, or 0 when none is set. |
| `Tracing.RemoteParent` | src/main/kotlin/dev/ohtake/ktor/tracer/OpenCensusTracer.kt:53-60 | A parse failure gives no remote parent; a successful extraction gives exactly its context. |
| `Tracing.InterceptOutcome` | src/main/kotlin/dev/ohtake/ktor/tracer/OpenCensusTracer.kt:79-92 | The call completes iff neither hook nor the handler throws; with both hooks quiet, the handler's exception propagates unchanged. |
| `Tracing.PutAll` | src/main/kotlin/dev/ohtake/ktor/tracer/OpenCensusTracer.kt:111 | Putting the attributes one by one logs exactly `Puts`, in order, keeping the span invariant. |
| `Tracing.RunHook` | src/main/kotlin/dev/ohtake/ktor/tracer/OpenCensusTracer.kt:111 | An absent hook writes nothing; a present one writes its puts and reports its exception. |
| `Tracing.StandardWritesAreAttributes` | src/main/kotlin/dev/ohtake/ktor/tracer/OpenCensusTracer.kt:97-110 | The standard request attributes are attribute puts only. |
| `Tracing.RequestAttributeWrites` | src/main/kotlin/dev/ohtake/ktor/tracer/OpenCensusTracer.kt:96-112 | The request-side writes are attribute puts only: at most five standard ones (six with body logging) before the hook's. |
| `Tracing.ResponseAttributeWrites` | src/main/kotlin/dev/ohtake/ktor/tracer/OpenCensusTracer.kt:114-120 | The response-side writes start with the mapped status, then the status-code attribute; everything after the status is an attribute put. |
| `Tracing.SetRequestAttribute` | src/main/kotlin/dev/ohtake/ktor/tracer/OpenCensusTracer.kt:96-112 | Writes host, method, "//"-replaced path, user agent or "NoAgent", URL, the body only when body logging is on, then the hook's attributes; the exception is the hook's. |
| `Tracing.SetResponseAttributes` | src/main/kotlin/dev/ohtake/ktor/tracer/OpenCensusTracer.kt:114-120 | Writes the mapped status once, the status code (0 when unset), the status code again only when set, then the hook's attributes; the exception is the hook's. |
| `Tracing.Intercept` | src/main/kotlin/dev/ohtake/ktor/tracer/OpenCensusTracer.kt:45-94 | Opens a fresh SERVER span under the extracted remote parent, named by the span-name handler; its log is exactly `SpanWrites`, and the call ends as `InterceptOutcome` says. |
| `Tracing.SpanWrites` | src/main/kotlin/dev/ohtake/ktor/tracer/OpenCensusTracer.kt:64-93 | A traced request makes at least four writes; the SENT event is the first and the end of the span the last. |
| `Tracing.HandleCall` | src/main/kotlin/dev/ohtake/ktor/tracer/OpenCensusTracer.kt:144-147 | No span is opened iff the filter rejects the call, and then the handler runs untraced; otherwise it is traced as `Intercept` says. |
| `Routes.IsSupport` | src/main/kotlin/dev/ohtake/ktor/tracer/OpenCensusTracer.kt:173-184 | True exactly for the five path-segment selector kinds and the Or and And selectors. |
| `Routes.Supported` | src/main/kotlin/dev/ohtake/ktor/tracer/OpenCensusTracer.kt:167 | Every kept selector is supported, and there are no more of them than there were selectors. |
| `Routes.SupportedMembers` | src/main/kotlin/dev/ohtake/ktor/tracer/OpenCensusTracer.kt:165-169 | A selector is kept iff it occurs among the selectors walked and is supported. |
| `Routes.SupportedSingle` | src/main/kotlin/dev/ohtake/ktor/tracer/OpenCensusTracer.kt:167 | A single selector is kept exactly when it is supported; with `SupportedAppend` this fixes the filter's result and its order. |
| `Routes.SupportedAppend` | src/main/kotlin/dev/ohtake/ktor/tracer/OpenCensusTracer.kt:165-169 | Filtering the selectors distributes over concatenation. |
| `Routes.RoutePath` | src/main/kotlin/dev/ohtake/ktor/tracer/OpenCensusTracer.kt:170 | A route path always starts with "/", and is exactly "/" when no ancestor's selector is supported. |
| `Routes.Function` | src/main/kotlin/dev/ohtake/ktor/tracer/OpenCensusTracer.kt:162-171 | The loop over parent links returns "/" joined with the supported selectors of the route's ancestors, root first (`RoutePath`). |
| `Routes.NoSupportedAncestorsIsRoot` | src/main/kotlin/dev/ohtake/ktor/tracer/OpenCensusTracer.kt:170 | With no supported ancestor the path is "/". |
| `Routes.OwnSelectorExcluded` | src/main/kotlin/dev/ohtake/ktor/tracer/OpenCensusTracer.kt:164 | The walk starts at `parent`, so the route's own selector never affects its path. |
| `Routes.ChildPathExtendsParent` | src/main/kotlin/dev/ohtake/ktor/tracer/OpenCensusTracer.kt:162-171 | Root-to-leaf order: a child's path is its parent's path, extended by "/" and the parent's selector when that selector is supported. |
| `Routes.CustomerIdExample` | src/main/kotlin/dev/ohtake/ktor/tracer/OpenCensusTracer.kt:162-184 | The route root / "customer" / "{id}" / PATCH method has the path "/customer/{id}". |
| `Lifecycle.Decompose` | src/main/kotlin/dev/ohtake/ktor/tracer/OpenCensusTracer.kt:71-92 | A traced request's writes are SENT, attribute puts, one status write, attribute puts, RECEIVED or nothing, then the end. |
| `Lifecycle.ExactlyOnce` | src/main/kotlin/dev/ohtake/ktor/tracer/OpenCensusTracer.kt:71-92 | Exactly one SENT event, one status write and one end, even when the request hook or the handler throws; exactly one RECEIVED event unless the response hook throws in `finally`, and then none. |
| `Lifecycle.WriteOrder` | src/main/kotlin/dev/ohtake/ktor/tracer/OpenCensusTracer.kt:71-92 | SENT is first; the standard request attributes come next, then the request hook's and handler's writes, then the status; the end is last, right after RECEIVED when there is one. |
| `Lifecycle.FinalRecord` | src/main/kotlin/dev/ohtake/ktor/tracer/OpenCensusTracer.kt:64-93 | The finished span keeps its name, parent and kind. Its new events are SENT, carrying the request content length (0 when absent), then RECEIVED, carrying the response's, unless the response hook throws. Its status is mapped from the final response; it has no new annotations and has ended. |
| `Lifecycle.StatusCodeWrites` | src/main/kotlin/dev/ohtake/ktor/tracer/OpenCensusTracer.kt:117-118 | The second status-code write either repeats the number or is skipped, so the code used stays. |
| `Lifecycle.FinalStatusCodeAttribute` | src/main/kotlin/dev/ohtake/ktor/tracer/OpenCensusTracer.kt:115-119 | Unless the response hook overwrites it, the final `http.status_code` attribute is the status used (0 when unset), as a long. |
| `Lifecycle.StandardRequestAttributes` | src/main/kotlin/dev/ohtake/ktor/tracer/OpenCensusTracer.kt:96-110 | After the standard attributes: host, method and URL are stored when non-empty; the path is stored with "//" replaced; the user agent is stored, "NoAgent" when absent; the body attribute is present iff body logging is on and the body is non-empty (or it was there before). |
| `Lifecycle.MalformedContextStartsRoot` | src/main/kotlin/dev/ohtake/ktor/tracer/OpenCensusTracer.kt:53-68 | A malformed or absent trace context never fails the call. The span is a root of kind SERVER, with SENT and, unless the response hook throws, RECEIVED. The outcome and every write to the span are the same as under any other extraction result. |
| `Lifecycle.CustomerScenario` | src/main/kotlin/dev/ohtake/ktor/tracer/OpenCensusTracer.kt:27-93 | Under the default configuration, `POST /customer` without a trace header, answered 200, gives a traced root SERVER span "POST /customer" with status OK, exactly SENT then RECEIVED, and completes. |

## Left out

- Sampling: the configured sampler is not modelled. Every call the filter accepts gets a span,
  and whether OpenCensus records or exports it is library behaviour.
- `setRecordEvents(true)`, span export and the OpenCensus span internals. The span is the
  record `SpanData`, and its methods model only the effect of the five calls the library makes.
- Message IDs: `MessageEvent.builder(type, messageId)` receives `System.currentTimeMillis()` as
  the event's message ID; that ID, and the compressed size, are not modelled. Message events
  carry their type and uncompressed size only.
- The ambient current span and coroutine suspension (`startScopedSpan().use`,
  `tracer.currentSpan`, `proceed()` as a suspend call). The span is passed explicitly, and
  closing the scope is the final `End` write.
- Trace-context header parsing (the W3C Trace Context `traceparent` header) is done inside
  OpenCensus and is not part of this model. It is an injected extraction function.
- `RoutingPath.parse`, selector `toString()` and `call.receive<ByteArray>()` are Ktor library
  code. They arrive as given path segments, display strings and body text.
- Numeric parsing of the `content-length` headers is not modelled; each is an optional natural
  number. A non-numeric request header would throw before the `try` block, and that path is
  not modelled.
- User hooks and the handler are modelled as attribute puts followed by an optional exception.
  Other span calls they could make (annotations, events, status) are not modelled. The single
  status write in `Lifecycle.ExactlyOnce`, the single SENT and RECEIVED events, and the status
  in `Lifecycle.FinalRecord` therefore hold only for hooks and handlers that do not call
  `setStatus` or add message events themselves.
- A failing `call.receive<ByteArray>()` (the body read for body logging, inside the `try`) is
  not modelled: the body is given as text, and the read never throws.
- `KtorTextFormatGetter` (header lookup for the extraction) is folded into the extraction
  function.
- The example application and the build files are not part of this model.
