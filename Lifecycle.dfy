/**
 * What the span lifecycle of OpenCensusTracer.kt guarantees about a traced
 * request, stated on the writes `Tracing.SpanWrites` (which `Tracing.Intercept`
 * is proved to make, in that order) and on the span record they produce.
 */
module Lifecycle {
  import opened Wrappers
  import opened Spans
  import opened SpanExtension
  import opened Tracing

  /** How many writes in `ws` satisfy `p`. */
  function CountOf(ws: seq<Write>, p: Write -> bool): nat
    decreases |ws|
  {
    if ws == [] then 0 else (if p(ws[0]) then 1 else 0) + CountOf(ws[1..], p)
  }

  lemma {:induction false} CountOfAppend(a: seq<Write>, b: seq<Write>, p: Write -> bool)
    ensures CountOf(a + b, p) == CountOf(a, p) + CountOf(b, p)
    decreases |a|
  {
    if a == [] {
      assert a + b == b;
    } else {
      assert (a + b)[0] == a[0];
      assert (a + b)[1..] == a[1..] + b;
      CountOfAppend(a[1..], b, p);
    }
  }

  /** Attribute writes are not counted by a test that rejects every attribute write. */
  lemma {:induction false} CountOfAttributes(ws: seq<Write>, p: Write -> bool)
    requires OnlyAttributes(ws)
    requires forall w: Write :: w.AttributePut? ==> !p(w)
    ensures CountOf(ws, p) == 0
    decreases |ws|
  {
    if ws != [] {
      assert ws[0].AttributePut?;
      assert OnlyAttributes(ws[1..]) by {
        forall i | 0 <= i < |ws[1..]| ensures ws[1..][i].AttributePut? {
          assert ws[1..][i] == ws[i + 1];
        }
      }
      CountOfAttributes(ws[1..], p);
    }
  }

  predicate IsSentEvent(w: Write) { w.EventAdded? && w.event.eventType == Sent }
  predicate IsReceivedEvent(w: Write) { w.EventAdded? && w.event.eventType == Received }
  predicate IsStatusWrite(w: Write) { w.StatusSet? }
  predicate IsEnd(w: Write) { w.Ended? }

  /** Whatever is neither SENT nor the status write nor the end: the request
      attributes and the handler's writes. */
  function MiddleWrites(t: OpenCensusTracer, req: Request, run: HandlerRun): seq<Write> {
    RequestAttributeWrites(t, Call(req, Unanswered)) + HandlerWrites(t, req, run)
  }

  lemma MiddleIsAttributes(t: OpenCensusTracer, req: Request, run: HandlerRun)
    ensures OnlyAttributes(MiddleWrites(t, req, run))
  {
    OnlyAttributesAppend(RequestAttributeWrites(t, Call(req, Unanswered)), HandlerWrites(t, req, run));
  }

  /** The writes of a traced request in five parts: SENT, the attribute writes
      before the handler returns, the status, the attribute writes after it, and
      RECEIVED (or nothing), then the end. */
  lemma Decompose(t: OpenCensusTracer, req: Request, run: HandlerRun)
    ensures SpanWrites(t, req, run) ==
      [EventAdded(SentEvent(req))] + MiddleWrites(t, req, run)
      + [StatusSet(StatusOf(StatusCode(FinalResponse(t, req, run))))]
      + ResponseAttributeTail(t, Call(req, FinalResponse(t, req, run)))
      + ReceivedWrites(t, req, run) + [Ended]
    ensures OnlyAttributes(MiddleWrites(t, req, run))
    ensures OnlyAttributes(ResponseAttributeTail(t, Call(req, FinalResponse(t, req, run))))
  {
    var e0 := [EventAdded(SentEvent(req))];
    var call := Call(req, FinalResponse(t, req, run));
    var st := [StatusSet(StatusOf(StatusCode(call.response)))];
    AppendAssoc(e0, RequestAttributeWrites(t, Call(req, Unanswered)), HandlerWrites(t, req, run));
    AppendAssoc(e0 + MiddleWrites(t, req, run), st, ResponseAttributeTail(t, call));
    MiddleIsAttributes(t, req, run);
    TailIsAttributes(t, call);
  }

  lemma CountOfSingle(w: Write, p: Write -> bool)
    ensures CountOf([w], p) == if p(w) then 1 else 0
  {
    assert [w][1..] == [];
  }

  /** Counting over the five-part shape: only the single writes count. */
  lemma ShapeCount(e0: Write, m: seq<Write>, s: Write, q: seq<Write>, r: seq<Write>, p: Write -> bool)
    requires OnlyAttributes(m) && OnlyAttributes(q)
    requires forall w: Write :: w.AttributePut? ==> !p(w)
    ensures CountOf([e0] + m + [s] + q + r + [Ended], p)
         == (if p(e0) then 1 else 0) + (if p(s) then 1 else 0) + CountOf(r, p) + (if p(Ended) then 1 else 0)
  {
    CountOfAppend([e0], m, p);
    CountOfAppend([e0] + m, [s], p);
    CountOfAppend([e0] + m + [s], q, p);
    CountOfAppend([e0] + m + [s] + q, r, p);
    CountOfAppend([e0] + m + [s] + q + r, [Ended], p);
    CountOfAttributes(m, p);
    CountOfAttributes(q, p);
    CountOfSingle(e0, p);
    CountOfSingle(s, p);
    CountOfSingle(Ended, p);
  }

  /** The counts over the five-part shape of a traced request. */
  lemma ShapeCounts(e0: MessageEvent, m: seq<Write>, s: Status, q: seq<Write>, r: seq<Write>)
    requires OnlyAttributes(m) && OnlyAttributes(q)
    requires e0.eventType == Sent
    requires r == [] || (|r| == 1 && r[0].EventAdded? && r[0].event.eventType == Received)
    ensures var ws := [EventAdded(e0)] + m + [StatusSet(s)] + q + r + [Ended];
      && CountOf(ws, IsSentEvent) == 1
      && CountOf(ws, IsStatusWrite) == 1
      && CountOf(ws, IsEnd) == 1
      && CountOf(ws, IsReceivedEvent) == |r|
  {
    ShapeCount(EventAdded(e0), m, StatusSet(s), q, r, IsSentEvent);
    ShapeCount(EventAdded(e0), m, StatusSet(s), q, r, IsStatusWrite);
    ShapeCount(EventAdded(e0), m, StatusSet(s), q, r, IsEnd);
    ShapeCount(EventAdded(e0), m, StatusSet(s), q, r, IsReceivedEvent);
    if r != [] {
      assert r == [r[0]];
      CountOfSingle(r[0], IsSentEvent);
      CountOfSingle(r[0], IsStatusWrite);
      CountOfSingle(r[0], IsEnd);
      CountOfSingle(r[0], IsReceivedEvent);
    } else {
      assert CountOf(r, IsSentEvent) == 0 && CountOf(r, IsStatusWrite) == 0;
      assert CountOf(r, IsEnd) == 0 && CountOf(r, IsReceivedEvent) == 0;
    }
  }

  /** Exactly one SENT event, exactly one status write and exactly one end for every
      traced request; exactly one RECEIVED event unless the response hook throws
      inside `finally`, in which case none. */
  lemma ExactlyOnce(t: OpenCensusTracer, req: Request, run: HandlerRun)
    ensures CountOf(SpanWrites(t, req, run), IsSentEvent) == 1
    ensures CountOf(SpanWrites(t, req, run), IsStatusWrite) == 1
    ensures CountOf(SpanWrites(t, req, run), IsEnd) == 1
    ensures CountOf(SpanWrites(t, req, run), IsReceivedEvent) ==
      if ResponseHookFailed(t, req, run) then 0 else 1
  {
    Decompose(t, req, run);
    var resp := FinalResponse(t, req, run);
    ShapeCounts(SentEvent(req), MiddleWrites(t, req, run), StatusOf(StatusCode(resp)),
                ResponseAttributeTail(t, Call(req, resp)), ReceivedWrites(t, req, run));
  }

  /** Positions in the five-part shape. */
  lemma ShapeOrder(e0: Write, std: seq<Write>, hook: seq<Write>, hw: seq<Write>, s: Write,
                   q: seq<Write>, r: seq<Write>)
    ensures var ws := [e0] + (std + hook + hw) + [s] + q + r + [Ended];
      var k := 1 + |std + hook + hw|;
      && |ws| >= k + 2
      && ws[0] == e0
      && ws[1..1 + |std|] == std
      && ws[1 + |std|..k] == hook + hw
      && ws[k] == s
      && ws[|ws| - 1] == Ended
      && (|r| == 1 ==> ws[|ws| - 2] == r[0])
  {
    var m := std + hook + hw;
    var head := [e0] + m + [s];
    var ws := head + q + r + [Ended];
    assert ws[..|head|] == head;
    assert head[1..1 + |m|] == m;
    assert m[..|std|] == std;
    assert m[|std|..] == hook + hw;
    if |r| == 1 {
      assert ws[|ws| - 2] == (head + q + r)[|head + q|];
    }
  }

  /** The order of the writes: SENT first, then the standard request attributes,
      then the request hook's and the handler's, then the status write; the span
      ends last, right after the RECEIVED event when there is one. */
  lemma WriteOrder(t: OpenCensusTracer, req: Request, run: HandlerRun)
    ensures var ws := SpanWrites(t, req, run);
      var std := StandardRequestWrites(t.loggingRequestBody, req);
      var k := 1 + |MiddleWrites(t, req, run)|;
      && |ws| >= k + 2
      && ws[0] == EventAdded(SentEvent(req))
      && ws[1..1 + |std|] == std
      && ws[1 + |std|..k] == HookWrites(t.requestAttributeHandler, Call(req, Unanswered)) + HandlerWrites(t, req, run)
      && ws[k] == StatusSet(StatusOf(StatusCode(FinalResponse(t, req, run))))
      && ws[|ws| - 1] == Ended
      && (!ResponseHookFailed(t, req, run) ==>
            ws[|ws| - 2] == EventAdded(ReceivedEvent(FinalResponse(t, req, run))))
  {
    Decompose(t, req, run);
    var resp := FinalResponse(t, req, run);
    ShapeOrder(EventAdded(SentEvent(req)), StandardRequestWrites(t.loggingRequestBody, req),
               HookWrites(t.requestAttributeHandler, Call(req, Unanswered)), HandlerWrites(t, req, run),
               StatusSet(StatusOf(StatusCode(resp))), ResponseAttributeTail(t, Call(req, resp)),
               ReceivedWrites(t, req, run));
  }

  /** Replaying the five-part shape: events, status and end come from the single
      writes only. */
  lemma {:induction false} ShapeReplay(d: SpanData, e0: MessageEvent, m: seq<Write>, s: Status, q: seq<Write>, r: seq<Write>)
    requires OnlyAttributes(m) && OnlyAttributes(q)
    requires r == [] || (|r| == 1 && r[0].EventAdded?)
    ensures var res := Replay(d, [EventAdded(e0)] + m + [StatusSet(s)] + q + r + [Ended]);
      && res.name == d.name && res.parent == d.parent && res.kind == d.kind
      && res.events == d.events + [e0] + (if r == [] then [] else [r[0].event])
      && res.status == Some(s)
      && res.annotations == d.annotations
      && res.ended
  {
    var x0 := [EventAdded(e0)];
    ReplayAppend(d, x0 + m + [StatusSet(s)] + q + r, [Ended]);
    ReplaySnoc(d, x0 + m + [StatusSet(s)] + q + r, Ended);
    ReplayAppend(d, x0 + m + [StatusSet(s)] + q, r);
    ReplayAppend(d, x0 + m + [StatusSet(s)], q);
    ReplaySnoc(d, x0 + m, StatusSet(s));
    ReplayAppend(d, x0, m);
    ReplaySnoc(d, [], EventAdded(e0));
    assert [] + [EventAdded(e0)] == x0;
    var d1 := Replay(d, x0);
    OnlyAttributesKeepRest(d1, m);
    var d3 := Replay(d, x0 + m + [StatusSet(s)]);
    OnlyAttributesKeepRest(d3, q);
    if r != [] {
      assert r == [] + [r[0]];
      ReplaySnoc(Replay(d, x0 + m + [StatusSet(s)] + q), [], r[0]);
    }
  }

  /** The span record a traced request ends with: the builder's name, parent and
      kind, SENT then (unless the response hook throws) RECEIVED as its only new
      events, each carrying its content length (0 when absent), the status of the
      final response, no new annotations, ended. */
  lemma FinalRecord(t: OpenCensusTracer, req: Request, run: HandlerRun, d: SpanData)
    ensures var r := Replay(d, SpanWrites(t, req, run));
      var resp := FinalResponse(t, req, run);
      && r.name == d.name && r.parent == d.parent && r.kind == d.kind
      && r.events == d.events + [SentEvent(req)]
                     + (if ResponseHookFailed(t, req, run) then [] else [ReceivedEvent(resp)])
      && r.events[|d.events|].eventType == Sent
      && r.events[|d.events|].uncompressedSize == (if req.contentLength.Some? then req.contentLength.value else 0)
      && (!ResponseHookFailed(t, req, run) ==>
            && r.events[|d.events| + 1].eventType == Received
            && r.events[|d.events| + 1].uncompressedSize ==
                 (if resp.contentLength.Some? then resp.contentLength.value else 0))
      && r.status == Some(StatusOf(StatusCode(resp)))
      && r.annotations == d.annotations
      && r.ended
  {
    Decompose(t, req, run);
    ShapeReplay(d, SentEvent(req), MiddleWrites(t, req, run), StatusOf(StatusCode(FinalResponse(t, req, run))),
                ResponseAttributeTail(t, Call(req, FinalResponse(t, req, run))), ReceivedWrites(t, req, run));
  }

  /** The status-code attribute survives everything after the two status-code
      writes that does not put that key. */
  lemma {:induction false} ShapeStatusCode(d: SpanData, head: seq<Write>, code: int32, status: Option<int32>,
                                           h: seq<Write>, r: seq<Write>)
    requires status.Some? ==> status.value == code
    requires forall i :: 0 <= i < |h| ==> !(h[i].AttributePut? && h[i].key == HttpStatusCode)
    requires forall i :: 0 <= i < |r| ==> !r[i].AttributePut?
    ensures var res := Replay(d, head + (IntAttributeWrites(HttpStatusCode, Some(code))
                                         + IntAttributeWrites(HttpStatusCode, status) + h) + r + [Ended]);
      HttpStatusCode in res.attributes && res.attributes[HttpStatusCode] == LongValue(ToLong(code))
  {
    var a := IntAttributeWrites(HttpStatusCode, Some(code));
    var b := IntAttributeWrites(HttpStatusCode, status);
    var tail := h + r + [Ended];
    StatusCodeWrites(Replay(d, head), code, status);
    SplitAfterStatusCode(head, a, b, h, r);
    ReplayAppend(d, head + a + b, tail);
    ReplayAppend(d, head + a, b);
    ReplayAppend(d, head, a);
    forall i | 0 <= i < |tail| ensures !(tail[i].AttributePut? && tail[i].key == HttpStatusCode) {
      if i < |h| { assert tail[i] == h[i]; }
      else if i < |h| + |r| { assert tail[i] == r[i - |h|]; }
      else { assert tail[i] == Ended; }
    }
    OtherKeysKeepValue(Replay(d, head + a + b), tail, HttpStatusCode);
  }

  /** The final `http.status_code` attribute is the status used, as a long: the
      second write either repeats the number or is skipped when the status is
      unset; it holds as long as the response hook does not overwrite it. */
  lemma FinalStatusCodeAttribute(t: OpenCensusTracer, req: Request, run: HandlerRun, d: SpanData)
    requires var h := HookWrites(t.responseAttributeHandler, Call(req, FinalResponse(t, req, run)));
      forall i :: 0 <= i < |h| ==> !(h[i].AttributePut? && h[i].key == HttpStatusCode)
    ensures var r := Replay(d, SpanWrites(t, req, run));
      && HttpStatusCode in r.attributes
      && r.attributes[HttpStatusCode] == LongValue(ToLong(StatusCode(FinalResponse(t, req, run))))
  {
    Decompose(t, req, run);
    var resp := FinalResponse(t, req, run);
    var code := StatusCode(resp);
    ShapeStatusCode(d, [EventAdded(SentEvent(req))] + MiddleWrites(t, req, run) + [StatusSet(StatusOf(code))],
                    code, resp.status, HookWrites(t.responseAttributeHandler, Call(req, resp)),
                    ReceivedWrites(t, req, run));
  }

  lemma SplitAfterStatusCode(head: seq<Write>, a: seq<Write>, b: seq<Write>, h: seq<Write>, r: seq<Write>)
    ensures head + (a + b + h) + r + [Ended] == head + a + b + (h + r + [Ended])
  {
  }

  /** The two status-code writes leave the status used, whatever the second one is. */
  lemma StatusCodeWrites(d: SpanData, code: int32, status: Option<int32>)
    requires status.Some? ==> status.value == code
    ensures var r := Replay(Replay(d, IntAttributeWrites(HttpStatusCode, Some(code))),
                            IntAttributeWrites(HttpStatusCode, status));
      HttpStatusCode in r.attributes && r.attributes[HttpStatusCode] == LongValue(ToLong(code))
  {
  }

  /** The attribute map after `attribute(key, String?)`. */
  function PutString(m: map<string, AttributeValue>, key: string, value: Option<string>): map<string, AttributeValue> {
    if value.None? || value.value == "" then m else m[key := StringValue(value.value)]
  }

  lemma StringWriteReplay(d: SpanData, key: string, value: Option<string>)
    ensures Replay(d, StringAttributeWrites(key, value)) == d.(attributes := PutString(d.attributes, key, value))
  {
  }

  /** The standard attribute keys are distinct. */
  lemma KeysDistinct()
    ensures HttpHost != HttpMethod && HttpHost != HttpPath && HttpHost != HttpUserAgent
    ensures HttpHost != HttpUrl && HttpHost != HttpRequestBody
    ensures HttpMethod != HttpPath && HttpMethod != HttpUserAgent && HttpMethod != HttpUrl
    ensures HttpMethod != HttpRequestBody
    ensures HttpPath != HttpUserAgent && HttpPath != HttpUrl && HttpPath != HttpRequestBody
    ensures HttpUserAgent != HttpUrl && HttpUserAgent != HttpRequestBody
    ensures HttpUrl != HttpRequestBody
  {
    assert HttpHost[5] == 'h' && HttpPath[5] == 'p';
  }

  /** The attribute map after the standard request attributes. */
  function StandardAttributes(m: map<string, AttributeValue>, loggingRequestBody: bool, req: Request)
    : map<string, AttributeValue>
  {
    var m5 := PutString(PutString(PutString(PutString(PutString(m,
                HttpHost, Some(req.host)),
                HttpMethod, Some(req.httpMethod)),
                HttpPath, Some(ReplaceDoubleSlash(req.path))),
                HttpUserAgent, Some(req.userAgent.GetOr(NoAgent))),
                HttpUrl, Some(req.uri));
    if loggingRequestBody then PutString(m5, HttpRequestBody, Some(req.body)) else m5
  }

  lemma {:induction false} StandardWritesReplay(loggingRequestBody: bool, req: Request, d: SpanData)
    ensures Replay(d, StandardRequestWrites(loggingRequestBody, req)).attributes
         == StandardAttributes(d.attributes, loggingRequestBody, req)
  {
    var w1 := StringAttributeWrites(HttpHost, Some(req.host));
    var w2 := StringAttributeWrites(HttpMethod, Some(req.httpMethod));
    var w3 := StringAttributeWrites(HttpPath, Some(ReplaceDoubleSlash(req.path)));
    var w4 := StringAttributeWrites(HttpUserAgent, Some(req.userAgent.GetOr(NoAgent)));
    var w5 := StringAttributeWrites(HttpUrl, Some(req.uri));
    var w6 := if loggingRequestBody then StringAttributeWrites(HttpRequestBody, Some(req.body)) else [];
    ReplayAppend(d, w1 + w2 + w3 + w4 + w5, w6);
    ReplayAppend(d, w1 + w2 + w3 + w4, w5);
    ReplayAppend(d, w1 + w2 + w3, w4);
    ReplayAppend(d, w1 + w2, w3);
    ReplayAppend(d, w1, w2);
    var d1 := Replay(d, w1);
    StringWriteReplay(d, HttpHost, Some(req.host));
    StringWriteReplay(d1, HttpMethod, Some(req.httpMethod));
    var d2 := Replay(d1, w2);
    StringWriteReplay(d2, HttpPath, Some(ReplaceDoubleSlash(req.path)));
    var d3 := Replay(d2, w3);
    StringWriteReplay(d3, HttpUserAgent, Some(req.userAgent.GetOr(NoAgent)));
    var d4 := Replay(d3, w4);
    StringWriteReplay(d4, HttpUrl, Some(req.uri));
    var d5 := Replay(d4, w5);
    if loggingRequestBody {
      StringWriteReplay(d5, HttpRequestBody, Some(req.body));
    }
  }

  /** A put under one key leaves every other key as it was. */
  lemma PutStringOther(m: map<string, AttributeValue>, key: string, value: Option<string>, other: string)
    requires other != key
    ensures (other in PutString(m, key, value)) == (other in m)
    ensures other in m ==> PutString(m, key, value)[other] == m[other]
  {
  }

  /** Lookups in the map built from the standard request attributes. */
  lemma StandardAttributesLookup(m: map<string, AttributeValue>, loggingRequestBody: bool, req: Request)
    ensures var r := StandardAttributes(m, loggingRequestBody, req);
      && (req.host != "" ==> HttpHost in r && r[HttpHost] == StringValue(req.host))
      && (req.httpMethod != "" ==> HttpMethod in r && r[HttpMethod] == StringValue(req.httpMethod))
      && (ReplaceDoubleSlash(req.path) != "" ==>
            HttpPath in r && r[HttpPath] == StringValue(ReplaceDoubleSlash(req.path)))
      && (req.userAgent.None? ==> HttpUserAgent in r && r[HttpUserAgent] == StringValue(NoAgent))
      && (req.userAgent.Some? && req.userAgent.value != "" ==>
            HttpUserAgent in r && r[HttpUserAgent] == StringValue(req.userAgent.value))
      && (req.uri != "" ==> HttpUrl in r && r[HttpUrl] == StringValue(req.uri))
      && (HttpRequestBody in r <==> HttpRequestBody in m || (loggingRequestBody && req.body != ""))
      && (loggingRequestBody && req.body != "" ==> r[HttpRequestBody] == StringValue(req.body))
  {
    KeysDistinct();
    var agent := req.userAgent.GetOr(NoAgent);
    var m1 := PutString(m, HttpHost, Some(req.host));
    var m2 := PutString(m1, HttpMethod, Some(req.httpMethod));
    var m3 := PutString(m2, HttpPath, Some(ReplaceDoubleSlash(req.path)));
    var m4 := PutString(m3, HttpUserAgent, Some(agent));
    var m5 := PutString(m4, HttpUrl, Some(req.uri));
    var b := if loggingRequestBody then Some(req.body) else None;
    var r := PutString(m5, HttpRequestBody, b);
    assert r == StandardAttributes(m, loggingRequestBody, req);
    PutStringOther(m1, HttpMethod, Some(req.httpMethod), HttpHost);
    PutStringOther(m2, HttpPath, Some(ReplaceDoubleSlash(req.path)), HttpHost);
    PutStringOther(m2, HttpPath, Some(ReplaceDoubleSlash(req.path)), HttpMethod);
    PutStringOther(m3, HttpUserAgent, Some(agent), HttpHost);
    PutStringOther(m3, HttpUserAgent, Some(agent), HttpMethod);
    PutStringOther(m3, HttpUserAgent, Some(agent), HttpPath);
    PutStringOther(m4, HttpUrl, Some(req.uri), HttpHost);
    PutStringOther(m4, HttpUrl, Some(req.uri), HttpMethod);
    PutStringOther(m4, HttpUrl, Some(req.uri), HttpPath);
    PutStringOther(m4, HttpUrl, Some(req.uri), HttpUserAgent);
    PutStringOther(m5, HttpRequestBody, b, HttpHost);
    PutStringOther(m5, HttpRequestBody, b, HttpMethod);
    PutStringOther(m5, HttpRequestBody, b, HttpPath);
    PutStringOther(m5, HttpRequestBody, b, HttpUserAgent);
    PutStringOther(m5, HttpRequestBody, b, HttpUrl);
    PutStringOther(m, HttpHost, Some(req.host), HttpRequestBody);
    PutStringOther(m1, HttpMethod, Some(req.httpMethod), HttpRequestBody);
    PutStringOther(m2, HttpPath, Some(ReplaceDoubleSlash(req.path)), HttpRequestBody);
    PutStringOther(m3, HttpUserAgent, Some(agent), HttpRequestBody);
    PutStringOther(m4, HttpUrl, Some(req.uri), HttpRequestBody);
    assert req.userAgent.None? ==> agent == NoAgent && agent != "";
  }

  /** The standard request attributes: host, method and URL as given, the path with
      "//" replaced by "/", the user agent or "NoAgent", and the body only when body
      logging is on; empty values are dropped. */
  lemma StandardRequestAttributes(loggingRequestBody: bool, req: Request, d: SpanData)
    ensures var r := Replay(d, StandardRequestWrites(loggingRequestBody, req)).attributes;
      && (req.host != "" ==> HttpHost in r && r[HttpHost] == StringValue(req.host))
      && (req.httpMethod != "" ==> HttpMethod in r && r[HttpMethod] == StringValue(req.httpMethod))
      && (ReplaceDoubleSlash(req.path) != "" ==>
            HttpPath in r && r[HttpPath] == StringValue(ReplaceDoubleSlash(req.path)))
      && (req.userAgent.None? ==> HttpUserAgent in r && r[HttpUserAgent] == StringValue(NoAgent))
      && (req.userAgent.Some? && req.userAgent.value != "" ==>
            HttpUserAgent in r && r[HttpUserAgent] == StringValue(req.userAgent.value))
      && (req.uri != "" ==> HttpUrl in r && r[HttpUrl] == StringValue(req.uri))
      && (HttpRequestBody in r <==> HttpRequestBody in d.attributes || (loggingRequestBody && req.body != ""))
      && (loggingRequestBody && req.body != "" ==> r[HttpRequestBody] == StringValue(req.body))
  {
    StandardWritesReplay(loggingRequestBody, req, d);
    StandardAttributesLookup(d.attributes, loggingRequestBody, req);
  }

  /** A malformed or absent trace context never fails the request: the span is a
      fresh root of kind SERVER, it gets SENT and (unless the response hook throws)
      RECEIVED, and the call ends exactly as it would under any other extraction
      result, with the same writes to the span. */
  lemma MalformedContextStartsRoot(t: OpenCensusTracer, req: Request, run: HandlerRun, e: Request -> Extraction)
    requires t.extract(req) == ParseFailed
    ensures RemoteParent(t.extract(req)) == None
    ensures var r := Replay(Started(t.spanNameHandler(req, req.pathParts), RemoteParent(t.extract(req)), Some(Server)),
                            SpanWrites(t, req, run));
      && r.parent == None && r.kind == Some(Server)
      && |r.events| == if ResponseHookFailed(t, req, run) then 1 else 2
    ensures InterceptOutcome(t, req, run) == InterceptOutcome(t.(extract := e), req, run)
    ensures SpanWrites(t, req, run) == SpanWrites(t.(extract := e), req, run)
  {
    FinalRecord(t, req, run, Started(t.spanNameHandler(req, req.pathParts), None, Some(Server)));
  }

  /** With neither hook configured, nothing fails but the handler, and the final
      response is the handler's. */
  lemma NoHooks(t: OpenCensusTracer, req: Request, run: HandlerRun)
    requires t.requestAttributeHandler.None? && t.responseAttributeHandler.None?
    ensures !RequestPhaseFailed(t, req) && !ResponseHookFailed(t, req, run)
    ensures FinalResponse(t, req, run) == run.response
  {
  }

  /** `POST /customer` under the default configuration, with no trace header and a
      handler that answers 200: a root SERVER span named "POST /customer", status
      OK, exactly the two message events, and the handler's result unchanged. */
  lemma CustomerScenario(extract: Request -> Extraction, req: Request, run: HandlerRun)
    requires req.httpMethod == "POST" && req.path == "/customer" && req.pathParts == ["customer"]
    requires extract(req) == ParseFailed
    requires run.response.status == Some(200) && run.failure.None?
    ensures Install(DefaultConfiguration(), false, extract).Success?
    ensures var t := Install(DefaultConfiguration(), false, extract).value;
      var r := Replay(Started(t.spanNameHandler(req, req.pathParts), RemoteParent(t.extract(req)), Some(Server)),
                      SpanWrites(t, req, run));
      && t.filter(req)
      && r.name == "POST /customer" && r.parent == None && r.kind == Some(Server)
      && r.status == Some(Ok)
      && r.events == [SentEvent(req), ReceivedEvent(run.response)]
      && InterceptOutcome(t, req, run) == Completed
  {
    var c := DefaultConfiguration();
    var t := Install(c, false, extract).value;
    assert t.filter == c.filter && t.spanNameHandler == c.spanNameHandler;
    assert t.requestAttributeHandler.None? && t.responseAttributeHandler.None?;
    assert t.filter(req) by {
      DefaultFilterExamples();
    }
    var name := t.spanNameHandler(req, req.pathParts);
    assert name == "POST /customer" by {
      DefaultSpanNameFirstSegment("POST", "customer", []);
    }
    NoHooks(t, req, run);
    assert StatusCode(run.response) == 200;
    FinalRecord(t, req, run, Started(name, None, Some(Server)));
  }
}
