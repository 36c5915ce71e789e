/**
 * The span-writing helpers of Span+Extension.kt: the HTTP-status to
 * canonical-status mapping, the attribute writers that drop null and empty
 * values, the annotation writer and the message-event append.
 *
 * Each helper is a method on a `Span` whose contract says which writes it
 * appends to the span's log; the writes themselves are given by a function,
 * and the lemmas below say what replaying them does to a span record.
 */
module SpanExtension {
  import opened Wrappers
  import opened Spans

  /** The HTTP status codes that have a canonical status of their own (besides 200..399). */
  const MappedCodes: set<int32> := {400, 401, 403, 404, 429, 500, 501, 503, 504}

  /** The `when` of `setStatus(Int)`: the canonical status for an HTTP status code. */
  function StatusOf(code: int32): (s: Status)
    ensures s == Ok <==> 200 <= code <= 399
    ensures s == InvalidArgument <==> code == 400
    ensures s == Unauthenticated <==> code == 401
    ensures s == PermissionDenied <==> code == 403
    ensures s == NotFound <==> code == 404
    ensures s == ResourceExhausted <==> code == 429
    ensures s == Internal <==> code == 500
    ensures s == Unimplemented <==> code == 501
    ensures s == Unavailable <==> code == 503
    ensures s == DeadlineExceeded <==> code == 504
    ensures s == Unknown <==> !(200 <= code <= 399) && code !in MappedCodes
  {
    if 200 <= code <= 399 then Ok
    else if code == 400 then InvalidArgument
    else if code == 504 then DeadlineExceeded
    else if code == 404 then NotFound
    else if code == 403 then PermissionDenied
    else if code == 401 then Unauthenticated
    else if code == 429 then ResourceExhausted
    else if code == 500 then Internal
    else if code == 501 then Unimplemented
    else if code == 503 then Unavailable
    else Unknown
  }

  /** Sample points of the mapping: both ends of the OK range, every mapped
      code, an unset response (0) and an unmapped code (418). */
  lemma StatusTable()
    ensures StatusOf(200) == Ok && StatusOf(304) == Ok && StatusOf(399) == Ok
    ensures StatusOf(400) == InvalidArgument && StatusOf(401) == Unauthenticated
    ensures StatusOf(403) == PermissionDenied && StatusOf(404) == NotFound
    ensures StatusOf(429) == ResourceExhausted && StatusOf(500) == Internal
    ensures StatusOf(501) == Unimplemented && StatusOf(503) == Unavailable
    ensures StatusOf(504) == DeadlineExceeded
    ensures StatusOf(0) == Unknown && StatusOf(418) == Unknown && StatusOf(199) == Unknown
  {
  }

  /** `setStatus(Int)`: exactly one status write, the mapped status. */
  method SetStatusCode(span: Span, code: int32)
    requires span.Valid()
    modifies span
    ensures span.Valid() && span.Log == old(span.Log) + [StatusSet(StatusOf(code))]
    ensures span.status == Some(StatusOf(code))
  {
    span.SetStatus(StatusOf(code));
  }

  /** `messageEvent`: append the event to the span. */
  method AddEvent(span: Span, event: MessageEvent)
    requires span.Valid()
    modifies span
    ensures span.Valid() && span.Log == old(span.Log) + [EventAdded(event)]
    ensures span.events == old(span.events) + [event]
  {
    span.AddMessageEvent(event);
  }

  /** The writes `attribute(key, String?)` makes: none for null or "". */
  function StringAttributeWrites(key: string, value: Option<string>): seq<Write> {
    if value.None? || value.value == "" then [] else [AttributePut(key, StringValue(value.value))]
  }

  /** `attribute(key, String?)`. */
  method StringAttribute(span: Span, key: string, value: Option<string>)
    requires span.Valid()
    modifies span
    ensures span.Valid() && span.Log == old(span.Log) + StringAttributeWrites(key, value)
    ensures span.attributes ==
      if value.None? || value.value == "" then old(span.attributes)
      else old(span.attributes)[key := StringValue(value.value)]
  {
    if value.None? || value.value == "" {
      assert old(span.Log) + [] == old(span.Log);
      return;
    }
    span.PutAttribute(key, StringValue(value.value));
  }

  /** Kotlin `Int.toLong()`: widening keeps the number. */
  function ToLong(n: int32): (r: int64)
    ensures r as int == n as int
  {
    n as int as int64
  }

  /** The writes `attribute(key, Int?)` makes: none for null. */
  function IntAttributeWrites(key: string, value: Option<int32>): seq<Write> {
    if value.None? then [] else [AttributePut(key, LongValue(ToLong(value.value)))]
  }

  /** `attribute(key, Int?)`. */
  method IntAttribute(span: Span, key: string, value: Option<int32>)
    requires span.Valid()
    modifies span
    ensures span.Valid() && span.Log == old(span.Log) + IntAttributeWrites(key, value)
    ensures span.attributes ==
      if value.None? then old(span.attributes)
      else old(span.attributes)[key := LongValue(ToLong(value.value))]
  {
    if value.None? {
      assert old(span.Log) + [] == old(span.Log);
      return;
    }
    span.PutAttribute(key, LongValue(ToLong(value.value)));
  }

  /** The `map`/`toMap` of `annotation`: every value wrapped as a string attribute. */
  function StringAttributeValues(m: map<string, string>): (r: map<string, AttributeValue>)
    ensures r.Keys == m.Keys
    ensures forall k :: k in r ==> r[k] == StringValue(m[k])
  {
    map k | k in m :: StringValue(m[k])
  }

  /** The writes `annotation(description, Map?)` makes: none for a null or empty map. */
  function AnnotationWrites(description: string, attributions: Option<map<string, string>>): seq<Write> {
    if attributions.None? || |attributions.value| == 0 then []
    else [AnnotationAdded(Annotation(description, StringAttributeValues(attributions.value)))]
  }

  /** `annotation(description, Map?)`. */
  method AddAnnotation(span: Span, description: string, attributions: Option<map<string, string>>)
    requires span.Valid()
    modifies span
    ensures span.Valid() && span.Log == old(span.Log) + AnnotationWrites(description, attributions)
    ensures span.annotations == old(span.annotations) +
      if attributions.None? || |attributions.value| == 0 then []
      else [Annotation(description, StringAttributeValues(attributions.value))]
  {
    if attributions.None? || |attributions.value| == 0 {
      assert old(span.Log) + [] == old(span.Log);
      return;
    }
    span.AddAnnotation(description, StringAttributeValues(attributions.value));
  }

  /** Writing a null or empty string leaves the span record unchanged. */
  lemma EmptyStringAttributeIsDropped(d: SpanData, key: string, value: Option<string>)
    requires value.None? || value.value == ""
    ensures Replay(d, StringAttributeWrites(key, value)) == d
  {
  }

  /** Writing a non-empty string maps `key` to it and changes nothing else. */
  lemma StringAttributeIsStored(d: SpanData, key: string, s: string, other: string)
    requires s != "" && other != key
    ensures key in Replay(d, StringAttributeWrites(key, Some(s))).attributes
    ensures Replay(d, StringAttributeWrites(key, Some(s))).attributes[key] == StringValue(s)
    ensures other in d.attributes <==> other in Replay(d, StringAttributeWrites(key, Some(s))).attributes
    ensures other in d.attributes ==>
      Replay(d, StringAttributeWrites(key, Some(s))).attributes[other] == d.attributes[other]
    ensures Replay(d, StringAttributeWrites(key, Some(s))).events == d.events
  {
  }

  /** Of two writes of non-empty strings to one key, the later one is kept. */
  lemma {:induction false} LaterStringAttributeWins(d: SpanData, key: string, first: string, second: string)
    requires first != "" && second != ""
    ensures Replay(d, StringAttributeWrites(key, Some(first)) + StringAttributeWrites(key, Some(second))).attributes
            == d.attributes[key := StringValue(second)]
  {
    ReplayAppend(d, StringAttributeWrites(key, Some(first)), StringAttributeWrites(key, Some(second)));
  }

  /** A null integer is dropped; otherwise `key` maps to a long holding the same number. */
  lemma IntAttributeWidens(d: SpanData, key: string, value: Option<int32>)
    ensures value.None? ==> Replay(d, IntAttributeWrites(key, value)) == d
    ensures value.Some? ==>
      && key in Replay(d, IntAttributeWrites(key, value)).attributes
      && var v := Replay(d, IntAttributeWrites(key, value)).attributes[key];
         v.LongValue? && v.n as int == value.value as int
  {
  }

  /** A null or empty map adds no annotation; otherwise exactly one annotation is
      appended, with the same description, the same keys and each value wrapped. */
  lemma AnnotationIsAppended(d: SpanData, description: string, attributions: Option<map<string, string>>)
    ensures attributions.None? || |attributions.value| == 0 ==>
      Replay(d, AnnotationWrites(description, attributions)) == d
    ensures attributions.Some? && |attributions.value| > 0 ==>
      var r := Replay(d, AnnotationWrites(description, attributions)).annotations;
      && |r| == |d.annotations| + 1
      && r[..|d.annotations|] == d.annotations
      && r[|d.annotations|].description == description
      && r[|d.annotations|].attributes.Keys == attributions.value.Keys
      && forall k :: k in attributions.value ==>
           r[|d.annotations|].attributes[k] == StringValue(attributions.value[k])
  {
  }

  /** A message event goes at the end; earlier events are untouched. */
  lemma EventIsAppended(d: SpanData, event: MessageEvent)
    ensures var r := Replay(d, [EventAdded(event)]).events;
      |r| == |d.events| + 1 && r[..|d.events|] == d.events && r[|d.events|] == event
  {
  }
}
