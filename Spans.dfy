/**
 * The part of an OpenCensus span that the tracer writes to: its name,
 * remote parent, kind, canonical status, attribute map, annotations and
 * message events, and whether it has ended.  Timestamps, sampling and
 * export are not modelled.
 *
 * A span is a mutable object.  Besides its fields it keeps a ghost `Log`
 * of every write made to it, in order; the object invariant says that the
 * fields are exactly what replaying the log on the freshly started span
 * gives, so that properties about the order of writes and about the final
 * record can both be stated on values.
 */
module Spans {
  import opened Wrappers

  /** Kotlin `Int`. */
  newtype int32 = x: int | -0x8000_0000 <= x < 0x8000_0000

  /** Kotlin and Java `Long`. */
  newtype int64 = x: int | -0x8000_0000_0000_0000 <= x < 0x8000_0000_0000_0000

  /** OpenCensus canonical status codes (the ones the tracer uses). */
  datatype Status =
    | Ok
    | InvalidArgument
    | DeadlineExceeded
    | NotFound
    | PermissionDenied
    | Unauthenticated
    | ResourceExhausted
    | Internal
    | Unimplemented
    | Unavailable
    | Unknown

  /** OpenCensus `AttributeValue`: a string or a long value. */
  datatype AttributeValue = StringValue(s: string) | LongValue(n: int64)

  datatype EventType = Sent | Received

  /** OpenCensus `MessageEvent`: its type and uncompressed size.  The message ID
      (which the library fills from the wall clock) and the compressed size are
      not modelled. */
  datatype MessageEvent = MessageEvent(eventType: EventType, uncompressedSize: nat)

  datatype Annotation = Annotation(description: string, attributes: map<string, AttributeValue>)

  datatype Kind = Server | Client

  /** A remote span's identity, as read from trace-context headers. */
  datatype SpanContext = SpanContext(traceId: seq<bv8>, spanId: seq<bv8>, sampled: bool)

  /** One write made to a span. */
  datatype Write =
    | StatusSet(status: Status)
    | AttributePut(key: string, value: AttributeValue)
    | AnnotationAdded(annotation: Annotation)
    | EventAdded(event: MessageEvent)
    | Ended

  /** The observable record of a span. */
  datatype SpanData = SpanData(
    name: string,
    parent: Option<SpanContext>,
    kind: Option<Kind>,
    status: Option<Status>,
    attributes: map<string, AttributeValue>,
    annotations: seq<Annotation>,
    events: seq<MessageEvent>,
    ended: bool)

  /** A span as the span builder starts it: nothing recorded yet. */
  function Started(name: string, parent: Option<SpanContext>, kind: Option<Kind>): SpanData {
    SpanData(name, parent, kind, None, map[], [], [], false)
  }

  /** The effect of one write: a status replaces the previous one, an attribute
      overwrites the same key, annotations and events are appended. */
  function Apply(d: SpanData, w: Write): SpanData {
    match w
    case StatusSet(s) => d.(status := Some(s))
    case AttributePut(k, v) => d.(attributes := d.attributes[k := v])
    case AnnotationAdded(a) => d.(annotations := d.annotations + [a])
    case EventAdded(e) => d.(events := d.events + [e])
    case Ended => d.(ended := true)
  }

  /** The record obtained by applying `ws` to `d` in order. */
  function Replay(d: SpanData, ws: seq<Write>): SpanData
    decreases |ws|
  {
    if ws == [] then d else Replay(Apply(d, ws[0]), ws[1..])
  }

  lemma {:induction false} ReplayAppend(d: SpanData, a: seq<Write>, b: seq<Write>)
    ensures Replay(d, a + b) == Replay(Replay(d, a), b)
    decreases |a|
  {
    if a != [] {
      assert (a + b)[0] == a[0];
      assert (a + b)[1..] == a[1..] + b;
      ReplayAppend(Apply(d, a[0]), a[1..], b);
    } else {
      assert a + b == b;
    }
  }

  lemma ReplaySnoc(d: SpanData, a: seq<Write>, w: Write)
    ensures Replay(d, a + [w]) == Apply(Replay(d, a), w)
  {
    ReplayAppend(d, a, [w]);
    assert [w][1..] == [];
  }

  lemma AppendAssoc<T>(a: seq<T>, b: seq<T>, c: seq<T>)
    ensures (a + b) + c == a + (b + c)
  {
  }

  /** True when every write in `ws` is an attribute write. */
  predicate OnlyAttributes(ws: seq<Write>) {
    forall i :: 0 <= i < |ws| ==> ws[i].AttributePut?
  }

  /** Attribute-only write sequences are closed under concatenation. */
  lemma OnlyAttributesAppend(a: seq<Write>, b: seq<Write>)
    requires OnlyAttributes(a) && OnlyAttributes(b)
    ensures OnlyAttributes(a + b)
  {
    forall i | 0 <= i < |a + b| ensures (a + b)[i].AttributePut? {
      if i < |a| { assert (a + b)[i] == a[i]; } else { assert (a + b)[i] == b[i - |a|]; }
    }
  }

  /** Attribute writes change the attribute map and nothing else. */
  lemma {:induction false} OnlyAttributesKeepRest(d: SpanData, ws: seq<Write>)
    requires OnlyAttributes(ws)
    ensures Replay(d, ws) == d.(attributes := Replay(d, ws).attributes)
    decreases |ws|
  {
    if ws != [] {
      assert ws[0].AttributePut?;
      assert OnlyAttributes(ws[1..]) by {
        forall i | 0 <= i < |ws[1..]| ensures ws[1..][i].AttributePut? {
          assert ws[1..][i] == ws[i + 1];
        }
      }
      OnlyAttributesKeepRest(Apply(d, ws[0]), ws[1..]);
    }
  }

  /** Attribute writes that never name `key` leave its entry as it was. */
  lemma {:induction false} OtherKeysKeepValue(d: SpanData, ws: seq<Write>, key: string)
    requires forall i :: 0 <= i < |ws| ==> !(ws[i].AttributePut? && ws[i].key == key)
    ensures key in Replay(d, ws).attributes <==> key in d.attributes
    ensures key in d.attributes ==> Replay(d, ws).attributes[key] == d.attributes[key]
    decreases |ws|
  {
    if ws != [] {
      assert !(ws[0].AttributePut? && ws[0].key == key);
      forall i | 0 <= i < |ws[1..]| ensures !(ws[1..][i].AttributePut? && ws[1..][i].key == key) {
        assert ws[1..][i] == ws[i + 1];
      }
      OtherKeysKeepValue(Apply(d, ws[0]), ws[1..], key);
    }
  }

  /** A span object.  `name`, `parent` and `kind` are fixed by the span builder. */
  class Span {
    const name: string
    const parent: Option<SpanContext>
    const kind: Option<Kind>
    var status: Option<Status>
    var attributes: map<string, AttributeValue>
    var annotations: seq<Annotation>
    var events: seq<MessageEvent>
    var ended: bool
    /** Every write made to this span, oldest first. */
    ghost var Log: seq<Write>

    function Data(): SpanData
      reads this
    {
      SpanData(name, parent, kind, status, attributes, annotations, events, ended)
    }

    ghost predicate Valid()
      reads this
    {
      Data() == Replay(Started(name, parent, kind), Log)
    }

    /** Span builder `startSpan`: a fresh span with nothing recorded. */
    constructor (name: string, parent: Option<SpanContext>, kind: Option<Kind>)
      ensures Valid() && Log == []
      ensures Data() == Started(name, parent, kind)
    {
      this.name, this.parent, this.kind := name, parent, kind;
      status, attributes, annotations, events, ended := None, map[], [], [], false;
      Log := [];
    }

    /** Span `setStatus`. */
    method SetStatus(s: Status)
      requires Valid()
      modifies this
      ensures Valid() && Log == old(Log) + [StatusSet(s)]
      ensures Data() == old(Data()).(status := Some(s))
    {
      ReplaySnoc(Started(name, parent, kind), Log, StatusSet(s));
      status := Some(s);
      Log := Log + [StatusSet(s)];
    }

    /** Span `putAttribute`. */
    method PutAttribute(key: string, value: AttributeValue)
      requires Valid()
      modifies this
      ensures Valid() && Log == old(Log) + [AttributePut(key, value)]
      ensures Data() == old(Data()).(attributes := old(attributes)[key := value])
    {
      ReplaySnoc(Started(name, parent, kind), Log, AttributePut(key, value));
      attributes := attributes[key := value];
      Log := Log + [AttributePut(key, value)];
    }

    /** Span `addAnnotation(description, attributes)`. */
    method AddAnnotation(description: string, attrs: map<string, AttributeValue>)
      requires Valid()
      modifies this
      ensures Valid() && Log == old(Log) + [AnnotationAdded(Annotation(description, attrs))]
      ensures Data() == old(Data()).(annotations := old(annotations) + [Annotation(description, attrs)])
    {
      var a := Annotation(description, attrs);
      ReplaySnoc(Started(name, parent, kind), Log, AnnotationAdded(a));
      annotations := annotations + [a];
      Log := Log + [AnnotationAdded(a)];
    }

    /** Span `addMessageEvent`. */
    method AddMessageEvent(e: MessageEvent)
      requires Valid()
      modifies this
      ensures Valid() && Log == old(Log) + [EventAdded(e)]
      ensures Data() == old(Data()).(events := old(events) + [e])
    {
      ReplaySnoc(Started(name, parent, kind), Log, EventAdded(e));
      events := events + [e];
      Log := Log + [EventAdded(e)];
    }

    /** Span `end`, which closing the span's scope performs. */
    method End()
      requires Valid()
      modifies this
      ensures Valid() && Log == old(Log) + [Ended]
      ensures Data() == old(Data()).(ended := true)
    {
      ReplaySnoc(Started(name, parent, kind), Log, Ended);
      ended := true;
      Log := Log + [Ended];
    }
  }
}
