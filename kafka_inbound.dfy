/**
 * How the Kafka worker turns a consumed record into an event for the host:
 * the value is decoded (JSON, otherwise text), the string headers are
 * copied with any-case `x-trace-id` stored under the lower-case name, a
 * trace id is generated when tracing is on and none came with the record,
 * and the consumer, target, topic, partition and offset are written last.
 */
module KafkaInbound {
  import opened Wrappers
  import opened Json
  import opened Envelopes
  import opened Broker
  import opened JsString
  import Dict

  const TraceHeader: string := "x-trace-id"

  /** One consumer the worker subscribed: its id, topic and target, and whether it generates trace ids. */
  datatype Subscription = Subscription(consumer: string, topic: string, target: string, tracing: bool)

  /** The body of the event for a record value: a Buffer is parsed as JSON, or kept as text if that fails. */
  function DecodeValue(value: Body, codec: Codec): (body: Body)
    ensures value.Binary? && codec.parse(value.text).Some? ==> body == codec.parse(value.text).value
    ensures value.Binary? && codec.parse(value.text).None? ==> body == Str(value.text)
    ensures value.Str? ==> body == value
    ensures !value.Binary? && !value.Str? ==> body == Null
  {
    match value
    case Binary(text) => (match codec.parse(text) case Some(b) => b case None => Str(text))
    case Str(s) => Str(s)
    case _ => Null
  }

  /** The value a producer sends, the JSON text of a message with no Buffer in it, decodes back to the message. */
  lemma DecodeSentValue(codec: Codec, message: Body)
    requires Lawful(codec) && Plain(message)
    ensures DecodeValue(Binary(codec.stringify(message)), codec) == message
  {
    assert codec.parse(codec.stringify(message)) == Some(message);
  }

  /** A Buffer message does not come back as a Buffer: it decodes to its `{"type":"Buffer",...}` object. */
  lemma DecodeSentBuffer(codec: Codec, t: string)
    requires Lawful(codec)
    ensures var body := DecodeValue(Binary(codec.stringify(Binary(t))), codec);
      BufferObject(body) && body != Binary(t)
  {
    assert codec.parse(codec.stringify(Binary(t))).Some?;
  }

  predicate IsTraceName(h: string) {
    EqualsIgnoreCase(h, TraceHeader)
  }

  /** The headers copied so far and the trace id seen so far. */
  datatype Copied = Copied(headers: map<string, string>, traceId: Option<string>)

  /** One iteration of the copy loop. */
  function CopyStep(acc: Copied, h: string, v: HeaderValue): Copied {
    if v.HText? then
      if IsTraceName(h) then Copied(acc.headers[TraceHeader := v.text], Some(v.text))
      else Copied(acc.headers[h := v.text], acc.traceId)
    else acc
  }

  /** The state of the copy loop after the first `n` broker headers, in their order. */
  function Fold(d: Dict.Dict<HeaderValue>, n: nat, base: map<string, string>): Copied
    requires n <= |d.keys|
  {
    if n == 0 then Copied(base, None)
    else
      Dict.KeysHaveValues(d, n - 1);
      CopyStep(Fold(d, n - 1, base), d.keys[n - 1], d.vals[d.keys[n - 1]])
  }

  /** `copyKafkaHeaders(headers, evt, tracing)` on the event's headers `base`, with `uuid` as the generated id. */
  function CopiedHeaders(d: Dict.Dict<HeaderValue>, base: map<string, string>, tracing: bool, uuid: string): map<string, string> {
    var c := Fold(d, |d.keys|, base);
    if tracing && !Truthy(c.traceId) then c.headers[TraceHeader := uuid] else c.headers
  }

  /** The loop of `copyKafkaHeaders`, over the broker headers in their order. */
  method CopyKafkaHeaders(headers: Dict.Dict<HeaderValue>, evt: Envelope, tracing: bool, uuid: string)
    returns (out: Envelope)
    ensures out == evt.(headers := CopiedHeaders(headers, evt.headers, tracing, uuid))
  {
    var hs := evt.headers;
    var traceId: Option<string> := None;
    var i := 0;
    while i < |headers.keys|
      invariant 0 <= i <= |headers.keys|
      invariant Fold(headers, i, evt.headers) == Copied(hs, traceId)
    {
      var h := headers.keys[i];
      Dict.KeysHaveValues(headers, i);
      var v := headers.vals[h];
      if v.HText? {
        if IsTraceName(h) {
          traceId := Some(v.text);
          hs := hs[TraceHeader := v.text];
        } else {
          hs := hs[h := v.text];
        }
      }
      i := i + 1;
    }
    if tracing && !Truthy(traceId) {
      hs := hs[TraceHeader := uuid];
    }
    out := evt.(headers := hs);
  }

  /** A broker header at index `j` that is a string under some spelling of `x-trace-id`. */
  predicate TraceAt(d: Dict.Dict<HeaderValue>, j: int) {
    0 <= j < |d.keys| && d.keys[j] in d.vals && IsTraceName(d.keys[j]) && d.vals[d.keys[j]].HText?
  }

  /**
   * Starting from no headers: a header whose name is not a spelling of
   * `x-trace-id` is copied exactly when its value is a string; the trace
   * header is stored only under the lower-case name, and holds the trace
   * id the loop saw.
   */
  lemma {:induction false} FoldCopies(d: Dict.Dict<HeaderValue>, n: nat)
    requires n <= |d.keys|
    ensures CopiesOf(d, n, Fold(d, n, map[]))
  {
    if n > 0 {
      FoldCopies(d, n - 1);
      Dict.KeysHaveValues(d, n - 1);
      CopyStepKeeps(d, n, Fold(d, n - 1, map[]));
    }
  }

  /** What the copy loop holds after the first `n` broker headers, starting from no headers. */
  ghost predicate CopiesOf(d: Dict.Dict<HeaderValue>, n: nat, c: Copied)
    requires n <= |d.keys|
  {
    TraceStored(c) && OthersCopied(d, n, c)
  }

  /** The trace header is stored only under the lower-case name, and holds the trace id. */
  ghost predicate TraceStored(c: Copied) {
    && (forall k :: k in c.headers && IsTraceName(k) ==> k == TraceHeader)
    && (TraceHeader in c.headers <==> c.traceId.Some?)
    && (c.traceId.Some? ==> c.headers[TraceHeader] == c.traceId.value)
  }

  /** The headers not spelled `x-trace-id` copied so far: those with a string value among the first `n`. */
  ghost predicate OthersCopied(d: Dict.Dict<HeaderValue>, n: nat, c: Copied)
    requires n <= |d.keys|
  {
    && (forall k :: !IsTraceName(k) ==> (k in c.headers <==> k in d.keys[..n] && k in d.vals && d.vals[k].HText?))
    && (forall k :: !IsTraceName(k) && k in c.headers ==> k in d.vals && c.headers[k] == d.vals[k].text)
  }

  /** One iteration of the copy loop keeps what it holds. */
  lemma CopyStepKeeps(d: Dict.Dict<HeaderValue>, n: nat, c: Copied)
    requires 0 < n <= |d.keys| && d.keys[n - 1] in d.vals
    requires CopiesOf(d, n - 1, c)
    ensures CopiesOf(d, n, CopyStep(c, d.keys[n - 1], d.vals[d.keys[n - 1]]))
  {
    TraceStoredStep(c, d.keys[n - 1], d.vals[d.keys[n - 1]]);
    OthersCopiedStep(d, n, c);
  }

  lemma TraceStoredStep(c: Copied, h: string, v: HeaderValue)
    requires TraceStored(c)
    ensures TraceStored(CopyStep(c, h, v))
  {
    assert IsTraceName(TraceHeader);
  }

  lemma OthersCopiedStep(d: Dict.Dict<HeaderValue>, n: nat, c: Copied)
    requires 0 < n <= |d.keys| && d.keys[n - 1] in d.vals
    requires OthersCopied(d, n - 1, c)
    ensures OthersCopied(d, n, CopyStep(c, d.keys[n - 1], d.vals[d.keys[n - 1]]))
  {
    var h := d.keys[n - 1];
    assert d.keys[..n] == d.keys[..n - 1] + [h];
    assert IsTraceName(TraceHeader);
    forall k | !IsTraceName(k) && k != h
      ensures k in d.keys[..n] <==> k in d.keys[..n - 1]
    {
    }
    forall k | !IsTraceName(k) && k == h
      ensures k !in d.keys[..n - 1]
    {
      assert forall i :: 0 <= i < n - 1 ==> d.keys[i] != d.keys[n - 1];
    }
  }

  /** The trace id the loop keeps is the one of the last string-valued header spelled `x-trace-id` in any case. */
  lemma {:induction false} FoldKeepsLastTrace(d: Dict.Dict<HeaderValue>, n: nat, base: map<string, string>)
    requires n <= |d.keys|
    ensures KeepsLastTrace(d, n, Fold(d, n, base).traceId)
  {
    FoldTraceIsLast(d, n, base);
    LastTraceIsLast(d, n);
  }

  /**
   * The trace id `t` after the first `n` headers: present exactly when one of
   * them is a string-valued trace header, and then the value of the last one.
   */
  ghost predicate KeepsLastTrace(d: Dict.Dict<HeaderValue>, n: nat, t: Option<string>)
    requires n <= |d.keys|
  {
    && (t.Some? <==> exists j :: 0 <= j < n && TraceAt(d, j))
    && (forall j :: LastAt(d, j, n) ==> t == Some(d.vals[d.keys[j]].text))
  }

  /** Header `j` is the last string-valued trace header among the first `n`. */
  ghost predicate LastAt(d: Dict.Dict<HeaderValue>, j: int, n: nat) {
    0 <= j < n && TraceAt(d, j) && forall i :: j < i < n ==> !TraceAt(d, i)
  }

  /** The value of the last string-valued trace header among the first `n`. */
  ghost function LastTrace(d: Dict.Dict<HeaderValue>, n: nat): Option<string>
    requires n <= |d.keys|
  {
    if n == 0 then None
    else if TraceAt(d, n - 1) then Some(d.vals[d.keys[n - 1]].text)
    else LastTrace(d, n - 1)
  }

  lemma {:induction false} FoldTraceIsLast(d: Dict.Dict<HeaderValue>, n: nat, base: map<string, string>)
    requires n <= |d.keys|
    ensures Fold(d, n, base).traceId == LastTrace(d, n)
  {
    if n > 0 {
      FoldTraceIsLast(d, n - 1, base);
      Dict.KeysHaveValues(d, n - 1);
    }
  }

  lemma {:induction false} LastTraceIsLast(d: Dict.Dict<HeaderValue>, n: nat)
    requires n <= |d.keys|
    ensures KeepsLastTrace(d, n, LastTrace(d, n))
  {
    if n > 0 {
      LastTraceIsLast(d, n - 1);
      var t := LastTrace(d, n);
      if TraceAt(d, n - 1) {
        forall j | LastAt(d, j, n)
          ensures j == n - 1
        {
        }
      } else {
        assert t == LastTrace(d, n - 1);
        forall j | LastAt(d, j, n)
          ensures LastAt(d, j, n - 1)
        {
        }
        assert (exists j :: 0 <= j < n && TraceAt(d, j)) ==> (exists j :: 0 <= j < n - 1 && TraceAt(d, j));
      }
    }
  }

  /** The event the consumer handler of subscription `sub` sends to the host for one record. */
  function InboundEnvelope(sub: Subscription, p: Payload, uuid: string, codec: Codec): (e: Envelope)
    ensures e.body == DecodeValue(p.message.value, codec)
    ensures "_client" in e.headers && e.headers["_client"] == sub.consumer
    ensures "_target" in e.headers && e.headers["_target"] == sub.target
    ensures "_topic" in e.headers && e.headers["_topic"] == p.topic
    ensures "_partition" in e.headers && e.headers["_partition"] == IntToString(p.partition)
    ensures "_offset" in e.headers && e.headers["_offset"] == p.message.offset
    ensures e.to.None? && e.replyTo.None? && e.correlationId.None? && e.traceId.None?
  {
    var copied := if p.message.headers.Some? then CopiedHeaders(p.message.headers.value, map[], sub.tracing, uuid) else map[];
    Blank().(body := DecodeValue(p.message.value, codec),
             headers := copied["_client" := sub.consumer]["_target" := sub.target]["_topic" := p.topic]
                              ["_partition" := IntToString(p.partition)]["_offset" := p.message.offset])
  }

  /** The copy loop skips every header whose value is not a string. */
  lemma {:induction false} FoldSkipsNonText(d: Dict.Dict<HeaderValue>, n: nat)
    requires n <= |d.keys|
    requires forall k :: k in d.vals ==> d.vals[k].HNotText?
    ensures Fold(d, n, map[]) == Copied(map[], None)
  {
    if n > 0 {
      FoldSkipsNonText(d, n - 1);
      Dict.KeysHaveValues(d, n - 1);
    }
  }

  /**
   * A record whose header values are none of them strings (Buffers, as a
   * Kafka client may deliver them) reaches the host with no copied header:
   * `x-trace-id` is there exactly when tracing is on, and it is then the
   * generated id.
   */
  lemma NonTextHeadersLoseTrace(sub: Subscription, p: Payload, uuid: string, codec: Codec)
    requires p.message.headers.Some?
    requires forall k :: k in p.message.headers.value.vals ==> p.message.headers.value.vals[k].HNotText?
    ensures var e := InboundEnvelope(sub, p, uuid, codec);
      && (TraceHeader in e.headers <==> sub.tracing)
      && (sub.tracing ==> e.headers[TraceHeader] == uuid)
      && e.headers.Keys == {"_client", "_target", "_topic", "_partition", "_offset"} + (if sub.tracing then {TraceHeader} else {})
  {
    var d := p.message.headers.value;
    FoldSkipsNonText(d, |d.keys|);
  }

  /**
   * With tracing on and a fresh id that is not empty, every record that
   * comes with headers reaches the host with a non-empty `x-trace-id`.
   */
  lemma TracingGivesTraceId(sub: Subscription, p: Payload, uuid: string, codec: Codec)
    requires sub.tracing && uuid != "" && p.message.headers.Some?
    ensures var e := InboundEnvelope(sub, p, uuid, codec);
      TraceHeader in e.headers && e.headers[TraceHeader] != ""
  {
    var d := p.message.headers.value;
    var c := Fold(d, |d.keys|, map[]);
    FoldCopies(d, |d.keys|);
    assert |d.keys| == |d.keys[..|d.keys|]|;
  }
}
