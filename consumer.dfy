/**
 * `SimpleKafkaConsumer`: a consumer over either a Kafka client or the
 * emulator. It connects once, subscribes one handler per topic, counts
 * emulated deliveries to number their offsets, logs acknowledgements, and
 * disconnects the Kafka consumer on close.
 */
module Consumers {
  import opened Wrappers
  import opened Json
  import opened Envelopes
  import opened Broker
  import Dict
  import JsString

  /** The record `ack` logs: an exception for an error status, an acknowledgement otherwise. */
  datatype AckLog =
    | ReceivedException(message: string, status: Option<int>, error: Body)
    | ReceivedAcknowledgement(message: string, headers: map<string, string>, body: Body)

  /** The headers of the emulated message: the envelope's headers in the order `order` lists them. */
  function HeadersInOrder(h: map<string, string>, order: seq<string>): (d: Dict.Dict<HeaderValue>)
    requires forall i, j :: 0 <= i < j < |order| ==> order[i] != order[j]
    requires (set k | k in order) == h.Keys
    ensures d.keys == order
    ensures forall k :: k in h ==> d.vals[k] == HText(h[k])
  {
    var r := Dict.RawDict(order, map k | k in h :: HText(h[k]));
    r
  }

  /**
   * What consumer `id` logs for a response: an exception record with the
   * status and body for a status of 400 or more, an acknowledgement record
   * with the headers and body otherwise.
   */
  function AckRecord(id: string, evt: Envelope): (log: AckLog)
    ensures IsErrorStatus(evt) <==> log.ReceivedException?
    ensures log.ReceivedException? ==>
      log == ReceivedException("Consumer " + id + " received exception", evt.status, evt.body)
    ensures log.ReceivedAcknowledgement? ==>
      log == ReceivedAcknowledgement("Consumer " + id + " received acknowledgement", evt.headers, evt.body)
  {
    if IsErrorStatus(evt) then ReceivedException("Consumer " + id + " received exception", evt.status, evt.body)
    else ReceivedAcknowledgement("Consumer " + id + " received acknowledgement", evt.headers, evt.body)
  }

  /** The message of an ack record names its consumer: two consumers never log the same message for one response. */
  lemma AckNamesItsConsumer(id1: string, id2: string, evt: Envelope)
    requires AckRecord(id1, evt).message == AckRecord(id2, evt).message
    ensures id1 == id2
  {
    var suffix := if IsErrorStatus(evt) then " received exception" else " received acknowledgement";
    var m1 := "Consumer " + id1 + suffix;
    var m2 := "Consumer " + id2 + suffix;
    assert m1 == AckRecord(id1, evt).message && m2 == AckRecord(id2, evt).message;
    assert |id1| == |id2|;
    assert id1 == m1[9..9 + |id1|];
    assert id2 == m2[9..9 + |id2|];
  }

  class SimpleKafkaConsumer {
    const id: string
    /** Built over a Kafka client (otherwise over the emulator). */
    const overKafka: bool
    const groupId: string
    /** The number of messages delivered by the emulator so far. */
    var delivered: nat
    var connected: bool
    /** The emulator topics this consumer listens to. */
    var listening: seq<string>

    constructor Of(overKafka: bool, groupId: string, uuid: string)
      ensures this.id == uuid && this.overKafka == overKafka && this.groupId == groupId
      ensures delivered == 0 && !connected && listening == []
    {
      this.id := uuid;
      this.overKafka := overKafka;
      this.groupId := groupId;
      delivered, connected, listening := 0, false, [];
    }

    /** `new SimpleKafkaConsumer(client, groupId)`: a Kafka client or the emulator, anything else throws. */
    static method New(client: Client, groupId: string, uuid: string) returns (r: Result<SimpleKafkaConsumer, string>)
      ensures client.Neither? <==> r.Failure?
      ensures r.Failure? ==> r.error == "client must be an instance of Kafka or EventEmitter"
      ensures r.Success? ==> fresh(r.value) && r.value.id == uuid && r.value.groupId == groupId
      ensures r.Success? ==> r.value.overKafka == client.KafkaClient? && r.value.delivered == 0
      ensures r.Success? ==> !r.value.connected && r.value.listening == []
    {
      if client.KafkaClient? {
        var c := new SimpleKafkaConsumer.Of(true, groupId, uuid);
        r := Success(c);
      } else if client.Emitter? {
        var c := new SimpleKafkaConsumer.Of(false, groupId, uuid);
        r := Success(c);
      } else {
        r := Failure("client must be an instance of Kafka or EventEmitter");
      }
    }

    /** `connect()`: connects the Kafka consumer the first time only. */
    method Connect() returns (calls: seq<Call>)
      modifies this`connected
      ensures connected
      ensures calls == (if !old(connected) && overKafka then [ConsumerConnect(id)] else [])
    {
      calls := [];
      if !connected {
        if overKafka {
          calls := [ConsumerConnect(id)];
        }
        connected := true;
      }
    }

    /**
     * `subscribe(topic, handler)`: a Kafka consumer subscribes and runs the
     * handler for each message; an emulated one listens on the topic. Before
     * `connect` it throws.
     */
    method Subscribe(topic: string) returns (r: Result<seq<Call>, string>)
      modifies this`listening
      ensures !connected ==> r == Failure("Consumer " + id + " not ready") && listening == old(listening)
      ensures connected && overKafka ==> r == Success([ConsumerSubscribe(id, topic), ConsumerRun(id)]) && listening == old(listening)
      ensures connected && !overKafka ==> r == Success([EmitterListen(id, topic)]) && listening == old(listening) + [topic]
    {
      if connected {
        if overKafka {
          r := Success([ConsumerSubscribe(id, topic), ConsumerRun(id)]);
        } else {
          listening := listening + [topic];
          r := Success([EmitterListen(id, topic)]);
        }
      } else {
        r := Failure("Consumer " + id + " not ready");
      }
    }

    /**
     * The emulator listener: builds the message the handler receives from an
     * envelope emitted on `topic`. Offsets count the deliveries (1, 2, ...)
     * and the partition is always 0.
     */
    method OnEmulatedMessage(topic: string, b: Envelope, order: seq<string>) returns (p: Payload)
      requires topic in listening
      requires forall i, j :: 0 <= i < j < |order| ==> order[i] != order[j]
      requires (set k | k in order) == b.headers.Keys
      modifies this`delivered
      ensures delivered == old(delivered) + 1
      ensures p == Payload(topic, 0, KafkaMessage(b.body, JsString.NatToString(delivered), Some(HeadersInOrder(b.headers, order))))
    {
      delivered := delivered + 1;
      p := Payload(topic, 0, KafkaMessage(b.body, JsString.NatToString(delivered), Some(HeadersInOrder(b.headers, order))));
    }

    /** `ack(evt)`: logs the response from a task or a flow; there is no commit and nothing changes. */
    method Ack(evt: Envelope) returns (log: AckLog)
      ensures IsErrorStatus(evt) <==> log.ReceivedException?
      ensures log.ReceivedException? ==> log.status == evt.status && log.error == evt.body
      ensures log.ReceivedAcknowledgement? ==> log.headers == evt.headers && log.body == evt.body
      ensures log == AckRecord(id, evt)
    {
      if IsErrorStatus(evt) {
        log := ReceivedException("Consumer " + id + " received exception", evt.status, evt.body);
      } else {
        log := ReceivedAcknowledgement("Consumer " + id + " received acknowledgement", evt.headers, evt.body);
      }
    }

    /** `close()`: disconnects the Kafka consumer if it was connected; `connected` stays as it is. */
    method Close() returns (calls: seq<Call>)
      ensures calls == [ConsumerDisconnect(id)] <==> connected && overKafka
      ensures calls == [] <==> !(connected && overKafka)
    {
      calls := [];
      if connected {
        if overKafka {
          calls := [ConsumerDisconnect(id)];
        }
      }
    }
  }

  /** Two emulated deliveries to one consumer never share an offset. */
  lemma EmulatedOffsetsDistinct(m: nat, n: nat)
    requires m != n
    ensures JsString.NatToString(m) != JsString.NatToString(n)
  {
    if JsString.NatToString(m) == JsString.NatToString(n) {
      JsString.NatToStringInjective(m, n);
    }
  }
}
