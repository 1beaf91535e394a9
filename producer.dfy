/**
 * `SimpleKafkaProducer` of the Kafka worker: a producer over a Kafka client
 * that serialises each message as JSON text and sends it, with the event's
 * headers as string headers, under a fresh key.
 */
module Producers {
  import opened Wrappers
  import opened Json
  import opened Broker

  /** `getStringHeaders(headers)`: every header as a string; none at all when the argument is absent. */
  method GetStringHeaders(headers: Option<map<string, string>>) returns (result: map<string, string>)
    ensures headers.None? ==> result == map[]
    ensures headers.Some? ==> result == headers.value
  {
    result := map[];
    if headers.Some? {
      var h := headers.value;
      var rest := h.Keys;
      while rest != {}
        invariant rest <= h.Keys
        invariant result.Keys == h.Keys - rest
        invariant forall k :: k in result ==> result[k] == h[k]
        decreases rest
      {
        var k :| k in rest;
        result := result[k := h[k]];
        rest := rest - {k};
      }
    }
  }

  class SimpleKafkaProducer {
    const id: string
    var connected: bool

    constructor Of(uuid: string)
      ensures id == uuid && !connected
    {
      id := uuid;
      connected := false;
    }

    /** `new SimpleKafkaProducer(client)`: only a Kafka client has `producer()`; anything else throws. */
    static method New(client: Client, uuid: string) returns (r: Result<SimpleKafkaProducer, string>)
      ensures client.KafkaClient? <==> r.Success?
      ensures r.Failure? ==> r.error == "client.producer is not a function"
      ensures r.Success? ==> fresh(r.value) && r.value.id == uuid && !r.value.connected
    {
      if client.KafkaClient? {
        var p := new SimpleKafkaProducer.Of(uuid);
        r := Success(p);
      } else {
        r := Failure("client.producer is not a function");
      }
    }

    /** `connect()`: connects the underlying producer, on every call. */
    method Connect() returns (calls: seq<Call>)
      modifies this`connected
      ensures connected && calls == [ProducerConnect(id)]
    {
      calls := [ProducerConnect(id)];
      connected := true;
    }

    /**
     * `send(topic, message, headers)`: one record keyed by `key` (a fresh
     * UUID) whose value is the JSON text of `message`; before `connect` it
     * throws.
     */
    method Send(topic: string, message: Body, headers: Option<map<string, string>>, key: string, codec: Codec)
      returns (r: Result<Call, string>)
      ensures !connected <==> r.Failure?
      ensures r.Failure? ==> r.error == "Producer " + id + " not ready"
      ensures r.Success? ==> r.value.ProducerSend? && r.value.producer == id && r.value.topic == topic
      ensures r.Success? ==> r.value.record.key == key && r.value.record.value == Binary(codec.stringify(message))
      ensures r.Success? ==> r.value.record.headers == Some(if headers.Some? then headers.value else map[])
    {
      if connected {
        var h := GetStringHeaders(headers);
        r := Success(ProducerSend(id, topic, Record(key, Binary(codec.stringify(message)), Some(h))));
      } else {
        r := Failure("Producer " + id + " not ready");
      }
    }

    /** `close()`: disconnects the producer if it was connected. */
    method Close() returns (calls: seq<Call>)
      ensures connected <==> calls == [ProducerDisconnect(id)]
      ensures !connected <==> calls == []
    {
      calls := if connected then [ProducerDisconnect(id)] else [];
    }
  }
}
