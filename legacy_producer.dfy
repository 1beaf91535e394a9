/**
 * The stand-alone `SimpleKafkaProducer` of the Kafka adapter's `kafka`
 * folder: the same producer as the worker's, except that `send` takes no
 * headers and the record it sends carries none.
 */
module LegacyProducers {
  import opened Wrappers
  import opened Json
  import opened Broker

  class SimpleKafkaProducer {
    const id: string
    var connected: bool

    constructor Of(uuid: string)
      ensures id == uuid && !connected
    {
      id := uuid;
      connected := false;
    }

    /** `new SimpleKafkaProducer(client)`: only a Kafka client has `producer()`; anything else throws. */
    static method New(client: Client, uuid: string) returns (r: Result<SimpleKafkaProducer, string>)
      ensures client.KafkaClient? <==> r.Success?
      ensures r.Failure? ==> r.error == "client.producer is not a function"
      ensures r.Success? ==> fresh(r.value) && r.value.id == uuid && !r.value.connected
    {
      if client.KafkaClient? {
        var p := new SimpleKafkaProducer.Of(uuid);
        r := Success(p);
      } else {
        r := Failure("client.producer is not a function");
      }
    }

    /** `connect()`: connects the underlying producer, on every call. */
    method Connect() returns (calls: seq<Call>)
      modifies this`connected
      ensures connected && calls == [ProducerConnect(id)]
    {
      calls := [ProducerConnect(id)];
      connected := true;
    }

    /** `send(topic, message)`: one record keyed by `key`, valued by the JSON text of `message`, without headers. */
    method Send(topic: string, message: Body, key: string, codec: Codec) returns (r: Result<Call, string>)
      ensures !connected <==> r.Failure?
      ensures r.Failure? ==> r.error == "Producer " + id + " not ready"
      ensures r.Success? ==> r.value == ProducerSend(id, topic, Record(key, Binary(codec.stringify(message)), None))
    {
      if connected {
        r := Success(ProducerSend(id, topic, Record(key, Binary(codec.stringify(message)), None)));
      } else {
        r := Failure("Producer " + id + " not ready");
      }
    }

    /** `close()`: disconnects the producer if it was connected. */
    method Close() returns (calls: seq<Call>)
      ensures connected <==> calls == [ProducerDisconnect(id)]
      ensures !connected <==> calls == []
    {
      calls := if connected then [ProducerDisconnect(id)] else [];
    }
  }
}
