/**
 * What the wrappers exchange with the Kafka client library (kafkajs) and with
 * the in-process Kafka emulator (an EventEmitter): the calls they make on
 * them and the messages they hand to a subscriber.
 */
module Broker {
  import opened Wrappers
  import opened Json
  import Dict

  /** What a wrapper is constructed over: a Kafka client, the emulator, or anything else. */
  datatype Client =
    | KafkaClient(brokers: seq<string>, clientId: string)
    | Emitter
    | Neither

  /** A message header as kafkajs delivers it; only plain strings are copied into an event. */
  datatype HeaderValue = HText(text: string) | HNotText

  /** One record handed to `producer.send`. */
  datatype Record = Record(key: string, value: Body, headers: Option<map<string, string>>)

  /** A call a wrapper makes on the Kafka client library or the emulator. */
  datatype Call =
    | ConsumerConnect(consumer: string)
    | ConsumerSubscribe(consumer: string, topic: string)
    | ConsumerRun(consumer: string)
    | ConsumerDisconnect(consumer: string)
    | EmitterListen(consumer: string, topic: string)
    | ProducerConnect(producer: string)
    | ProducerSend(producer: string, topic: string, record: Record)
    | ProducerDisconnect(producer: string)

  /**
   * The fields of a consumed message that the subscriber reads: the value
   * (a Buffer, a string or anything else), its offset, and the headers,
   * which may be absent.
   */
  datatype KafkaMessage = KafkaMessage(value: Body, offset: string, headers: Option<Dict.Dict<HeaderValue>>)

  /** `EachMessagePayload`: the topic and partition a message came from, and the message. */
  datatype Payload = Payload(topic: string, partition: int, message: KafkaMessage)
}
