/**
 * The worker-thread half of kafka-worker.ts: the dispatcher over the
 * `started` flag and the `allConsumers` registry, start-up (client, consumers,
 * producer), shutdown, outgoing messages to the producer, and the consumer
 * handler that forwards each record to the host.
 */
module KafkaRuntime {
  import opened Wrappers
  import opened Json
  import opened Envelopes
  import opened Broker
  import opened JsString
  import Dict
  import opened Consumers
  import opened Producers
  import opened KafkaInbound
  import opened Bridges

  /** One entry of the `consumer` list of kafka-adapter.yaml, as `getProperty` reads it. */
  datatype ConsumerEntry = ConsumerEntry(topic: Option<string>, target: Option<string>, group: Option<string>, tracing: Option<string>)

  /** kafka-adapter.yaml: `consumers` is `None` when `consumer` is not an array. */
  datatype AdapterConfig = AdapterConfig(consumers: Option<seq<ConsumerEntry>>, producerEnabled: Option<string>)

  /**
   * What start-up reads: `emulate.kafka` from the application config, the
   * `brokers` of kafka-client.yaml (`None` when not an array), the post
   * office's id, and the adapter config.
   */
  datatype Settings = Settings(emulateKafka: Option<string>, brokers: Option<seq<string>>, clientId: string, adapter: AdapterConfig)

  /** What the worker records: messages to the host, foreign calls, logged acknowledgements and errors. */
  datatype Event =
    | ToParent(envelope: Envelope)
    | Foreign(call: Call)
    | Acknowledged(log: AckLog)
    | SkippedEntry(index: nat)
    | Thrown(message: string)
    | PortClosed

  /** The branch of the dispatcher an envelope takes. */
  datatype Action = Acknowledge | Initialise | StartUp | ShutDown | SendOutgoing | EchoBack

  /** The worker's `parentPort.on('message')` decision, in the order the branches are tried. */
  function Dispatch(evt: Envelope, started: bool, consumers: set<string>): Action {
    if Truthy(evt.correlationId) && evt.correlationId.value in consumers then Acknowledge
    else if HeaderIs(evt, "type", "init") && Truthy(Header(evt, "resource.path")) then Initialise
    else if HeaderIs(evt, "type", "start") && !started then StartUp
    else if HeaderIs(evt, "type", "stop") then ShutDown
    else if Truthy(Header(evt, "topic")) && IsObject(evt.body) then SendOutgoing
    else EchoBack
  }

  /** Start-up runs at most once: once started, no envelope takes the start branch. */
  lemma StartOnlyOnce(evt: Envelope, consumers: set<string>)
    ensures Dispatch(evt, true, consumers) != StartUp
  {
  }

  /** A repeated `start` without a topic is echoed to the host, not dropped. */
  lemma RepeatedStartEchoes(evt: Envelope, consumers: set<string>)
    requires HeaderIs(evt, "type", "start") && !Truthy(Header(evt, "topic"))
    requires !(Truthy(evt.correlationId) && evt.correlationId.value in consumers)
    ensures Dispatch(evt, false, consumers) == StartUp
    ensures Dispatch(evt, true, consumers) == EchoBack
  {
  }

  /** `started` decides nothing except whether a `start` envelope starts the worker. */
  lemma StartedOnlyMattersForStart(evt: Envelope, consumers: set<string>)
    requires Dispatch(evt, false, consumers) != Dispatch(evt, true, consumers)
    ensures HeaderIs(evt, "type", "start")
    ensures Dispatch(evt, false, consumers) == StartUp
  {
  }

  /** A response correlated by a registered consumer's id is an acknowledgement whatever its headers say. */
  lemma AckComesFirst(evt: Envelope, started: bool, consumers: set<string>)
    requires evt.correlationId.Some? && evt.correlationId.value in consumers && evt.correlationId.value != ""
    ensures Dispatch(evt, started, consumers) == Acknowledge
  {
  }

  /** `getKafkaClient()`, or the emulator: which client start-up uses. */
  function ClientFor(s: Settings): (r: Result<Client, string>)
    ensures r.Success? && r.value.Emitter? <==> s.emulateKafka == Some("true")
    ensures r.Failure? <==> s.emulateKafka != Some("true") && !(s.brokers.Some? && |s.brokers.value| > 0)
    ensures r.Failure? ==> r.error == "Missing brokers in kafka-client.yaml"
    ensures r.Success? && !r.value.Emitter? ==> r.value == KafkaClient(s.brokers.value, s.clientId)
  {
    if s.emulateKafka == Some("true") then Success(Emitter)
    else if s.brokers.Some? && |s.brokers.value| > 0 then Success(KafkaClient(s.brokers.value, s.clientId))
    else Failure("Missing brokers in kafka-client.yaml")
  }

  /** A consumer entry is set up only with a topic, a target and a group. */
  predicate EntryComplete(e: ConsumerEntry) {
    Truthy(e.topic) && Truthy(e.target) && Truthy(e.group)
  }

  function Entries(s: Settings): seq<ConsumerEntry> {
    if s.adapter.consumers.Some? then s.adapter.consumers.value else []
  }

  /** The calls a new consumer makes: connect, subscribe and run on Kafka, or listen on the emulator. */
  function ConsumerCalls(overKafka: bool, id: string, topic: string): seq<Event> {
    if overKafka then [Foreign(ConsumerConnect(id)), Foreign(ConsumerSubscribe(id, topic)), Foreign(ConsumerRun(id))]
    else [Foreign(EmitterListen(id, topic))]
  }

  /** What setting up entry `i` records: the consumer's calls, or the skipped entry. */
  function EntryEvents(e: ConsumerEntry, i: nat, overKafka: bool, id: string): seq<Event> {
    if EntryComplete(e) then ConsumerCalls(overKafka, id, e.topic.value) else [SkippedEntry(i)]
  }

  /** What setting up the first `n` entries records; entry `i` gets the consumer id `ids[i]`. */
  function SetupEvents(entries: seq<ConsumerEntry>, n: nat, overKafka: bool, ids: seq<string>): seq<Event>
    requires n <= |entries| <= |ids|
  {
    if n == 0 then []
    else SetupEvents(entries, n - 1, overKafka, ids) + EntryEvents(entries[n - 1], n - 1, overKafka, ids[n - 1])
  }

  /** The subscriptions the first `n` entries give. */
  function SetupSubscriptions(entries: seq<ConsumerEntry>, n: nat, ids: seq<string>): seq<Subscription>
    requires n <= |entries| <= |ids|
  {
    if n == 0 then []
    else
      var e := entries[n - 1];
      SetupSubscriptions(entries, n - 1, ids)
        + (if EntryComplete(e) then [Subscription(ids[n - 1], e.topic.value, e.target.value, e.tracing == Some("true"))] else [])
  }

  /** The consumer ids the first `n` entries register. */
  function SetupIds(entries: seq<ConsumerEntry>, n: nat, ids: seq<string>): set<string>
    requires n <= |entries| <= |ids|
  {
    if n == 0 then {}
    else SetupIds(entries, n - 1, ids) + (if EntryComplete(entries[n - 1]) then {ids[n - 1]} else {})
  }

  /** An entry is skipped, and logged, exactly when it lacks a topic, a target or a group. */
  lemma {:induction false} SkippedIffIncomplete(entries: seq<ConsumerEntry>, n: nat, overKafka: bool, ids: seq<string>, i: nat)
    requires n <= |entries| <= |ids|
    ensures SkippedEntry(i) in SetupEvents(entries, n, overKafka, ids) <==> i < n && !EntryComplete(entries[i])
  {
    if n > 0 {
      SkippedIffIncomplete(entries, n - 1, overKafka, ids, i);
    }
  }

  /** The foreign calls as recorded events, in order. */
  function AsEvents(calls: seq<Call>): (r: seq<Event>)
    ensures |r| == |calls| && forall k :: 0 <= k < |calls| ==> r[k] == Foreign(calls[k])
  {
    if calls == [] then [] else [Foreign(calls[0])] + AsEvents(calls[1..])
  }

  /** Every subscription comes from a complete entry, with its topic and target, and the entry's consumer id. */
  lemma {:induction false} SubscriptionsFromCompleteEntries(entries: seq<ConsumerEntry>, n: nat, ids: seq<string>, k: nat)
    requires n <= |entries| <= |ids|
    requires k < |SetupSubscriptions(entries, n, ids)|
    ensures exists i :: (0 <= i < n && EntryComplete(entries[i])
      && SetupSubscriptions(entries, n, ids)[k] ==
         Subscription(ids[i], entries[i].topic.value, entries[i].target.value, entries[i].tracing == Some("true")))
  {
    var prev := SetupSubscriptions(entries, n - 1, ids);
    if k < |prev| {
      SubscriptionsFromCompleteEntries(entries, n - 1, ids, k);
      var i :| 0 <= i < n - 1 && EntryComplete(entries[i])
        && prev[k] == Subscription(ids[i], entries[i].topic.value, entries[i].target.value, entries[i].tracing == Some("true"));
      assert SetupSubscriptions(entries, n, ids)[k] == prev[k];
    } else {
      assert SetupSubscriptions(entries, n, ids)[k] ==
        Subscription(ids[n - 1], entries[n - 1].topic.value, entries[n - 1].target.value, entries[n - 1].tracing == Some("true"));
    }
  }

  lemma {:induction false} SubscriptionsRegistered(entries: seq<ConsumerEntry>, n: nat, ids: seq<string>)
    requires n <= |entries| <= |ids|
    ensures forall k :: 0 <= k < |SetupSubscriptions(entries, n, ids)| ==>
      SetupSubscriptions(entries, n, ids)[k].consumer in SetupIds(entries, n, ids)
  {
    if n > 0 {
      SubscriptionsRegistered(entries, n - 1, ids);
    }
  }

  /** The events of `stop` for the registered consumers: one disconnect each, in key order, for a Kafka client. */
  function CloseEvents(keys: seq<string>, overKafka: bool): seq<Event> {
    if keys == [] || !overKafka then []
    else CloseEvents(keys[..|keys| - 1], overKafka) + [Foreign(ConsumerDisconnect(keys[|keys| - 1]))]
  }

  /** The body the host receives for every outgoing message. */
  function Confirmation(topic: string, now: string): Body {
    Obj(map["topic" := Str(topic), "message" := Str("Event sent"), "time" := Str(now)])
  }

  /** Whether `handleOutgoingKafkaMessage` sends: a `content` key and a producer. */
  predicate Sends(evt: Envelope, producerId: Option<string>) {
    HasKey(evt.body, "content") && producerId.Some?
  }

  /** The outgoing envelope after the trace id, if any, is copied into `x-trace-id` (only when it is sent). */
  function Traced(evt: Envelope, producerId: Option<string>): Envelope {
    if Sends(evt, producerId) && Truthy(evt.traceId) then SetHeader(evt, TraceHeader, evt.traceId.value) else evt
  }

  /** `handleOutgoingKafkaMessage(evt)`: the producer call, if any, then the confirmation to the host. */
  function Outgoing(evt: Envelope, producerId: Option<string>, key: string, now: string, codec: Codec): seq<Event>
    requires Truthy(Header(evt, "topic"))
  {
    var topic := evt.headers["topic"];
    var e := Traced(evt, producerId);
    (if Sends(evt, producerId) then
       [Foreign(ProducerSend(producerId.value, topic, Record(key, Binary(codec.stringify(evt.body.fields["content"])), Some(e.headers))))]
     else [])
    + [ToParent(e.(body := Confirmation(topic, now)))]
  }

  /**
   * An outgoing message reaches the producer only with `content` and a
   * producer, carrying the trace id as `x-trace-id`; the host is told
   * "Event sent" in every case, even when nothing was sent.
   */
  lemma OutgoingFacts(evt: Envelope, producerId: Option<string>, key: string, now: string, codec: Codec)
    requires Truthy(Header(evt, "topic"))
    ensures var out := Outgoing(evt, producerId, key, now, codec);
      && (|out| == 2 <==> Sends(evt, producerId))
      && out[|out| - 1].ToParent? && out[|out| - 1].envelope.body == Confirmation(evt.headers["topic"], now)
      && (Sends(evt, producerId) ==> out[0].Foreign? && out[0].call.ProducerSend? && out[0].call.topic == evt.headers["topic"])
      && (Sends(evt, producerId) && Truthy(evt.traceId) ==>
            out[0].call.record.headers.value[TraceHeader] == evt.traceId.value)
  {
  }

  /**
   * Round trip through Kafka: a message the worker sends with a trace id,
   * consumed by any subscription from a record that keeps its headers, is
   * handed to the host with the original content as body and the same
   * `x-trace-id`.
   */
  lemma {:induction false} KafkaRoundTrip(evt: Envelope, producerId: string, key: string, now: string, codec: Codec,
                                          sub: Subscription, partition: int, offset: string, uuid: string,
                                          d: Dict.Dict<HeaderValue>)
    requires Lawful(codec)
    requires Truthy(Header(evt, "topic")) && HasKey(evt.body, "content") && Truthy(evt.traceId)
    requires Plain(evt.body.fields["content"])
    requires forall k :: k in evt.headers && IsTraceName(k) ==> k == TraceHeader
    requires var out := Outgoing(evt, Some(producerId), key, now, codec);
      d.vals == map k | k in out[0].call.record.headers.value :: HText(out[0].call.record.headers.value[k])
    ensures var r := Outgoing(evt, Some(producerId), key, now, codec)[0].call.record;
      var e := InboundEnvelope(sub, Payload(evt.headers["topic"], partition, KafkaMessage(r.value, offset, Some(d))), uuid, codec);
      e.body == evt.body.fields["content"] && TraceHeader in e.headers && e.headers[TraceHeader] == evt.traceId.value
  {
    var r := Outgoing(evt, Some(producerId), key, now, codec)[0].call.record;
    var h := r.headers.value;
    assert h == evt.headers[TraceHeader := evt.traceId.value];
    DecodeSentValue(codec, evt.body.fields["content"]);
    TraceCarried(d, h, sub.tracing, uuid);
  }

  /**
   * The same round trip when the consumed record's header values are not
   * strings: the content still arrives as the body, but the producer's
   * `x-trace-id` does not; with tracing on, the host sees the generated id
   * instead, and without tracing no trace header at all.
   */
  lemma KafkaRoundTripNonTextHeaders(evt: Envelope, producerId: string, key: string, now: string, codec: Codec,
                                     sub: Subscription, partition: int, offset: string, uuid: string,
                                     d: Dict.Dict<HeaderValue>)
    requires Lawful(codec)
    requires Truthy(Header(evt, "topic")) && HasKey(evt.body, "content") && Truthy(evt.traceId)
    requires Plain(evt.body.fields["content"])
    requires forall k :: k in d.vals ==> d.vals[k].HNotText?
    ensures var r := Outgoing(evt, Some(producerId), key, now, codec)[0].call.record;
      var e := InboundEnvelope(sub, Payload(evt.headers["topic"], partition, KafkaMessage(r.value, offset, Some(d))), uuid, codec);
      && e.body == evt.body.fields["content"]
      && (TraceHeader in e.headers <==> sub.tracing)
      && (sub.tracing ==> e.headers[TraceHeader] == uuid)
  {
    var r := Outgoing(evt, Some(producerId), key, now, codec)[0].call.record;
    DecodeSentValue(codec, evt.body.fields["content"]);
    NonTextHeadersLoseTrace(sub, Payload(evt.headers["topic"], partition, KafkaMessage(r.value, offset, Some(d))), uuid, codec);
  }

  /**
   * A Buffer sent as content does not survive the round trip: the JSON text
   * of a Buffer is its `{"type":"Buffer","data":[...]}` object, and that object
   * is the body the host receives.
   */
  lemma KafkaRoundTripBufferContent(evt: Envelope, producerId: string, key: string, now: string, codec: Codec,
                                    sub: Subscription, partition: int, offset: string, uuid: string,
                                    d: Dict.Dict<HeaderValue>)
    requires Lawful(codec)
    requires Truthy(Header(evt, "topic")) && HasKey(evt.body, "content") && Truthy(evt.traceId)
    requires evt.body.fields["content"].Binary?
    ensures var r := Outgoing(evt, Some(producerId), key, now, codec)[0].call.record;
      var e := InboundEnvelope(sub, Payload(evt.headers["topic"], partition, KafkaMessage(r.value, offset, Some(d))), uuid, codec);
      BufferObject(e.body) && e.body != evt.body.fields["content"]
  {
    DecodeSentBuffer(codec, evt.body.fields["content"].text);
  }

  /** Record headers that hold the trace id under `x-trace-id` only are copied with that trace id. */
  lemma TraceCarried(d: Dict.Dict<HeaderValue>, h: map<string, string>, tracing: bool, uuid: string)
    requires TraceHeader in h && Truthy(Some(h[TraceHeader])) && forall k :: k in h && IsTraceName(k) ==> k == TraceHeader
    requires d.vals == map k | k in h :: HText(h[k])
    ensures var c := CopiedHeaders(d, map[], tracing, uuid);
      TraceHeader in c && c[TraceHeader] == h[TraceHeader]
  {
    var n := |d.keys|;
    var j :| 0 <= j < n && d.keys[j] == TraceHeader by {
      assert TraceHeader in d.vals;
      assert TraceHeader in (set k | k in d.keys);
    }
    assert IsTraceName(TraceHeader);
    assert TraceAt(d, j);
    forall i | j < i < n
      ensures !TraceAt(d, i)
    {
      Dict.KeysHaveValues(d, i);
      assert d.keys[i] != d.keys[j];
    }
    FoldKeepsLastTrace(d, n, map[]);
    FoldCopies(d, n);
  }

  /** What enabling the producer records: its connect call on Kafka; on the emulator the constructor throws. */
  function ProducerEvents(s: Settings, c: Client, id: string): seq<Event> {
    if s.adapter.producerEnabled != Some("true") then []
    else if c.KafkaClient? then [Foreign(ProducerConnect(id))]
    else [Thrown("client.producer is not a function")]
  }

  class KafkaWorkerRuntime {
    var config: Option<AppConfig>
    var started: bool
    /** `client || emitter`: `Neither` until start-up has chosen one. */
    var client: Client
    var producer: Option<SimpleKafkaProducer>
    var allConsumers: Dict.Dict<SimpleKafkaConsumer>
    var subscriptions: seq<Subscription>
    var events: seq<Event>
    var portOpen: bool

    ghost function ProducerObjects(): set<SimpleKafkaProducer>
      reads this
    {
      if producer.Some? then {producer.value} else {}
    }

    function ProducerId(): Option<string>
      reads this
    {
      if producer.Some? then Some(producer.value.id) else None
    }

    /**
     * Every registered consumer is keyed by its id, connected, and built
     * over the chosen client; a producer, once set, is connected; nothing is
     * registered before start-up; every subscription's consumer is registered.
     */
    ghost predicate Valid()
      reads this, allConsumers.vals.Values, ProducerObjects()
    {
      && (forall k :: k in allConsumers.vals ==>
            allConsumers.vals[k].id == k && allConsumers.vals[k].connected
            && allConsumers.vals[k].overKafka == client.KafkaClient?)
      && (producer.Some? ==> producer.value.connected)
      && (!started ==> allConsumers.keys == [] && subscriptions == [] && producer.None? && client.Neither?)
      && (forall i :: 0 <= i < |subscriptions| ==> subscriptions[i].consumer in allConsumers.vals)
    }

    constructor ()
      ensures Valid() && config.None? && !started && client.Neither? && producer.None?
      ensures allConsumers.keys == [] && subscriptions == [] && events == [] && portOpen
    {
      config, started, client, producer := None, false, Neither, None;
      allConsumers, subscriptions, events, portOpen := Dict.Empty(), [], [], true;
    }

    /** `sendEventToParent(evt)`. */
    method SendEventToParent(evt: Envelope)
      modifies this`events
      ensures events == old(events) + [ToParent(evt)]
    {
      events := events + [ToParent(evt)];
    }

    /** The consumer `setupConsumer` builds, connects and subscribes to `topic`, with the events of its calls. */
    static method ConnectedConsumer(client: Client, groupId: string, uuid: string, topic: string)
      returns (consumer: SimpleKafkaConsumer, recorded: seq<Event>)
      requires !client.Neither?
      ensures fresh(consumer) && consumer.id == uuid && consumer.connected && consumer.overKafka == client.KafkaClient?
      ensures recorded == ConsumerCalls(client.KafkaClient?, uuid, topic)
    {
      var made := SimpleKafkaConsumer.New(client, groupId, uuid);
      assert made.Success?;
      consumer := made.value;
      var calls := consumer.Connect();
      var subscribed := consumer.Subscribe(topic);
      assert subscribed.Success?;
      calls := calls + subscribed.value;
      recorded := AsEvents(calls);
    }

    /** `setupConsumer(topic, target, groupId, tracing)` with `uuid` as the consumer's id. */
    method SetupConsumer(topic: string, target: string, groupId: string, tracing: bool, uuid: string)
      requires Valid() && started && !client.Neither?
      modifies this`allConsumers, this`subscriptions, this`events
      ensures Valid()
      ensures allConsumers.vals.Keys == old(allConsumers.vals.Keys) + {uuid}
      ensures subscriptions == old(subscriptions) + [Subscription(uuid, topic, target, tracing)]
      ensures events == old(events) + ConsumerCalls(client.KafkaClient?, uuid, topic)
    {
      var consumer, calls := ConnectedConsumer(client, groupId, uuid, topic);
      allConsumers := Dict.Put(allConsumers, uuid, consumer);
      events := events + calls;
      subscriptions := subscriptions + [Subscription(uuid, topic, target, tracing)];
    }

    /** Start-up and shutdown leave the client, the registry and the subscriptions as they were. */
    twostate predicate RegistryKept()
      reads this
    {
      && started == old(started) && client == old(client) && producer == old(producer)
      && allConsumers == old(allConsumers) && subscriptions == old(subscriptions)
    }

    /**
     * What `startWorker` leaves: `started` set; without a config, or without
     * brokers when not emulating, the error and nothing else; otherwise the
     * chosen client, one consumer per complete entry (entry `i` gets the id
     * `ids[i]`) and, when enabled, a producer with the id `ids[n]`.
     */
    twostate predicate StartOutcome(s: Settings, ids: seq<string>)
      reads this
      requires |Entries(s)| < |ids|
    {
      var es := Entries(s);
      var n := |es|;
      var chosen := ClientFor(s);
      && started && config == old(config) && portOpen == old(portOpen)
      && (if old(config).None? || chosen.Failure? then
            && events == old(events) + [Thrown(if old(config).None? then ConfigMissing else chosen.error)]
            && client == old(client) && producer == old(producer)
            && allConsumers == old(allConsumers) && subscriptions == old(subscriptions)
          else
            && client == chosen.value
            && subscriptions == SetupSubscriptions(es, n, ids)
            && allConsumers.vals.Keys == SetupIds(es, n, ids)
            && events == old(events) + SetupEvents(es, n, client.KafkaClient?, ids) + ProducerEvents(s, client, ids[n])
            && ProducerId() == (if s.adapter.producerEnabled == Some("true") && client.KafkaClient? then Some(ids[n]) else None))
    }

    /** `startWorker()`. */
    method StartWorker(s: Settings, ids: seq<string>)
      requires Valid() && !started && |Entries(s)| < |ids|
      modifies this
      ensures Valid()
      ensures StartOutcome(s, ids)
    {
      started := true;
      if config.None? {
        events := events + [Thrown(ConfigMissing)];
        return;
      }
      var chosen := ClientFor(s);
      if chosen.Failure? {
        events := events + [Thrown(chosen.error)];
        return;
      }
      client := chosen.value;
      SetupKafkaAdapter(s, ids);
    }

    /** `setupKafkaAdapter()`: a consumer per complete entry, in order, then the producer if enabled. */
    method SetupKafkaAdapter(s: Settings, ids: seq<string>)
      requires Valid() && started && !client.Neither? && |Entries(s)| < |ids|
      requires allConsumers.keys == [] && subscriptions == [] && producer.None?
      modifies this`allConsumers, this`subscriptions, this`events, this`producer
      ensures Valid()
      ensures subscriptions == SetupSubscriptions(Entries(s), |Entries(s)|, ids)
      ensures allConsumers.vals.Keys == SetupIds(Entries(s), |Entries(s)|, ids)
      ensures events == old(events) + SetupEvents(Entries(s), |Entries(s)|, client.KafkaClient?, ids)
                        + ProducerEvents(s, client, ids[|Entries(s)|])
      ensures ProducerId() == (if s.adapter.producerEnabled == Some("true") && client.KafkaClient? then Some(ids[|Entries(s)|]) else None)
    {
      SetupConsumers(Entries(s), ids);
      SetupProducer(s, ids[|Entries(s)|]);
    }

    /** The registry and the log once the first `n` entries of `es` are set up. */
    ghost predicate SetUpTo(es: seq<ConsumerEntry>, n: nat, ids: seq<string>, before: seq<Event>)
      requires n <= |es| <= |ids|
      reads this
    {
      && subscriptions == SetupSubscriptions(es, n, ids)
      && allConsumers.vals.Keys == SetupIds(es, n, ids)
      && events == before + SetupEvents(es, n, client.KafkaClient?, ids)
    }

    /** The loop of `setupKafkaAdapter` over the consumer entries; entry `i` gets the id `ids[i]`. */
    method SetupConsumers(es: seq<ConsumerEntry>, ids: seq<string>)
      requires Valid() && started && !client.Neither? && |es| <= |ids|
      requires allConsumers.keys == [] && subscriptions == []
      modifies this`allConsumers, this`subscriptions, this`events
      ensures Valid()
      ensures subscriptions == SetupSubscriptions(es, |es|, ids)
      ensures allConsumers.vals.Keys == SetupIds(es, |es|, ids)
      ensures events == old(events) + SetupEvents(es, |es|, client.KafkaClient?, ids)
    {
      var i := 0;
      while i < |es|
        invariant 0 <= i <= |es|
        invariant Valid() && SetUpTo(es, i, ids, old(events))
      {
        SetupEntry(es, i, ids, old(events));
        i := i + 1;
      }
    }

    /** One iteration of the loop of `setupKafkaAdapter`: entry `i` set up with the id `ids[i]`, or logged. */
    method SetupEntry(es: seq<ConsumerEntry>, i: nat, ids: seq<string>, ghost before: seq<Event>)
      requires Valid() && started && !client.Neither? && i < |es| <= |ids|
      requires SetUpTo(es, i, ids, before)
      modifies this`allConsumers, this`subscriptions, this`events
      ensures Valid() && SetUpTo(es, i + 1, ids, before)
    {
      var e := es[i];
      if EntryComplete(e) {
        SetupConsumer(e.topic.value, e.target.value, e.group.value, e.tracing == Some("true"), ids[i]);
      } else {
        events := events + [SkippedEntry(i)];
      }
    }

    /** The producer step of `setupKafkaAdapter`, with `id` as the producer's id. */
    method SetupProducer(s: Settings, id: string)
      requires Valid() && started && producer.None?
      modifies this`events, this`producer
      ensures Valid()
      ensures events == old(events) + ProducerEvents(s, client, id)
      ensures ProducerId() == (if s.adapter.producerEnabled == Some("true") && client.KafkaClient? then Some(id) else None)
    {
      if s.adapter.producerEnabled == Some("true") {
        var made := SimpleKafkaProducer.New(client, id);
        if made.Success? {
          var p := made.value;
          var calls := p.Connect();
          producer := Some(p);
          events := events + AsEvents(calls);
        } else {
          events := events + [Thrown(made.error)];
        }
      }
    }

    /**
     * What `stopWorker(evt)` leaves: the stop envelope echoed first, then a
     * disconnect per registered Kafka consumer in registration order, the
     * producer's disconnect, and the closed port; nothing else changes.
     */
    twostate predicate StopOutcome(evt: Envelope)
      reads this
    {
      && RegistryKept() && config == old(config) && !portOpen
      && events == old(events) + [ToParent(evt)] + CloseEvents(allConsumers.keys, client.KafkaClient?)
                   + (if producer.Some? then [Foreign(ProducerDisconnect(producer.value.id))] else []) + [PortClosed]
    }

    /** The loop of `stopWorker` over `allConsumers`: what closing each consumer records. */
    method CloseConsumers() returns (closed: seq<Event>)
      requires Valid()
      ensures closed == CloseEvents(allConsumers.keys, client.KafkaClient?)
    {
      var keys := allConsumers.keys;
      closed := [];
      var i := 0;
      while i < |keys|
        invariant 0 <= i <= |keys|
        invariant closed == CloseEvents(keys[..i], client.KafkaClient?)
      {
        Dict.KeysHaveValues(allConsumers, i);
        var c := allConsumers.vals[keys[i]];
        var calls := c.Close();
        closed := closed + AsEvents(calls);
        assert keys[..i + 1][..i] == keys[..i];
        i := i + 1;
      }
      assert keys[..|keys|] == keys;
    }

    /** `stopWorker(evt)`. */
    method StopWorker(evt: Envelope)
      requires Valid() && portOpen
      modifies this`events, this`portOpen
      ensures Valid()
      ensures StopOutcome(evt)
    {
      var closed := CloseConsumers();
      var disconnect: seq<Event> := [];
      if producer.Some? {
        var calls := producer.value.Close();
        disconnect := AsEvents(calls);
      }
      events, portOpen := events + [ToParent(evt)] + closed + disconnect + [PortClosed], false;
    }

    /** `handleOutgoingKafkaMessage(evt)`, with `key` as the record key and `now` as the time. */
    method HandleOutgoing(evt: Envelope, key: string, now: string, codec: Codec)
      requires Valid() && Truthy(Header(evt, "topic"))
      modifies this`events
      ensures events == old(events) + Outgoing(evt, ProducerId(), key, now, codec)
    {
      var e := evt;
      var topic := evt.headers["topic"];
      if HasKey(evt.body, "content") && producer.Some? {
        if Truthy(evt.traceId) {
          e := SetHeader(e, TraceHeader, evt.traceId.value);
        }
        var sent := producer.value.Send(topic, evt.body.fields["content"], Some(e.headers), key, codec);
        assert sent.Success?;
        events := events + [Foreign(sent.value)];
      }
      SendEventToParent(e.(body := Confirmation(topic, now)));
    }

    /** The consumer handler of subscription `i` for one record, with `uuid` as a generated trace id. */
    method OnKafkaMessage(i: nat, p: Payload, uuid: string, codec: Codec)
      requires Valid() && portOpen && i < |subscriptions|
      modifies this`events
      ensures events == old(events) + [ToParent(InboundEnvelope(subscriptions[i], p, uuid, codec))]
    {
      var sub := subscriptions[i];
      var evt := Blank().(body := DecodeValue(p.message.value, codec));
      if p.message.headers.Some? {
        evt := CopyKafkaHeaders(p.message.headers.value, evt, sub.tracing, uuid);
      }
      evt := SetHeader(evt, "_client", sub.consumer);
      evt := SetHeader(evt, "_target", sub.target);
      evt := SetHeader(evt, "_topic", p.topic);
      evt := SetHeader(evt, "_partition", IntToString(p.partition));
      evt := SetHeader(evt, "_offset", p.message.offset);
      SendEventToParent(evt);
    }

    /**
     * The worker's `parentPort.on('message')`, with the start-up settings,
     * the ids start-up hands out, and the key and time of an outgoing record
     * as parameters.
     */
    method OnParentMessage(evt: Envelope, s: Settings, ids: seq<string>, key: string, now: string, codec: Codec)
      requires Valid() && portOpen && |Entries(s)| < |ids|
      modifies this
      ensures Valid()
      ensures Dispatch(evt, old(started), old(allConsumers.vals.Keys)) == Acknowledge ==>
        && events == old(events) + [Acknowledged(AckRecord(evt.correlationId.value, evt))]
        && RegistryKept() && config == old(config) && portOpen
      ensures Dispatch(evt, old(started), old(allConsumers.vals.Keys)) == Initialise ==>
        && config == Some(InitConfig(evt)) && events == old(events) && RegistryKept() && portOpen
      ensures Dispatch(evt, old(started), old(allConsumers.vals.Keys)) == StartUp ==> StartOutcome(s, ids)
      ensures Dispatch(evt, old(started), old(allConsumers.vals.Keys)) == ShutDown ==> StopOutcome(evt)
      ensures Dispatch(evt, old(started), old(allConsumers.vals.Keys)) == SendOutgoing ==>
        && events == old(events) + Outgoing(evt, old(ProducerId()), key, now, codec)
        && RegistryKept() && config == old(config) && portOpen
      ensures Dispatch(evt, old(started), old(allConsumers.vals.Keys)) == EchoBack ==>
        && events == old(events) + [ToParent(evt)] && RegistryKept() && config == old(config) && portOpen
    {
      var cid := evt.correlationId;
      if Truthy(cid) && cid.value in allConsumers.vals {
        var consumer := allConsumers.vals[cid.value];
        var log := consumer.Ack(evt);
        events := events + [Acknowledged(log)];
      } else {
        OnRequest(evt, s, ids, key, now, codec);
      }
    }

    /** The branches of `parentPort.on('message')` after the acknowledgement. */
    method OnRequest(evt: Envelope, s: Settings, ids: seq<string>, key: string, now: string, codec: Codec)
      requires Valid() && portOpen && |Entries(s)| < |ids|
      requires !(Truthy(evt.correlationId) && evt.correlationId.value in allConsumers.vals)
      modifies this
      ensures Valid()
      ensures Dispatch(evt, old(started), old(allConsumers.vals.Keys)) == Initialise ==>
        && config == Some(InitConfig(evt)) && events == old(events) && RegistryKept() && portOpen
      ensures Dispatch(evt, old(started), old(allConsumers.vals.Keys)) == StartUp ==> StartOutcome(s, ids)
      ensures Dispatch(evt, old(started), old(allConsumers.vals.Keys)) == ShutDown ==> StopOutcome(evt)
      ensures Dispatch(evt, old(started), old(allConsumers.vals.Keys)) == SendOutgoing ==>
        && events == old(events) + Outgoing(evt, old(ProducerId()), key, now, codec)
        && RegistryKept() && config == old(config) && portOpen
      ensures Dispatch(evt, old(started), old(allConsumers.vals.Keys)) == EchoBack ==>
        && events == old(events) + [ToParent(evt)] && RegistryKept() && config == old(config) && portOpen
    {
      if HeaderIs(evt, "type", "init") && Truthy(Header(evt, "resource.path")) {
        config := Some(InitConfig(evt));
      } else if HeaderIs(evt, "type", "start") && !started {
        StartWorker(s, ids);
      } else {
        OnCommand(evt, key, now, codec);
      }
    }

    /** The stop, outgoing-record and echo branches of `parentPort.on('message')`. */
    method OnCommand(evt: Envelope, key: string, now: string, codec: Codec)
      requires Valid() && portOpen
      requires !(Truthy(evt.correlationId) && evt.correlationId.value in allConsumers.vals)
      requires !(HeaderIs(evt, "type", "init") && Truthy(Header(evt, "resource.path")))
      requires !(HeaderIs(evt, "type", "start") && !started)
      modifies this
      ensures Valid()
      ensures Dispatch(evt, old(started), old(allConsumers.vals.Keys)) == ShutDown ==> StopOutcome(evt)
      ensures Dispatch(evt, old(started), old(allConsumers.vals.Keys)) == SendOutgoing ==>
        && events == old(events) + Outgoing(evt, old(ProducerId()), key, now, codec)
        && RegistryKept() && config == old(config) && portOpen
      ensures Dispatch(evt, old(started), old(allConsumers.vals.Keys)) == EchoBack ==>
        && events == old(events) + [ToParent(evt)] && RegistryKept() && config == old(config) && portOpen
    {
      if HeaderIs(evt, "type", "stop") {
        StopWorker(evt);
      } else if Truthy(Header(evt, "topic")) && IsObject(evt.body) {
        HandleOutgoing(evt, key, now, codec);
      } else {
        SendEventToParent(evt);
      }
    }
  }
}
