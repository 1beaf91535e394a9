# Kafka flow adapter and worker-thread bridges, modelled in Dafny

This project models the core of two small Node.js applications built on the
Mercury composable framework:

- the **minimalist Kafka flow adapter**, which runs kafkajs inside a worker
  thread. The host side creates the worker once, turns worker traffic into
  responses or relays inbound Kafka events to a flow (`flow://X`), to a live
  route, or back to the worker as "route not found". The worker side dispatches
  host envelopes (ack, init, start-once, stop, outgoing, echo), sets up consumers
  and the producer from configuration, and forwards consumed records to the host
  with decoded bodies, normalised `x-trace-id` and metadata headers;
- the consumer and producer wrappers (`SimpleKafkaConsumer`, both
  `SimpleKafkaProducer`s) as connected-flag state machines;
- the composable functions `kafka.adapter`, `kafka.notification`,
  `composable.worker.demo` (both the composable worker and the adapter over the
  demo worker) and `v1.hello.exception`;
- the worker-thread demo of the composable example, whose worker echoes
  what it receives;
- the code generators `preloader.js` and the two `placeholder.js` files: a
  line-by-line template expander with import, service and remaining sections,
  registration statements, import merging and output formatting.

Worker threads, kafkajs, the routing runtime (PostOffice, FlowExecutor) and
the file system are replaced by recorded outputs. Every message posted,
every client call and every route or flow launch is appended to a sequence
that the contracts describe. Generated ids, the time and the configuration
are parameters. `JSON.parse`/`JSON.stringify` is a pair of functions
(`Json.Codec`), and the round trip is assumed only where a lemma says so
(`Json.Lawful`): a value with no Buffer in it (`Json.Plain`) comes back
unchanged, and a Buffer comes back as its `{"type":"Buffer",...}` object. `Utility.split` is modelled concretely: it cuts at every
separator character and drops empty pieces.

Modules, in dependency order:

- `Wrappers`, `JsString`, `Dict` — options and results, the JavaScript
  string operations, and an insertion-ordered dictionary (the key order of a
  JavaScript object whose keys are not integer-like);
- `Json`, `Envelopes` — the body and the event envelope;
- `Bridges` — the create-once host bridge shared by all three workers, and
  the `init` envelope;
- `Paths` — `getJsPath` and `getCurrentFolder`;
- `Broker`, `Consumers`, `Producers`, `LegacyProducers`;
- `KafkaHost`, `KafkaInbound`, `KafkaRuntime`, `KafkaLinks` — kafka-worker.ts
  and how its two halves fit together;
- `EchoWorkers`, `Tasks`;
- `Templates`, `Placeholders`, `ImportMerge`, `Preloader` — the code
  generators: the shared template expander and formatter, the two
  placeholder generators, `mergeImportStatements` and the preloader.

`getJsPath` is the same code at
`node/composable-example/src/workers/composable-worker.ts:46-61` and
`node/composable-example/src/workers/demo-worker.ts:48-63` as in
kafka-worker.ts, so it is modelled once. The worker dispatcher of
composable-worker.ts (lines 119-143) is likewise the same as that of
demo-worker.ts (lines 87-110). The demo worker's `workerBridge`
(demo-worker.ts:13-38) is `Bridges.WorkerBridge.Create` with `mayCreate`
always true. Its `sendEventToWorker` (demo-worker.ts:40-45) is
`Bridges.WorkerBridge.SendEventToWorker`.

## Model

| member | source | states |
|---|---|---|
| `Bridges.WorkerBridge.Create` | node/minimalist-kafka-adapter/src/workers/kafka-worker.ts:21-32 | The bridge sets `loaded` first, so the worker is created at most once; the first envelope the worker gets is `init` with `resource.path` and the runtime parameters. |
| `Bridges.WorkerBridge.constructor` | node/minimalist-kafka-adapter/src/workers/kafka-worker.ts:16-17 | Before `workerBridge()` nothing is loaded, no worker exists and nothing was posted. |
| `Bridges.WorkerBridge.PostResponse` | node/minimalist-kafka-adapter/src/workers/kafka-worker.ts:38-44 | Exactly one message is handed to the post office: the response to the worker's envelope, sent on its behalf. |
| `Bridges.WorkerBridge.Route` | node/minimalist-kafka-adapter/src/workers/kafka-worker.ts:45-48 | Exactly one more item is handed to the routing runtime. |
| `Bridges.WorkerBridge.SendEventToWorker` | node/minimalist-kafka-adapter/src/workers/kafka-worker.ts:54-59 | Appends the envelope once a worker exists and does nothing before; `init` stays first. |
| `Bridges.Response` | node/minimalist-kafka-adapter/src/workers/kafka-worker.ts:38-44 | The response is a fresh envelope to `replyTo` with only the body and the correlation id of the worker's envelope. |
| `Bridges.InitConfig` | node/minimalist-kafka-adapter/src/workers/kafka-worker.ts:149-155 | The config loaded on `init` uses the `resource.path` header, and the body as arguments only when it is an array. |
| `Bridges.InitCarriesHostConfig` | node/composable-example/src/workers/composable-worker.ts:73-74 | The host's `init` envelope is recognised as `init` and loads exactly the host's resource path and parameters. |
| `Paths.GetJsPath` | node/minimalist-kafka-adapter/src/workers/kafka-worker.ts:110-125 | Backslashes become `/`; a `.ts` path whose last `/src/` is at an index above 0 becomes prefix + `/dist/` + rest with `.js`; anything else is the normalised path. |
| `Paths.DistPath` | node/minimalist-kafka-adapter/src/workers/kafka-worker.ts:117-122 | The rewrite keeps everything before `/src/` and between `/src/` and `.ts`. |
| `Paths.GetJsPathEndsInJs` | node/composable-example/src/workers/composable-worker.ts:53-58 | A rewritten path ends in `.js`. |
| `Paths.GetJsPathIdempotent` | node/composable-example/src/workers/composable-worker.ts:48-60 | Rewriting a rewritten path changes nothing. |
| `Paths.ForwardSlashes` | node/minimalist-kafka-adapter/preloader.js:238 | Every backslash becomes `/`, so none is left; a path without any is kept. |
| `Paths.NoBackslashLeft` | node/minimalist-kafka-adapter/preloader.js:238 | Replacing every backslash by `/` leaves no backslash. |
| `Paths.GetCurrentFolder` | node/minimalist-kafka-adapter/preloader.js:235-241 | The result has no backslash; with a `:` at index 1 it is the slash-normalised folder without its first two characters, otherwise the normalised folder itself. |
| `Paths.DriveLetterDropped` | node/minimalist-kafka-adapter/placeholder.js:79-81 | A Windows folder `d:\rest` becomes `rest` with forward slashes. |
| `Paths.PosixFolderKept` | node/composable-example/placeholder.js:77-83 | A folder with no backslash and no `:` at index 1 is returned unchanged. |
| `Paths.SrcBeforeExtension` | node/minimalist-kafka-adapter/src/workers/kafka-worker.ts:117-119 | In a `.ts` path, an occurrence of `/src/` ends before the extension, so the slice between them exists. |
| `Consumers.SimpleKafkaConsumer.New` | node/minimalist-kafka-adapter/src/workers/simple-consumer.ts:16-27 | Only a Kafka client or an emitter is accepted; anything else fails with `client must be an instance of Kafka or EventEmitter`. |
| `Consumers.SimpleKafkaConsumer.Connect` | node/minimalist-kafka-adapter/src/workers/simple-consumer.ts:33-41 | The Kafka connect call is made only while not connected, and only over Kafka; afterwards the consumer is connected. |
| `Consumers.SimpleKafkaConsumer.Subscribe` | node/minimalist-kafka-adapter/src/workers/simple-consumer.ts:43-77 | Not connected: fails with `Consumer <id> not ready` and registers nothing. Kafka: subscribe then run. Emulator: listens on the topic. |
| `Consumers.SimpleKafkaConsumer.OnEmulatedMessage` | node/minimalist-kafka-adapter/src/workers/simple-consumer.ts:52-71 | Each emulated delivery increments the counter and carries it as the offset, on partition 0 of the subscribed topic, with the envelope's body and headers. |
| `Consumers.EmulatedOffsetsDistinct` | node/minimalist-kafka-adapter/src/workers/simple-consumer.ts:53-61 | Different counter values give different offsets. |
| `Consumers.AckRecord` | node/minimalist-kafka-adapter/src/workers/simple-consumer.ts:87-92 | A status of 400 or more gives the exception record with status and body; anything else gives the acknowledgement record with headers and body. |
| `Consumers.SimpleKafkaConsumer.Ack` | node/minimalist-kafka-adapter/src/workers/simple-consumer.ts:87-91 | `ack` changes nothing and logs an exception record exactly when the status is 400 or more; that record carries the response's status and body, and the acknowledgement record its headers and body. |
| `Consumers.AckNamesItsConsumer` | node/minimalist-kafka-adapter/src/workers/simple-consumer.ts:88-90 | The logged message names its consumer: two consumers never log the same message for one response. |
| `Consumers.SimpleKafkaConsumer.Close` | node/minimalist-kafka-adapter/src/workers/simple-consumer.ts:94-101 | Disconnects exactly when connected over Kafka; `connected` is not reset. |
| `Consumers.HeadersInOrder` | node/minimalist-kafka-adapter/src/workers/simple-consumer.ts:63 | The emulated record's headers are the envelope's headers, all strings, in their key order. |
| `Producers.GetStringHeaders` | node/minimalist-kafka-adapter/src/workers/simple-producer.ts:53-61 | The result has the same keys and values as the headers, and is empty when there are none. |
| `Producers.SimpleKafkaProducer.New` | node/minimalist-kafka-adapter/src/workers/simple-producer.ts:12-17 | Only a Kafka client has `producer()`; the emulator fails with `client.producer is not a function`. |
| `Producers.SimpleKafkaProducer.Connect` | node/minimalist-kafka-adapter/src/workers/simple-producer.ts:23-27 | Connects on every call and is connected afterwards. |
| `Producers.SimpleKafkaProducer.Send` | node/minimalist-kafka-adapter/src/workers/simple-producer.ts:29-43 | Fails with `Producer <id> not ready` exactly when not connected; otherwise sends one record with the key, the JSON text of the message and the string headers. |
| `Producers.SimpleKafkaProducer.Close` | node/minimalist-kafka-adapter/src/workers/simple-producer.ts:45-50 | Disconnects exactly when connected. |
| `LegacyProducers.SimpleKafkaProducer.New` | node/minimalist-kafka-adapter/src/kafka/simple-producer.ts:12-17 | As for the worker's producer. |
| `LegacyProducers.SimpleKafkaProducer.Connect` | node/minimalist-kafka-adapter/src/kafka/simple-producer.ts:23-27 | Connects on every call and is connected afterwards. |
| `LegacyProducers.SimpleKafkaProducer.Send` | node/minimalist-kafka-adapter/src/kafka/simple-producer.ts:29-42 | Fails exactly when not connected; otherwise sends the JSON text of the message under the key, with no headers. |
| `LegacyProducers.SimpleKafkaProducer.Close` | node/minimalist-kafka-adapter/src/kafka/simple-producer.ts:44-49 | Disconnects exactly when connected. |
| `KafkaHost.KafkaHeaders` | node/minimalist-kafka-adapter/src/workers/kafka-worker.ts:100-108 | A key is kept exactly when it is not one of the five reserved metadata headers, with its value. |
| `KafkaHost.GetKafkaHeaders` | node/minimalist-kafka-adapter/src/workers/kafka-worker.ts:102-106 | The key-by-key loop computes exactly that filter. |
| `KafkaHost.KafkaSender` | node/minimalist-kafka-adapter/src/workers/kafka-worker.ts:75-77 | Relays go out as `kafka.adapter` with the `x-trace-id` header as trace id, and a `TOPIC <topic>` trace path exactly when that trace id is set. |
| `KafkaHost.Resolve` | node/minimalist-kafka-adapter/src/workers/kafka-worker.ts:67-98 | Ignored exactly without `_client` and `_target`; a flow launch exactly for `flow://` targets; a route send exactly for other targets that exist; otherwise "not found". |
| `KafkaHost.FlowLaunch` | node/minimalist-kafka-adapter/src/workers/kafka-worker.ts:78-85 | A `flow://X` target launches flow `X` with the body, the non-reserved headers and the metadata, correlated by the client id, replying to `kafka.adapter`. |
| `KafkaHost.FlowIgnoresRoutes` | node/minimalist-kafka-adapter/src/workers/kafka-worker.ts:78-86 | A flow target never depends on which routes exist. |
| `KafkaHost.RouteRelay` | node/minimalist-kafka-adapter/src/workers/kafka-worker.ts:86-90 | A live route gets a new request with the target, the client id as correlation id, `kafka.adapter` as reply address, and the headers and body. |
| `KafkaHost.RouteMissing` | node/minimalist-kafka-adapter/src/workers/kafka-worker.ts:91-96 | A missing route yields exactly `{client, type: exception}` with body `route <target> not found`. |
| `KafkaHost.HandleIncomingKafkaMessage` | node/minimalist-kafka-adapter/src/workers/kafka-worker.ts:67-97 | The relay is handed to the runtime, the exception is sent to the worker, or nothing happens, as the resolver decides. |
| `KafkaHost.OnWorkerMessage` | node/minimalist-kafka-adapter/src/workers/kafka-worker.ts:35-48 | With `to` and `replyTo`, a response is sent and nothing is resolved; anything else goes to the resolver. |
| `KafkaHost.WorkerBridgeStart` | node/minimalist-kafka-adapter/src/workers/kafka-worker.ts:22-25 | The Kafka bridge creates its worker only on the main thread. |
| `KafkaInbound.DecodeValue` | node/minimalist-kafka-adapter/src/workers/kafka-worker.ts:261-274 | A Buffer becomes its parsed JSON or, when that fails, its text; a string is kept; anything else is `null`. |
| `KafkaInbound.DecodeSentValue` | node/minimalist-kafka-adapter/src/workers/simple-producer.ts:31-37 | Decoding what the producer sends gives back the message when no Buffer is in it, given the JSON round trip. |
| `KafkaInbound.DecodeSentBuffer` | node/minimalist-kafka-adapter/src/workers/kafka-worker.ts:262-265 | A Buffer the producer sends decodes to its `{"type":"Buffer",...}` object, never to the Buffer itself. |
| `KafkaInbound.CopyKafkaHeaders` | node/minimalist-kafka-adapter/src/workers/kafka-worker.ts:289-307 | The loop computes the header fold, then adds a generated trace id when tracing is on and none was found. |
| `KafkaInbound.FoldCopies` | node/minimalist-kafka-adapter/src/workers/kafka-worker.ts:291-302 | Only string headers are copied, with their values; any spelling of `x-trace-id` is stored only under the lower-case name, holding the trace id seen. |
| `KafkaInbound.FoldKeepsLastTrace` | node/minimalist-kafka-adapter/src/workers/kafka-worker.ts:294-297 | The trace id kept is the one of the last string header spelled `x-trace-id` in any case. |
| `KafkaInbound.InboundEnvelope` | node/minimalist-kafka-adapter/src/workers/kafka-worker.ts:275-284 | The host's event has the decoded body and the five metadata headers, set last, with the partition as text. |
| `KafkaInbound.FoldSkipsNonText` | node/minimalist-kafka-adapter/src/workers/kafka-worker.ts:291-293 | The copy loop copies nothing and finds no trace id when no header value is a string. |
| `KafkaInbound.NonTextHeadersLoseTrace` | node/minimalist-kafka-adapter/src/workers/kafka-worker.ts:289-307 | A record with no string header reaches the host with only the metadata headers, plus `x-trace-id` set to the generated id exactly when tracing is on. |
| `KafkaInbound.TracingGivesTraceId` | node/minimalist-kafka-adapter/src/workers/kafka-worker.ts:304-306 | With tracing on, every record with headers reaches the host with a non-empty `x-trace-id`. |
| `KafkaRuntime.StartOnlyOnce` | node/minimalist-kafka-adapter/src/workers/kafka-worker.ts:157-158 | Once started, no envelope starts the worker again. |
| `KafkaRuntime.RepeatedStartEchoes` | node/minimalist-kafka-adapter/src/workers/kafka-worker.ts:157-166 | A second `start` is echoed to the host. |
| `KafkaRuntime.StartedOnlyMattersForStart` | node/minimalist-kafka-adapter/src/workers/kafka-worker.ts:143-167 | `started` changes the decision only for `start` envelopes. |
| `KafkaRuntime.AckComesFirst` | node/minimalist-kafka-adapter/src/workers/kafka-worker.ts:145-148 | A reply correlated by a registered consumer is an ack whatever its headers. |
| `KafkaRuntime.ClientFor` | node/minimalist-kafka-adapter/src/workers/kafka-worker.ts:219-230 | The emulator exactly when `emulate.kafka` is `true`; otherwise a Kafka client over the brokers, or `Missing brokers in kafka-client.yaml` unless they are a non-empty array. |
| `KafkaRuntime.SkippedIffIncomplete` | node/minimalist-kafka-adapter/src/workers/kafka-worker.ts:241-246 | An entry is skipped and logged exactly when it lacks a topic, a target or a group. |
| `KafkaRuntime.SubscriptionsFromCompleteEntries` | node/minimalist-kafka-adapter/src/workers/kafka-worker.ts:236-242 | Every subscription comes from a complete entry, with its topic, target and tracing flag. |
| `KafkaRuntime.SubscriptionsRegistered` | node/minimalist-kafka-adapter/src/workers/kafka-worker.ts:256-258 | Every subscription's consumer is registered. |
| `KafkaRuntime.AsEvents` | node/minimalist-kafka-adapter/src/workers/kafka-worker.ts:259-260 | The wrapper calls are recorded in order. |
| `KafkaRuntime.OutgoingFacts` | node/minimalist-kafka-adapter/src/workers/kafka-worker.ts:174-185 | The producer is called only with `content` and a producer, after the trace id is copied to `x-trace-id`; the host always gets `Event sent`. |
| `KafkaRuntime.KafkaRoundTrip` | node/minimalist-kafka-adapter/src/workers/kafka-worker.ts:177-182 | When the content holds no Buffer and the consumed record gives back every header the worker produced as a string, the message arrives with its content as body and the same `x-trace-id`. |
| `KafkaRuntime.KafkaRoundTripNonTextHeaders` | node/minimalist-kafka-adapter/src/workers/kafka-worker.ts:177-182 | When the content holds no Buffer and the consumed record's header values are not strings, the content still arrives as body but the producer's `x-trace-id` does not: with tracing the host sees the generated id, without it no trace header. |
| `KafkaRuntime.KafkaRoundTripBufferContent` | node/minimalist-kafka-adapter/src/workers/kafka-worker.ts:177-182 | Buffer content does not survive the round trip: the host receives its `{"type":"Buffer",...}` object as body. |
| `KafkaRuntime.KafkaWorkerRuntime.ConnectedConsumer` | node/minimalist-kafka-adapter/src/workers/kafka-worker.ts:257-259 | The consumer built over a Kafka client or the emulator is fresh, has the given id, is connected, and its recorded calls are the connect and subscribe calls for the topic. |
| `KafkaRuntime.KafkaWorkerRuntime.SetupConsumer` | node/minimalist-kafka-adapter/src/workers/kafka-worker.ts:256-260 | A new consumer is registered under its id, connected and subscribed, with its calls recorded. |
| `KafkaRuntime.KafkaWorkerRuntime.SetupConsumers` | node/minimalist-kafka-adapter/src/workers/kafka-worker.ts:235-248 | One consumer per complete entry, in order; incomplete entries logged. |
| `KafkaRuntime.KafkaWorkerRuntime.SetupProducer` | node/minimalist-kafka-adapter/src/workers/kafka-worker.ts:249-253 | A producer only when `producer.enabled` is `true`; on the emulator its constructor throws. |
| `KafkaRuntime.KafkaWorkerRuntime.StartWorker` | node/minimalist-kafka-adapter/src/workers/kafka-worker.ts:187-197 | `started` is set first; a missing config or missing brokers stops start-up with the error; otherwise the client, consumers and producer are set up. |
| `KafkaRuntime.KafkaWorkerRuntime.StopWorker` | node/minimalist-kafka-adapter/src/workers/kafka-worker.ts:199-211 | The stop envelope goes to the host first, then each consumer closes in registration order, then the producer, then the port. |
| `KafkaRuntime.KafkaWorkerRuntime.HandleOutgoing` | node/minimalist-kafka-adapter/src/workers/kafka-worker.ts:174-185 | Records exactly the outgoing events the specification function gives. |
| `KafkaRuntime.KafkaWorkerRuntime.OnKafkaMessage` | node/minimalist-kafka-adapter/src/workers/kafka-worker.ts:260-286 | Each consumed record is sent to the host as the inbound envelope of its subscription. |
| `KafkaRuntime.KafkaWorkerRuntime.OnParentMessage` | node/minimalist-kafka-adapter/src/workers/kafka-worker.ts:143-167 | The branches in order: ack, init, start while not started, stop, outgoing with a topic and an object body, echo. |
| `KafkaRuntime.TraceCarried` | node/minimalist-kafka-adapter/src/workers/kafka-worker.ts:289-307 | Record headers that hold a non-empty trace id under `x-trace-id`, and under no other spelling, are copied with that same trace id. |
| `KafkaRuntime.KafkaWorkerRuntime.constructor` | node/minimalist-kafka-adapter/src/workers/kafka-worker.ts:136-141 | A fresh worker has no config, is not started, has no client, producer, consumer or subscription, and its port is open. |
| `KafkaRuntime.KafkaWorkerRuntime.SendEventToParent` | node/minimalist-kafka-adapter/src/workers/kafka-worker.ts:213-217 | Exactly one message, the envelope, is posted to the host. |
| `KafkaRuntime.KafkaWorkerRuntime.SetupKafkaAdapter` | node/minimalist-kafka-adapter/src/workers/kafka-worker.ts:232-254 | The subscriptions, the registered ids and the log are those of the consumer entries in order, followed by the producer step; a producer exists exactly when `producer.enabled` is `true` over Kafka. |
| `KafkaRuntime.KafkaWorkerRuntime.SetupEntry` | node/minimalist-kafka-adapter/src/workers/kafka-worker.ts:237-246 | One more consumer entry extends the subscriptions, the ids and the log by exactly what that entry gives. |
| `KafkaRuntime.KafkaWorkerRuntime.CloseConsumers` | node/minimalist-kafka-adapter/src/workers/kafka-worker.ts:202-205 | Closing the consumers in key order records one disconnect per consumer over Kafka and nothing on the emulator. |
| `KafkaRuntime.KafkaWorkerRuntime.OnRequest` | node/minimalist-kafka-adapter/src/workers/kafka-worker.ts:149-166 | An envelope that is not an ack takes the init, start, stop, outgoing or echo branch, in that order, with the outcome of each. |
| `KafkaRuntime.KafkaWorkerRuntime.OnCommand` | node/minimalist-kafka-adapter/src/workers/kafka-worker.ts:159-166 | An envelope past the init and start tests stops the worker, is sent to Kafka, or is echoed, in that order. |
| `KafkaLinks.InitIsInitialise` | node/minimalist-kafka-adapter/src/workers/kafka-worker.ts:149 | The host's `init` envelope takes the worker's init branch. |
| `KafkaLinks.InboundIsRelayed` | node/minimalist-kafka-adapter/src/workers/kafka-worker.ts:280-281 | A record of a subscription is never ignored by the host, and is addressed by that subscription. |
| `KafkaLinks.NotFoundIsEchoed` | node/minimalist-kafka-adapter/src/workers/kafka-worker.ts:93-95 | The "route not found" exception is echoed by the worker, not taken for a command. |
| `KafkaLinks.NotificationIsPublished` | node/minimalist-kafka-adapter/src/tasks/kafka-notification.ts:22 | A notification request is published with its content and trace header, and the caller gets the `Event sent` confirmation. |
| `EchoWorkers.EchoWorker.constructor` | node/composable-example/src/workers/composable-worker.ts:110-111 | A new worker thread has no config, has sent nothing and its port is open. |
| `EchoWorkers.EchoWorker.SendEventToParent` | node/composable-example/src/workers/composable-worker.ts:112-117 | Exactly one message, the envelope, is posted to the parent. |
| `EchoWorkers.EchoWorker.OnParentMessage` | node/composable-example/src/workers/composable-worker.ts:119-143 | The worker thread follows the transition function exactly. |
| `EchoWorkers.EchoesOnlyItsInput` | node/composable-example/src/workers/demo-worker.ts:100-109 | The worker sends only the envelope it received, unchanged, and answers everything except `init` and `start`. |
| `EchoWorkers.InitThenStartQuiet` | node/composable-example/src/workers/demo-worker.ts:89-99 | After `init`, `start` does not throw. |
| `EchoWorkers.StartWithoutInitThrows` | node/composable-example/src/workers/demo-worker.ts:96-98 | Without a config, `start` throws reading it. |
| `EchoWorkers.OnlyStopCloses` | node/composable-example/src/workers/composable-worker.ts:133-137 | Only `stop` closes the port, after echoing itself. |
| `EchoWorkers.ComposableHandleEvent` | node/composable-example/src/workers/composable-worker.ts:33-43 | The first `start` creates the worker on the main thread; every envelope is forwarded once a worker exists. |
| `EchoWorkers.OnWorkerReply` | node/composable-example/src/workers/composable-worker.ts:77-88 | Only envelopes with `replyTo` are answered; the rest are dropped. |
| `Tasks.KafkaAdapterHandleEvent` | node/minimalist-kafka-adapter/src/tasks/kafka-adapter.ts:17-25 | `start` runs the bridge; every envelope is then forwarded, so a new worker gets `init` before `start`; the result is `null`. |
| `Tasks.ComposableAdapterHandleEvent` | node/composable-example/src/tasks/composable-adapter.ts:26-34 | The same over the demo bridge, which always creates its worker. |
| `Tasks.NotificationRequest` | node/minimalist-kafka-adapter/src/tasks/kafka-notification.ts:13-26 | Accepted exactly with a `topic` header and a `content` key; the request goes to `kafka.adapter` with the trace id as `x-trace-id`; otherwise AppException 400. |
| `Tasks.NotificationIdempotent` | node/minimalist-kafka-adapter/src/tasks/kafka-notification.ts:19-22 | Validating an accepted request again changes nothing. |
| `Tasks.HelloException` | node/composable-example/src/tasks/hello-exception.ts:13-30 | A number or text status with a `message` key gives `{type: error, status, message}` copied unchanged; anything else `{}`; a `null` body throws. |
| `Tasks.HelloExceptionFixedPoint` | node/composable-example/src/tasks/hello-exception.ts:19-28 | The handler's result, fed back, gives the same result. |
| `Tasks.HelloExceptionIgnoresStack` | node/composable-example/src/tasks/hello-exception.ts:15-18 | A `stack` field never changes the result. |
| `KafkaInbound.FoldTraceIsLast` | node/minimalist-kafka-adapter/src/workers/kafka-worker.ts:294-297 | The loop's trace id equals an independent definition: the value of the last string header spelled `x-trace-id`, or none. |
| `KafkaInbound.LastTraceIsLast` | node/minimalist-kafka-adapter/src/workers/kafka-worker.ts:294-297 | That definition gives a trace id exactly when some string header is spelled `x-trace-id`, and then the last one's value. |
| `Templates.CheckTemplate` | node/minimalist-kafka-adapter/preloader.js:289-297 | A template is accepted exactly when it is present, not empty and holds both tags, and it is then returned unchanged; otherwise the error is `Invalid preload.template - missing ${import-statements} and ${service-list} tags`. |
| `Templates.Indent` | node/minimalist-kafka-adapter/preloader.js:77-78 | The indentation is the prefix of the line that ends where the service tag starts. |
| `Templates.FirstWith` | node/minimalist-kafka-adapter/preloader.js:115-121 | The first line at or after `from` that holds the tag, or the end when there is none. |
| `Templates.LineMetadata.constructor` | node/minimalist-kafka-adapter/preloader.js:13-16 | A new `LineMetadata` has an empty text and is in the import section. |
| `Templates.LineMetadata.HandleImportEntry` | node/minimalist-kafka-adapter/preloader.js:95-109 | Handled exactly when the line holds the import tag: then the import lines are appended, each with a newline, and the service section opens; otherwise the line and a newline are appended and the section is kept. |
| `Templates.LineMetadata.HandleServiceEntry` | node/minimalist-kafka-adapter/preloader.js:75-93 | Handled exactly when the line holds the service tag: then every statement is appended behind the tag's indentation and the remaining section opens; otherwise the line is copied and the section is kept. |
| `Templates.ExpandTemplate` | node/minimalist-kafka-adapter/preloader.js:114-125 | The loop over the template lines, with its `continue`s, computes the line-by-line fold `Expand`. |
| `Templates.CopyRun` | node/minimalist-kafka-adapter/placeholder.js:55-65 | Lines that do not end the current section are copied one by one after what the text holds. |
| `Templates.ExpandWithoutImportTag` | node/composable-example/placeholder.js:56-66 | A template with no import tag is copied line by line and never leaves the import section. |
| `Templates.ExpandToImportTag` | node/composable-example/placeholder.js:57-59 | The lines before the first import tag are copied; the tag line becomes the imports and opens the service section. |
| `Templates.ExpandToServiceTag` | node/composable-example/placeholder.js:60-62 | The lines after the import tag up to the next service tag are copied after the imports. |
| `Templates.ExpandWithoutServiceTag` | node/composable-example/placeholder.js:56-66 | With no service tag after the import tag, the rest of the template is copied and the service list is never written. |
| `Templates.ExpandServiceTagLine` | node/composable-example/placeholder.js:16-22 | The service tag line, reached in the service section, becomes the indented statements and opens the remaining section. |
| `Templates.ExpandAfterServiceTag` | node/composable-example/placeholder.js:63-65 | After the service tag, every line, tags included, is copied as text. |
| `Templates.ExpandLayout` | node/minimalist-kafka-adapter/placeholder.js:53-65 | The expanded text is the lines before the first import tag, the imports, the lines up to the first service tag after it, the indented statements, and the lines after that tag. |
| `Templates.ExpandAsLines` | node/minimalist-kafka-adapter/preloader.js:114-125 | The same layout written as one list of lines, each closed by a newline. |
| `Templates.IndentedLines` | node/minimalist-kafka-adapter/preloader.js:78-84 | The indented statements are the lines `spaces + statement`, each closed by a newline. |
| `Templates.FormatLine` | node/minimalist-kafka-adapter/placeholder.js:44-48 | The result is one line closed by a newline, with no white space before the newline; a line whose trim is `//` becomes empty, and any other keeps its text, losing white space only at its end. |
| `Templates.FormattedStep` | node/minimalist-kafka-adapter/placeholder.js:43-49 | Formatting one more line appends that line's formatted text. |
| `Templates.Finish` | node/minimalist-kafka-adapter/placeholder.js:50 | The output ends in exactly one newline and, when longer, neither starts nor ends its text with white space. |
| `Templates.FormatOutput` | node/minimalist-kafka-adapter/placeholder.js:40-51 | The lines of `Utility.split(content, '\r\n')` are formatted one by one, and the whole is trimmed and closed by a newline. |
| `Templates.FormatLines` | node/composable-example/placeholder.js:44-50 | The loop computes the concatenation of the formatted lines. |
| `Templates.FormattedClean` | node/composable-example/placeholder.js:44-50 | Clean lines (no line break, no trailing white space, not `//`) are formatted as themselves. |
| `Templates.SplitLines` | node/composable-example/placeholder.js:42 | Splitting text written line by line at `\r\n` gives back its lines, when none holds a line break. |
| `Templates.FormatKeepsCleanLines` | node/composable-example/placeholder.js:41-52 | Formatting clean lines whose first character is not white space is the identity. |
| `Templates.SplitLinesPieces` | node/minimalist-kafka-adapter/placeholder.js:41 | Splitting text written line by line at `\r\n` gives the pieces of each line in turn: empty lines vanish, and a line holding a break is cut there. |
| `Templates.OutputPieces` | node/minimalist-kafka-adapter/placeholder.js:40-71 | For any template with both tags in order, the file written is the layout's lines cut into pieces, each piece formatted (`//` emptied, trailing white space dropped), trimmed and closed by a newline. |
| `Templates.CleanOutput` | node/minimalist-kafka-adapter/placeholder.js:53-71 | On a clean template, with clean imports and statements, the file written is exactly the layout's lines, each closed by a newline. |
| `Templates.LayoutClean` | node/minimalist-kafka-adapter/placeholder.js:55-65 | The layout of a clean template is clean. |
| `Placeholders.GenerateComposable` | node/composable-example/placeholder.js:54-75 | The composable example writes `src/preload/preload.ts` under the folder, holding the formatted expansion of its two handlers. |
| `Placeholders.GenerateMinimalist` | node/minimalist-kafka-adapter/placeholder.js:53-74 | The minimalist adapter writes `<root><src>/preload/preload.ts`, holding the formatted expansion of its two handlers. |
| `Placeholders.ComposableMain` | node/composable-example/placeholder.js:85-96 | It fails exactly when the template check fails, with the template error; otherwise it writes one file under `<folder>src`, from the template cut at `\n`. |
| `Placeholders.MinimalistMain` | node/minimalist-kafka-adapter/placeholder.js:84-95 | It fails exactly when the template check fails, with the template error; otherwise it writes the file under `src` and then under `test`. |
| `Placeholders.ValidTemplateHasImportLine` | node/minimalist-kafka-adapter/placeholder.js:87-88 | A template `main` accepts has a line holding the import tag. |
| `Placeholders.PlaceholderStatements` | node/composable-example/placeholder.js:20-21 | The build comment and the log statement stay clean behind any indentation. |
| `Placeholders.ComposableImportClean` | node/composable-example/placeholder.js:32 | The composable example's import comment is a clean line. |
| `Placeholders.MinimalistImportClean` | node/minimalist-kafka-adapter/placeholder.js:31 | The minimalist adapter's import comment is a clean line. |
| `Placeholders.ComposableLayout` | node/composable-example/placeholder.js:16-39 | On a clean template, the composable placeholder is the lines before the import tag, the "nothing to import" comment, the lines up to the service tag, the build comment and the log statement behind the tag's indentation, then the remaining lines. |
| `Placeholders.MinimalistLayout` | node/minimalist-kafka-adapter/placeholder.js:16-38 | On a clean template, the minimalist placeholder has the same layout, with its own comment and only the log statement. |
| `Placeholders.PlaceholderLayout` | node/minimalist-kafka-adapter/placeholder.js:53-71 | With one import line and the given indented statements, the file written is those lines in layout order. |
| `ImportMerge.FindMultipleImport` | node/minimalist-kafka-adapter/preloader.js:137-148 | The loop computes the indices of the import lines of the package. |
| `ImportMerge.ImportIndicesSound` | node/minimalist-kafka-adapter/preloader.js:141-144 | Every listed index is a line whose trim starts with `import {` and ends with `'<package>';`. |
| `ImportMerge.ImportIndicesComplete` | node/minimalist-kafka-adapter/preloader.js:140-146 | Every such line is listed. |
| `ImportMerge.ImportIndicesAscending` | node/minimalist-kafka-adapter/preloader.js:139-146 | The indices are strictly ascending and within the text. |
| `ImportMerge.ImportIndicesMember` | node/minimalist-kafka-adapter/preloader.js:142 | A line is listed exactly when it imports from the package. |
| `ImportMerge.CharIndex` | node/minimalist-kafka-adapter/preloader.js:185-186 | The first index of the character, or -1 when it does not occur. |
| `ImportMerge.IndexOfChar` | node/minimalist-kafka-adapter/preloader.js:185-186 | `indexOf` with a one-character string is that first index. |
| `ImportMerge.ImportedNames` | node/minimalist-kafka-adapter/preloader.js:183-191 | The loop reports a deleted line exactly when one of the indexed lines is gone; otherwise it gathers the names between the braces of every indexed line, in order. |
| `ImportMerge.AddNames` | node/minimalist-kafka-adapter/preloader.js:184-190 | One indexed line adds exactly its names. |
| `ImportMerge.Appended` | node/minimalist-kafka-adapter/preloader.js:188-190 | Pushing the items one by one appends them in order. |
| `ImportMerge.ListNames` | node/minimalist-kafka-adapter/preloader.js:192-195 | The text is `import { ` followed by each name and `, `. |
| `ImportMerge.ConsolidatedLineLists` | node/minimalist-kafka-adapter/preloader.js:192-196 | The merged line is `import { ` + the names joined by `, ` + ` } from '<package>';`. |
| `ImportMerge.DeleteLines` | node/minimalist-kafka-adapter/preloader.js:200-202 | Exactly the indexed entries of the array are deleted. |
| `ImportMerge.DeletedShape` | node/minimalist-kafka-adapter/preloader.js:200-202 | An indexed entry is deleted and every other entry is unchanged. |
| `ImportMerge.ConsolidateImportStatements` | node/minimalist-kafka-adapter/preloader.js:181-204 | Succeeds exactly when every indexed line is still there, and then the array holds the merge; otherwise the array is unchanged. |
| `ImportMerge.ConsolidateShape` | node/minimalist-kafka-adapter/preloader.js:196-202 | After a merge, the first import line holds the merged line, the later ones are deleted, and every other line is unchanged. |
| `ImportMerge.PackageMap` | node/minimalist-kafka-adapter/preloader.js:154-163 | Every package in the map has more than one import line, all within the text. |
| `ImportMerge.PackageMapKeys` | node/minimalist-kafka-adapter/preloader.js:155-162 | A package is in the map exactly when it is listed and imported more than once. |
| `ImportMerge.PackageMapRecords` | node/minimalist-kafka-adapter/preloader.js:158-160 | The map holds, for each of its packages, the indices of that package's import lines. |
| `ImportMerge.CollectPackages` | node/minimalist-kafka-adapter/preloader.js:155-163 | The loop over the packages computes that map. |
| `ImportMerge.ConsolidateAllStep` | node/minimalist-kafka-adapter/preloader.js:164-167 | When the next package's import lines are all there, one more round merges that package. |
| `ImportMerge.ConsolidateAllFails` | node/minimalist-kafka-adapter/preloader.js:164-167 | Once a merge has read a deleted line and thrown, the later packages are not merged. |
| `ImportMerge.MergeNext` | node/minimalist-kafka-adapter/preloader.js:165-166 | One round of the loop merges the next package in place, or reports the throw. |
| `ImportMerge.ConsolidatePackages` | node/minimalist-kafka-adapter/preloader.js:164-167 | The loop merges every package of the map in turn, in place, and succeeds exactly when the reference fold does. |
| `ImportMerge.FormatStep` | node/minimalist-kafka-adapter/preloader.js:169-176 | One more array entry adds its formatted line when it is still there and nothing when it was deleted. |
| `ImportMerge.FormatPresent` | node/minimalist-kafka-adapter/preloader.js:168-177 | The loop formats the lines still there and skips the deleted ones. |
| `ImportMerge.LineArray` | node/minimalist-kafka-adapter/preloader.js:151 | A fresh array holds every line of the text, none deleted. |
| `ImportMerge.Merge` | node/minimalist-kafka-adapter/preloader.js:150-179 | A merge can fail only by reading a deleted line, with Node's error for `undefined.indexOf`. |
| `ImportMerge.MergeImportStatements` | node/minimalist-kafka-adapter/preloader.js:150-179 | The method computes `Merge`: split, collect the packages, merge each, then format the remaining lines. |
| `ImportMerge.PresentLinesAllPresent` | node/minimalist-kafka-adapter/preloader.js:151 | Before any merge, the remaining lines are the text's lines. |
| `ImportMerge.NothingToMerge` | node/minimalist-kafka-adapter/preloader.js:155-178 | Without `web.component.scan`, or with no package imported more than once, the merge is the same formatting as the placeholders' `formatOutput`. |
| `ImportMerge.QuotedSuffix` | node/minimalist-kafka-adapter/preloader.js:142 | One import line can end in the quoted names of two packages only if the longer name holds a quote. |
| `ImportMerge.SameImportSamePackage` | node/minimalist-kafka-adapter/preloader.js:142 | A line imports from at most one package whose name has no quote. |
| `ImportMerge.NextPresent` | node/minimalist-kafka-adapter/preloader.js:164-167 | The earlier merges leave the next package's import lines in place. |
| `ImportMerge.NextKeepsUntouched` | node/minimalist-kafka-adapter/preloader.js:181-204 | Merging a package touches only that package's own import lines. |
| `ImportMerge.MergeUntouched` | node/minimalist-kafka-adapter/preloader.js:164-167 | With quote-free names, the first `n` merges all succeed and keep every other line. |
| `ImportMerge.MergeNeverFails` | node/minimalist-kafka-adapter/preloader.js:150-179 | With quote-free package names in `web.component.scan`, `mergeImportStatements` never throws. |
| `Preloader.Kept` | node/minimalist-kafka-adapter/preloader.js:21-25 | A class is kept exactly when it is listed and passes the signature check, plus, for a source folder, the `Composable` check. |
| `Preloader.Recorded` | node/minimalist-kafka-adapter/preloader.js:24-26 | `clsParameters` gains exactly the kept classes, each with its own parameters; every other entry stays. |
| `Preloader.KeptStep` | node/minimalist-kafka-adapter/preloader.js:21-30 | One more class is kept and recorded exactly when the scan accepts it. |
| `Preloader.NamedStep` | node/minimalist-kafka-adapter/preloader.js:27 | One more kept class is appended alone to an empty name, or behind `,`. |
| `Preloader.NamedIsJoin` | node/minimalist-kafka-adapter/preloader.js:27 | The class name built is the kept classes joined by `,`, and it is empty exactly when none is kept. |
| `Preloader.KeptRoundTrip` | node/minimalist-kafka-adapter/preloader.js:19-33 | Splitting the `clsMap` key at `, ` gives back exactly the kept classes. |
| `Preloader.ClassStepLists` | node/minimalist-kafka-adapter/preloader.js:18-35 | A key with kept classes puts them under one `clsMap` key mapped to the path; a key without leaves `clsMap` as it was; every class of every key keeps its parameters. |
| `Preloader.PackageClasses` | node/minimalist-kafka-adapter/preloader.js:46-50 | The keys of a package's `classes`, in order, keep every class of every `clsMap` key backed by its parameters. |
| `Preloader.PackageScan` | node/minimalist-kafka-adapter/preloader.js:37-60 | A scan that throws changes nothing; every scan keeps the tables valid. |
| `Preloader.PackagesScan` | node/minimalist-kafka-adapter/preloader.js:280-285 | Scanning the packages in order keeps the tables valid. |
| `Preloader.GetRelativePath` | node/minimalist-kafka-adapter/preloader.js:243-250 | A path inside the folder becomes the prefix followed by the rest, from which the path is recovered; any other path is kept. |
| `Preloader.SourceClasses` | node/minimalist-kafka-adapter/preloader.js:259-268 | The keys of a source folder's `classes`, in order, keep the tables valid. |
| `Preloader.SourceScan` | node/minimalist-kafka-adapter/preloader.js:252-270 | Scanning a source folder keeps the tables valid. |
| `Preloader.RegistrationArguments` | node/minimalist-kafka-adapter/preloader.js:62-73 | For a class with parameters, the arguments are the first parameter, `new Cls()` and the other parameters, joined by `, `. |
| `Preloader.BuildRegistration` | node/minimalist-kafka-adapter/preloader.js:62-73 | The loop over the parameters computes the `platform.register(...)` statement. |
| `Preloader.ClassRegistrations` | node/minimalist-kafka-adapter/preloader.js:81-84 | One statement per class of a key, with that class's parameters, constructing the whole key as written or the class itself. |
| `Preloader.BuildClassRegistrations` | node/minimalist-kafka-adapter/preloader.js:81-84 | The loop over the classes of a key gives its statements: constructing the whole key as the code does, or each class as intended. |
| `Preloader.RegistrationsConstructTheirClass` | node/minimalist-kafka-adapter/preloader.js:79-85 | Every corrected statement passes one class's own parameters and constructs that class, a single name. |
| `Preloader.SingleClassKeysAgree` | node/minimalist-kafka-adapter/preloader.js:81-83 | When every `clsMap` key names one class, the statements as written are the corrected ones. |
| `Preloader.SplitToken` | node/minimalist-kafka-adapter/preloader.js:81 | A single class name splits into itself. |
| `Preloader.CompositeKeyConstructed` | node/minimalist-kafka-adapter/preloader.js:83 | For the key `A,B`, the statement as written is `platform.register(a, new A,B());`; the corrected one is `platform.register(a, new A());`. |
| `Preloader.ImportLineRecognised` | node/minimalist-kafka-adapter/preloader.js:100 | Every import line the preloader writes is one the merge counts as an import from its path. |
| `Preloader.BuildImports` | node/minimalist-kafka-adapter/preloader.js:98-101 | The loop over the keys computes those import lines. |
| `Preloader.Saved` | node/minimalist-kafka-adapter/preloader.js:111-135 | Saving fails only when the merge reads a deleted line, with that error; otherwise it writes `<parent><folder>/preload/preload.ts`. |
| `Preloader.SavedSucceeds` | node/minimalist-kafka-adapter/preloader.js:126-132 | With quote-free package names saving succeeds, and the file is `<parent><folder>/preload/preload.ts`. |
| `Preloader.SavedUnmerged` | node/minimalist-kafka-adapter/preloader.js:126-132 | Without `web.component.scan`, the file is the expanded template, formatted, with no line merged: with the service list as the code writes it, or corrected. |
| `Preloader.SavedAgreesOnSingleClassKeys` | node/minimalist-kafka-adapter/preloader.js:79-85 | When every `clsMap` key names one class, the file saved as the code writes it is the corrected one. |
| `Preloader.PreloadRun` | node/minimalist-kafka-adapter/preloader.js:272-298 | The tables stay valid through every scan of `main`. |
| `Preloader.PreloadRunTemplateCheck` | node/minimalist-kafka-adapter/preloader.js:289-297 | `main` throws the template error exactly when the template check fails. |
| `Preloader.PreloadRunWrites` | node/minimalist-kafka-adapter/preloader.js:289-294 | With a valid template and quote-free package names, `main` writes two files, `src/preload/preload.ts` and then `tests/preload/preload.ts`, under the root. |
| `Preloader.DistinctErrors` | node/minimalist-kafka-adapter/preloader.js:296 | The template error differs from the merge's error. |
| `Preloader.ClassRegistry.constructor` | node/minimalist-kafka-adapter/preloader.js:7-8 | Both tables start empty. |
| `Preloader.ClassRegistry.ScanClassSignature` | node/minimalist-kafka-adapter/preloader.js:18-35 | The tables afterwards are one `ClassStep` of the key, without the `Composable` check, under the package name. |
| `Preloader.ClassRegistry.ScanPackage` | node/minimalist-kafka-adapter/preloader.js:37-60 | The tables afterwards are `PackageScan` of the scan result. |
| `Preloader.ClassRegistry.FindClass` | node/minimalist-kafka-adapter/preloader.js:206-215 | With `Composable` among the parents, the parameters are recorded and the name piece is returned; otherwise nothing changes and the result is `null`. |
| `Preloader.ClassRegistry.GetClass` | node/minimalist-kafka-adapter/preloader.js:217-233 | The name built is the join of the composable signed classes, whose parameters are recorded; `clsMap` is unchanged. |
| `Preloader.ClassRegistry.ScanSourceClass` | node/minimalist-kafka-adapter/preloader.js:261-267 | One key of the source scan is one `ClassStep` with the `Composable` check, under the key's relative path. |
| `Preloader.ClassRegistry.ScanSourceFolder` | node/minimalist-kafka-adapter/preloader.js:252-270 | The tables afterwards are `SourceScan` of the scan result. |
| `Preloader.ClassRegistry.BuildServices` | node/minimalist-kafka-adapter/preloader.js:79-85 | The statements are the service list of the current tables: as the code writes it, with `new ${cls}()`, or corrected. |
| `Preloader.ClassRegistry.SavePreloader` | node/minimalist-kafka-adapter/preloader.js:111-135 | The outcome is `Saved` of the current tables, with the same choice of service list. |
| `Preloader.ClassRegistry.Generate` | node/minimalist-kafka-adapter/preloader.js:272-298 | The outcome and the tables left are those of `PreloadRun` on the tables before; with `asWritten` the files hold the statements the code writes. |
| `JsString.SplitOnJoin` | node/composable-example/placeholder.js:89 | Joining the pieces of `split('\n')` gives back the text. |
| `JsString.NatToStringInjective` | node/minimalist-kafka-adapter/src/workers/simple-consumer.ts:61 | `String(n)` is injective on counters. |

## Left out

- Worker threads, kafkajs, the EventEmitter, PostOffice, FlowExecutor and the Logger are not called; their calls are recorded as events. Log texts are not modelled, other than the record `ack` logs (`Consumers.AckRecord`).
- `EventEnvelope.copy`, `toBytes` and `new EventEnvelope(bytes)` are the identity on the modelled fields.
- Numbers are integers; floating point is not modelled.
- Case folding in `equalsIgnoreCase` is ASCII only. `trim` removes a fixed set of white-space characters.
- A Buffer is its text; UTF-8 encoding is not modelled. Its JSON form is only known to be an object whose `type` is `"Buffer"`; the `data` byte array is not modelled.
- `KafkaInbound.DecodeSentValue`, `KafkaRuntime.KafkaRoundTrip`, `KafkaRuntime.KafkaRoundTripNonTextHeaders`: they hold only for content with no Buffer in it (`Json.Plain`), because `JSON.stringify` turns a Buffer into a plain object; `KafkaRuntime.KafkaRoundTripBufferContent` states the Buffer case.
- The `key`, `timestamp`, `attributes` and `size` fields of an emulated record are not modelled.
- Nothing in the applications emits on the emulator's EventEmitter, so emulated deliveries are modelled for one consumer (`OnEmulatedMessage`) but not fed to the worker.
- A `Date` is represented by its text, passed in as a parameter, like every UUID.
- `'k' in obj` is modelled as an own-key test; keys inherited from `Object.prototype` are not.
- What Node does after an uncaught error or a rejected promise is not modelled: a thrown error is recorded as an event and the handler stops there.
- `KafkaRuntime.KafkaWorkerRuntime.OnParentMessage`: requires an open port, because after `stop` the worker thread exits and receives nothing more.
- `KafkaRuntime.KafkaWorkerRuntime.OnKafkaMessage`: requires an open port, for the same reason (the consumers are disconnected by `stop`).
- `EchoWorkers.EchoWorker.OnParentMessage`: requires an open port, for the same reason.
- Non-string broker headers are dropped by the code; the model has one non-text header value for all of them.
- `KafkaRuntime.KafkaRoundTrip`: it assumes the consumed record gives back every produced header as a string; what the Kafka client actually delivers is not modelled. A client that delivers header values as Buffers makes `copyKafkaHeaders` copy none, and `KafkaRuntime.KafkaRoundTripNonTextHeaders` states that outcome.
- `Utility.split` is modelled as a concrete function, not left abstract.
- The class scanners (`JavaScriptClassScanner` and `TypeScriptClassScanner`, whose `scan()` gives the `classes` table) and the file system (`fs.promises.writeFile`, `fs.writeFileSync`, `fs.mkdirSync`, `fs.existsSync`, the `TemplateLoader`) are not called: scan results and the template are parameters, and every file written is recorded as a path and its text.
- The preloaders' and placeholders' log output is not modelled.
- Creating the `preload` folder when it is missing is not modelled; only the file written is.
- `MultiLevelMap` paths such as `classes.<name>.parameters` are modelled as one map of classes per scan, each with its parents and parameters.
- A package without a `classes` entry scans as an empty table.
- `Preloader.ClassRegistry.SavePreloader`: the import lines and the registrations are computed before the template loop rather than inside `handleImportEntry` and `handleServiceEntry`; with `asWritten` this gives the text the code writes, because the tables do not change during the loop.
- `Preloader.ClassRegistry.ScanSourceFolder`: an error thrown by the scanner is not modelled.
- `ImportMerge.MergeNeverFails`: holds only for package names without a quote character; with one, two packages can both claim one line, and the second merge then reads a deleted line and throws, as the code does.
- `Preloader.Saved`, `Preloader.PreloadRun`, `Preloader.ClassRegistry.SavePreloader` and `Preloader.ClassRegistry.Generate` take a flag `asWritten`: with it they write the registrations as the code does (`new ${cls}()` with the whole key), without it the corrected ones.
- `KafkaRuntime.KafkaWorkerRuntime.OnParentMessage` and `KafkaRuntime.KafkaWorkerRuntime.StartWorker`: the handler is `async` and yields at every `await` (kafka-worker.ts:158, 160, 194, 202-208, 252, 258-259), so other host messages and Kafka deliveries can run in between; the model runs each message to completion. It does not capture an outgoing message reaching the producer after it is assigned but before it is connected (rejected as not ready), consumers registered before they are connected, or a `stop` that closes the port while start-up is still running.
- `KafkaRuntime.KafkaWorkerRuntime.OnParentMessage` and `EchoWorkers.EchoWorker.OnParentMessage`: `process.loadEnvFile()` (kafka-worker.ts:152, composable-worker.ts:124, demo-worker.ts:92) is taken to succeed; when `.env` is missing it throws, the config stays unset and the next `start` throws, which the model does not capture.
- `Dict.Put`: JavaScript orders integer-like keys (such as `"0"` or `"42"`) first, ascending, before the other keys in insertion order; the model keeps insertion order for every key, so broker header names, `clsMap` keys and package names that look like integers are listed in a different order than the code's.
- The minimalist placeholder writes its second file under `test` and the preloader under `tests`, as the code does.

## Findings

| source | as written | input that shows it | evidently intended | confidence | as-written member | corrected member |
|---|---|---|---|---|---|---|
| node/minimalist-kafka-adapter/preloader.js:83 | `buildRegistrationStatement(c, cls, spaces)` writes `new ${cls}()`, where `cls` is the whole `clsMap` key | a `clsMap` key `A,B` with parameters `a` for `A` and `b` for `B`: the first statement is `platform.register(a, new A,B());` | `new ${c}()`, so each class of a composite key constructs itself: `platform.register(a, new A());` | not executed | `Preloader.RegistrationsAsWritten`, `Preloader.CompositeKeyConstructed` | `Preloader.Registrations`, `Preloader.RegistrationsConstructTheirClass`, `Preloader.ClassRegistry.BuildServices` |
