/**
 * The host-side half of a worker-thread bridge: the module-level `loaded`
 * flag and `worker` handle of kafka-worker.ts, composable-worker.ts and
 * demo-worker.ts, the envelopes posted to the worker, and what the host hands
 * to the routing runtime (PostOffice sends and flow launches).
 */
module Bridges {
  import opened Wrappers
  import opened Json
  import opened Envelopes

  /** The trace context of the PostOffice that sends an event. */
  datatype Sender = Sender(route: Option<string>, traceId: Option<string>, tracePath: Option<string>)

  /** `new PostOffice(evt)`: a post office that carries the event's own trace context. */
  function SenderOf(evt: Envelope): Sender {
    Sender(evt.to, evt.traceId, evt.tracePath)
  }

  /** The dataset a Kafka event is handed to a flow with. */
  datatype Dataset = Dataset(
    body: Body,
    header: map<string, string>,
    topic: Option<string>,
    partition: Option<string>,
    offset: Option<string>)

  /** What the host hands to the routing runtime. */
  datatype Routed =
    | Send(sender: Sender, event: Envelope)
    | LaunchFlow(sender: Sender, flowId: string, dataset: Dataset, correlationId: string, replyTo: string)

  /** The first envelope a new worker receives: `type = init`, the resource path, the runtime parameters. */
  function InitEnvelope(resourcePath: string, parameters: Body): Envelope {
    Blank().(headers := map["type" := "init", "resource.path" := resourcePath], body := parameters)
  }

  predicate IsInitEnvelope(e: Envelope) {
    HeaderIs(e, "type", "init") && "resource.path" in e.headers
  }

  /** The application config a worker loads on `init`: the resource path and the runtime arguments. */
  datatype AppConfig = AppConfig(resourcePath: string, args: seq<Body>)

  /** What reading the config of a worker that was never initialised throws. */
  const ConfigMissing: string := "Cannot read properties of undefined (reading 'getProperty')"

  /** The config a worker loads from an `init` envelope: the body counts as arguments only when it is an array. */
  function InitConfig(evt: Envelope): (c: AppConfig)
    requires "resource.path" in evt.headers
    ensures c.resourcePath == evt.headers["resource.path"]
    ensures evt.body.Arr? ==> c.args == evt.body.items
    ensures !evt.body.Arr? ==> c.args == []
  {
    AppConfig(evt.headers["resource.path"], if evt.body.Arr? then evt.body.items else [])
  }

  /** A worker initialised by the host's `init` envelope uses the host's resource path and runtime parameters. */
  lemma InitCarriesHostConfig(resourcePath: string, parameters: seq<Body>)
    ensures IsInitEnvelope(InitEnvelope(resourcePath, Arr(parameters)))
    ensures InitConfig(InitEnvelope(resourcePath, Arr(parameters))) == AppConfig(resourcePath, parameters)
  {
  }

  /**
   * The response for a worker envelope with a reply address: a fresh envelope
   * addressed to that reply address that carries the body and the
   * correlation id and nothing else of the original.
   */
  function Response(evt: Envelope): (r: Envelope)
    requires evt.replyTo.Some?
    ensures r.to == evt.replyTo && r.body == evt.body && r.correlationId == evt.correlationId
    ensures r == Blank().(to := r.to, body := r.body, correlationId := r.correlationId)
  {
    Blank().(to := evt.replyTo, body := evt.body, correlationId := evt.correlationId)
  }

  class WorkerBridge {
    var loaded: bool
    /** A Worker object exists (the `worker` variable is set). */
    var worker: bool
    /** How many times `new Worker(...)` has run. */
    var created: nat
    /** The envelopes posted to the worker, in order. */
    var toWorker: seq<Envelope>
    /** What the host has handed to the routing runtime, in order. */
    var routed: seq<Routed>

    /** The worker is created at most once, only after `loaded` is set, and `init` is the first thing it receives. */
    ghost predicate Valid()
      reads this
    {
      && created <= 1
      && (worker <==> created == 1)
      && (worker ==> loaded)
      && (worker ==> |toWorker| >= 1 && IsInitEnvelope(toWorker[0]))
      && (!worker ==> toWorker == [])
    }

    constructor ()
      ensures Valid()
      ensures !loaded && !worker && created == 0 && toWorker == [] && routed == []
    {
      loaded, worker, created := false, false, 0;
      toWorker, routed := [], [];
    }

    /**
     * `workerBridge()`: on the first call set `loaded`, then, if `mayCreate`
     * (the `isMainThread` guard, always true where the source has none),
     * create the worker and post the `init` envelope to it.
     */
    method Create(mayCreate: bool, resourcePath: string, parameters: Body)
      requires Valid()
      modifies this
      ensures Valid() && loaded
      ensures routed == old(routed)
      ensures old(loaded) ==> worker == old(worker) && created == old(created) && toWorker == old(toWorker)
      ensures !old(loaded) ==> worker == mayCreate
      ensures !old(loaded) ==> toWorker == (if mayCreate then [InitEnvelope(resourcePath, parameters)] else [])
    {
      if !loaded {
        loaded := true;
        if mayCreate {
          worker := true;
          created := created + 1;
          var init := InitEnvelope(resourcePath, parameters);
          SendEventToWorker(init);
        }
      }
    }

    /** `sendEventToWorker(evt)`: posts a copy of `evt` once the worker exists, and does nothing before. */
    method SendEventToWorker(evt: Envelope)
      requires worker && toWorker != [] ==> IsInitEnvelope(toWorker[0])
      requires worker && toWorker == [] ==> IsInitEnvelope(evt)
      modifies this`toWorker
      ensures toWorker == old(toWorker) + (if worker then [evt] else [])
    {
      if worker {
        toWorker := toWorker + [evt];
      }
    }

    /** `po.send(res)` with `po = new PostOffice(evt)` and `res` the response for `evt`. */
    method PostResponse(evt: Envelope)
      requires evt.replyTo.Some?
      modifies this`routed
      ensures routed == old(routed) + [Send(SenderOf(evt), Response(evt))]
    {
      routed := routed + [Send(SenderOf(evt), Response(evt))];
    }

    /** Hands `r` to the routing runtime. */
    method Route(r: Routed)
      modifies this`routed
      ensures routed == old(routed) + [r]
    {
      routed := routed + [r];
    }
  }
}
