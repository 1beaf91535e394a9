/**
 * The host (main thread) half of kafka-worker.ts: the create-once bridge,
 * the split of traffic coming back from the worker into responses and
 * inbound Kafka events, and the resolver that relays an inbound Kafka event
 * to a flow, to a live route, or back to the worker as a "route not found"
 * exception.
 */
module KafkaHost {
  import opened Wrappers
  import opened Json
  import opened Envelopes
  import opened Bridges
  import opened JsString

  const ReservedMetadata: seq<string> := ["_client", "_target", "_topic", "_partition", "_offset"]
  const KafkaAdapterRoute: string := "kafka.adapter"
  const FlowProtocol: string := "flow://"

  /** The headers of an inbound event without the metadata the worker adds. */
  function KafkaHeaders(headers: map<string, string>): (r: map<string, string>)
    ensures forall k :: k in r <==> k in headers && k !in ReservedMetadata
    ensures forall k :: k in r ==> r[k] == headers[k]
  {
    map k | k in headers && k !in ReservedMetadata :: headers[k]
  }

  /** `getKafkaHeaders(headers)`: copies the headers one key at a time, skipping the reserved ones. */
  method GetKafkaHeaders(headers: map<string, string>) returns (result: map<string, string>)
    ensures result == KafkaHeaders(headers)
  {
    result := map[];
    var rest := headers.Keys;
    while rest != {}
      invariant rest <= headers.Keys
      invariant result.Keys == (headers.Keys - rest) - (set k | k in ReservedMetadata)
      invariant forall k :: k in result ==> result[k] == headers[k]
      decreases rest
    {
      var h :| h in rest;
      if h !in ReservedMetadata {
        result := result[h := headers[h]];
      }
      rest := rest - {h};
    }
  }

  /** The post office an inbound Kafka event is relayed with: `kafka.adapter`, with the event's trace id. */
  function KafkaSender(evt: Envelope): (s: Sender)
    ensures s.route == Some(KafkaAdapterRoute) && s.traceId == Header(evt, "x-trace-id")
    ensures s.tracePath.Some? <==> Truthy(Header(evt, "x-trace-id"))
    ensures s.tracePath.Some? ==> s.tracePath.value == "TOPIC " + Text(Header(evt, "_topic"))
  {
    var traceId := Header(evt, "x-trace-id");
    var tracePath := if Truthy(traceId) then Some("TOPIC " + Text(Header(evt, "_topic"))) else None;
    Sender(Some(KafkaAdapterRoute), traceId, tracePath)
  }

  /** What the resolver does with an inbound Kafka event. */
  datatype Relay =
    | Ignored
    | Relayed(routed: Routed)
    | NotFound(errorEvent: Envelope)

  /** The exception envelope sent back to the worker for a target that is not a route. */
  function NotFoundEvent(clientId: string, target: string): Envelope {
    Blank().(headers := map["client" := clientId, "type" := "exception"], body := Str("route " + target + " not found"))
  }

  /** The request a live route receives: correlated by the consumer id, replying to `kafka.adapter`. */
  function RouteRequest(evt: Envelope, target: string, clientId: string): Envelope {
    Blank().(to := Some(target), correlationId := Some(clientId), replyTo := Some(KafkaAdapterRoute),
             headers := evt.headers, body := evt.body)
  }

  /** `handleIncomingKafkaMessage(evt)` as a decision, for the set `routes` of targets `po.exists` accepts. */
  function Resolve(evt: Envelope, routes: set<string>): (r: Relay)
    ensures r.Ignored? <==> !(Truthy(Header(evt, "_client")) && Truthy(Header(evt, "_target")))
    ensures r.Relayed? && r.routed.LaunchFlow? <==> !r.Ignored? && StartsWith(evt.headers["_target"], FlowProtocol)
    ensures r.Relayed? && r.routed.Send? <==>
      !r.Ignored? && !StartsWith(evt.headers["_target"], FlowProtocol) && evt.headers["_target"] in routes
    ensures r.Relayed? ==> r.routed.sender == KafkaSender(evt)
  {
    var clientId := Header(evt, "_client");
    var target := Header(evt, "_target");
    if Truthy(clientId) && Truthy(target) then
      var po := KafkaSender(evt);
      var t := target.value;
      if StartsWith(t, FlowProtocol) then
        var flowId := Substring(t, |FlowProtocol|, |t|);
        var dataset := Dataset(evt.body, KafkaHeaders(evt.headers),
                               Header(evt, "_topic"), Header(evt, "_partition"), Header(evt, "_offset"));
        Relayed(LaunchFlow(po, flowId, dataset, clientId.value, KafkaAdapterRoute))
      else if t in routes then
        Relayed(Send(po, RouteRequest(evt, t, clientId.value)))
      else
        NotFound(NotFoundEvent(clientId.value, t))
    else Ignored
  }

  /**
   * A `flow://X` target launches flow `X` with the body, the non-reserved
   * headers and the topic, partition and offset, correlated by the client
   * id and replying to `kafka.adapter`.
   */
  lemma FlowLaunch(evt: Envelope, routes: set<string>)
    requires Truthy(Header(evt, "_client")) && Truthy(Header(evt, "_target"))
    requires StartsWith(evt.headers["_target"], FlowProtocol)
    ensures var t := evt.headers["_target"];
      Resolve(evt, routes) == Relayed(LaunchFlow(KafkaSender(evt), t[|FlowProtocol|..],
        Dataset(evt.body, KafkaHeaders(evt.headers), Header(evt, "_topic"), Header(evt, "_partition"), Header(evt, "_offset")),
        evt.headers["_client"], KafkaAdapterRoute))
    ensures forall k :: k in ReservedMetadata ==> k !in Resolve(evt, routes).routed.dataset.header
  {
    var t := evt.headers["_target"];
    assert Substring(t, |FlowProtocol|, |t|) == t[|FlowProtocol|..];
  }

  /** A flow target is never looked up as a route: the outcome is the same whatever routes exist. */
  lemma FlowIgnoresRoutes(evt: Envelope, routes1: set<string>, routes2: set<string>)
    requires Truthy(Header(evt, "_target")) && StartsWith(evt.headers["_target"], FlowProtocol)
    ensures Resolve(evt, routes1) == Resolve(evt, routes2)
  {
  }

  /** A live route gets a new request with all the headers and the body, correlated by the client id. */
  lemma RouteRelay(evt: Envelope, routes: set<string>)
    requires Truthy(Header(evt, "_client")) && Truthy(Header(evt, "_target"))
    requires !StartsWith(evt.headers["_target"], FlowProtocol) && evt.headers["_target"] in routes
    ensures var r := Resolve(evt, routes).routed.event;
      && r.to == Some(evt.headers["_target"]) && r.correlationId == Some(evt.headers["_client"])
      && r.replyTo == Some(KafkaAdapterRoute) && r.headers == evt.headers && r.body == evt.body
      && r.traceId.None? && r.status.None?
  {
  }

  /** A target that is neither a flow nor a route yields exactly the "route not found" exception envelope. */
  lemma RouteMissing(evt: Envelope, routes: set<string>)
    requires Truthy(Header(evt, "_client")) && Truthy(Header(evt, "_target"))
    requires !StartsWith(evt.headers["_target"], FlowProtocol) && evt.headers["_target"] !in routes
    ensures var e := Resolve(evt, routes).errorEvent;
      && e.headers == map["client" := evt.headers["_client"], "type" := "exception"]
      && e.body == Str("route " + evt.headers["_target"] + " not found")
      && e.to.None? && e.replyTo.None? && e.correlationId.None?
  {
  }

  /** `handleIncomingKafkaMessage(evt)`: acts on the resolver's decision. */
  method HandleIncomingKafkaMessage(b: WorkerBridge, evt: Envelope, routes: set<string>)
    requires b.Valid() && b.worker
    modifies b`toWorker, b`routed
    ensures b.Valid()
    ensures Resolve(evt, routes).Ignored? ==> b.routed == old(b.routed) && b.toWorker == old(b.toWorker)
    ensures Resolve(evt, routes).Relayed? ==>
      b.routed == old(b.routed) + [Resolve(evt, routes).routed] && b.toWorker == old(b.toWorker)
    ensures Resolve(evt, routes).NotFound? ==>
      b.routed == old(b.routed) && b.toWorker == old(b.toWorker) + [Resolve(evt, routes).errorEvent]
  {
    var r := Resolve(evt, routes);
    match r
    case Ignored =>
    case Relayed(x) => b.Route(x);
    case NotFound(e) => b.SendEventToWorker(e);
  }

  /** The host's `worker.on('message')`: a response when `to` and `replyTo` are set, the resolver otherwise. */
  method OnWorkerMessage(b: WorkerBridge, evt: Envelope, routes: set<string>)
    requires b.Valid() && b.worker
    modifies b`toWorker, b`routed
    ensures b.Valid()
    ensures Truthy(evt.to) && Truthy(evt.replyTo) ==>
      b.routed == old(b.routed) + [Send(SenderOf(evt), Response(evt))] && b.toWorker == old(b.toWorker)
    ensures !(Truthy(evt.to) && Truthy(evt.replyTo)) ==> match Resolve(evt, routes)
      case Ignored => b.routed == old(b.routed) && b.toWorker == old(b.toWorker)
      case Relayed(x) => b.routed == old(b.routed) + [x] && b.toWorker == old(b.toWorker)
      case NotFound(e) => b.routed == old(b.routed) && b.toWorker == old(b.toWorker) + [e]
  {
    if Truthy(evt.to) && Truthy(evt.replyTo) {
      b.PostResponse(evt);
    } else {
      HandleIncomingKafkaMessage(b, evt, routes);
    }
  }

  /** `KafkaWorker.workerBridge()`, guarded by `isMainThread`. */
  method WorkerBridgeStart(b: WorkerBridge, isMainThread: bool, resourcePath: string, parameters: Body)
    requires b.Valid()
    modifies b
    ensures b.Valid() && b.loaded && b.routed == old(b.routed)
    ensures old(b.loaded) ==> b.worker == old(b.worker) && b.toWorker == old(b.toWorker)
    ensures !old(b.loaded) ==> b.worker == isMainThread
    ensures !old(b.loaded) ==> b.toWorker == (if isMainThread then [InitEnvelope(resourcePath, parameters)] else [])
  {
    b.Create(isMainThread, resourcePath, parameters);
  }
}
