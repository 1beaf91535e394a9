/**
 * How the host and the Kafka worker fit together: the `init` envelope the
 * host sends is the one the worker loads its config from, an inbound record
 * always reaches the resolver with its consumer and target, the "route not
 * found" exception the host sends back is echoed by the worker rather than
 * mistaken for a command, and a `kafka.notification` request is published
 * and answered with the worker's confirmation.
 */
module KafkaLinks {
  import opened Wrappers
  import opened Json
  import opened Envelopes
  import opened Bridges
  import opened KafkaInbound
  import opened KafkaRuntime
  import KafkaHost
  import Tasks
  import opened Broker
  import opened JsString

  /** The host's first envelope takes the worker's `init` branch whenever the resource path is not empty. */
  lemma InitIsInitialise(resourcePath: string, parameters: Body, started: bool, consumers: set<string>)
    requires resourcePath != ""
    ensures Dispatch(InitEnvelope(resourcePath, parameters), started, consumers) == Initialise
  {
  }

  /**
   * A record consumed for a subscription with a consumer id and a target is
   * never ignored by the host: it launches the flow, is sent to the route,
   * or comes back as "route not found", all addressed by that subscription.
   */
  lemma InboundIsRelayed(sub: Subscription, p: Payload, uuid: string, codec: Codec, routes: set<string>)
    requires sub.consumer != "" && sub.target != ""
    ensures var e := InboundEnvelope(sub, p, uuid, codec);
      var r := KafkaHost.Resolve(e, routes);
      && !r.Ignored?
      && (StartsWith(sub.target, KafkaHost.FlowProtocol) ==>
            r.Relayed? && r.routed.LaunchFlow? && r.routed.flowId == sub.target[|KafkaHost.FlowProtocol|..]
            && r.routed.correlationId == sub.consumer && r.routed.dataset.body == DecodeValue(p.message.value, codec))
      && (!StartsWith(sub.target, KafkaHost.FlowProtocol) && sub.target in routes ==>
            r.Relayed? && r.routed.Send? && r.routed.event.to == Some(sub.target)
            && r.routed.event.correlationId == Some(sub.consumer) && r.routed.event.body == DecodeValue(p.message.value, codec))
      && (!StartsWith(sub.target, KafkaHost.FlowProtocol) && sub.target !in routes ==>
            r == KafkaHost.Relay.NotFound(KafkaHost.NotFoundEvent(sub.consumer, sub.target)))
  {
    var e := InboundEnvelope(sub, p, uuid, codec);
    assert Header(e, "_client") == Some(sub.consumer) && Header(e, "_target") == Some(sub.target);
    if StartsWith(sub.target, KafkaHost.FlowProtocol) {
      KafkaHost.FlowLaunch(e, routes);
    }
  }

  /** The "route not found" exception reaches the worker as an ordinary envelope and is echoed to the host. */
  lemma NotFoundIsEchoed(clientId: string, target: string, started: bool, consumers: set<string>)
    ensures Dispatch(KafkaHost.NotFoundEvent(clientId, target), started, consumers) == EchoBack
  {
    var e := KafkaHost.NotFoundEvent(clientId, target);
    assert e.headers["type"] == "exception";
    assert "topic" !in e.headers;
  }

  /**
   * A `kafka.notification` request, once the post office has given it a
   * reply address and a correlation id no consumer uses, is published by
   * the worker with its content and its trace header, and the host answers
   * the caller with the "Event sent" confirmation and nothing else.
   */
  lemma NotificationIsPublished(evt: Envelope, inbox: string, cid: string, started: bool, consumers: set<string>,
                                producerId: string, key: string, now: string, codec: Codec)
    requires Tasks.NotificationRequest(evt).Success?
    requires inbox != "" && cid !in consumers
    requires !HeaderIs(evt, "type", "init") && !HeaderIs(evt, "type", "start") && !HeaderIs(evt, "type", "stop")
    ensures var q := Tasks.NotificationRequest(evt).value.(replyTo := Some(inbox), correlationId := Some(cid));
      var out := Outgoing(q, Some(producerId), key, now, codec);
      && Dispatch(q, started, consumers) == SendOutgoing
      && |out| == 2
      && out[0] == Foreign(ProducerSend(producerId, evt.headers["topic"],
                           Record(key, Binary(codec.stringify(evt.body.fields["content"])), Some(q.headers))))
      && out[1].ToParent? && Truthy(out[1].envelope.to) && Truthy(out[1].envelope.replyTo)
      && Response(out[1].envelope) ==
           Blank().(to := Some(inbox), body := Confirmation(evt.headers["topic"], now), correlationId := Some(cid))
  {
    var q := Tasks.NotificationRequest(evt).value.(replyTo := Some(inbox), correlationId := Some(cid));
    assert Header(q, "topic") == Header(evt, "topic");
    assert HeaderIs(q, "type", "init") == HeaderIs(evt, "type", "init");
    assert HeaderIs(q, "type", "start") == HeaderIs(evt, "type", "start");
    assert HeaderIs(q, "type", "stop") == HeaderIs(evt, "type", "stop");
    if Truthy(evt.traceId) {
      assert q.headers[TraceHeader := evt.traceId.value] == q.headers;
    }
    assert Traced(q, Some(producerId)) == q;
  }
}
