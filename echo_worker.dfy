/**
 * The worker thread of composable-worker.ts and demo-worker.ts (the two are
 * the same program): it loads the config on `init`, reads it on `start`,
 * echoes `stop` and closes its port, and echoes everything else. Also the
 * host side of the composable worker: its `handleEvent` and its handler of
 * what the worker sends back.
 */
module EchoWorkers {
  import opened Wrappers
  import opened Json
  import opened Envelopes
  import opened Bridges

  /** What the worker thread records: messages to the host, errors thrown, the closed port. */
  datatype Event = ToParent(envelope: Envelope) | Thrown(message: string) | PortClosed

  /** The state of the worker thread. */
  datatype WorkerState = WorkerState(config: Option<AppConfig>, portOpen: bool)

  /** `parentPort.on('message')` for one envelope: the new state and what it records. */
  function Step(st: WorkerState, evt: Envelope): (WorkerState, seq<Event>) {
    if HeaderIs(evt, "type", "init") && Truthy(Header(evt, "resource.path")) then
      (st.(config := Some(InitConfig(evt))), [])
    else if HeaderIs(evt, "type", "start") then
      (st, if st.config.None? then [Thrown(ConfigMissing)] else [])
    else if HeaderIs(evt, "type", "stop") then
      (st.(portOpen := false), [ToParent(evt), PortClosed])
    else
      (st, [ToParent(evt)])
  }

  /** The envelopes `Step` hands back to the host. */
  function Echoed(out: seq<Event>): seq<Envelope> {
    if out == [] then []
    else (if out[0].ToParent? then [out[0].envelope] else []) + Echoed(out[1..])
  }

  /**
   * The worker never makes an envelope up: whatever it sends to the host is
   * the envelope it received, unchanged, and it answers every envelope that
   * is neither `init` nor `start`.
   */
  lemma EchoesOnlyItsInput(st: WorkerState, evt: Envelope)
    ensures Echoed(Step(st, evt).1) == (if HeaderIs(evt, "type", "start")
                                           || (HeaderIs(evt, "type", "init") && Truthy(Header(evt, "resource.path")))
                                        then [] else [evt])
  {
    var out := Step(st, evt).1;
    if HeaderIs(evt, "type", "stop") && !HeaderIs(evt, "type", "init") {
      assert out == [ToParent(evt), PortClosed];
      assert out[1..] == [PortClosed];
      assert Echoed(out[1..][1..]) == [];
    }
  }

  /** After the host's `init` with a resource path, `start` does not throw. */
  lemma InitThenStartQuiet(st: WorkerState, resourcePath: string, parameters: Body, start: Envelope)
    requires resourcePath != "" && HeaderIs(start, "type", "start")
    ensures var (st1, out1) := Step(st, InitEnvelope(resourcePath, parameters));
      && out1 == [] && st1.config == Some(InitConfig(InitEnvelope(resourcePath, parameters)))
      && Step(st1, start).1 == []
  {
  }

  /** Without `init`, `start` throws because the config was never loaded, and nothing else changes. */
  lemma StartWithoutInitThrows(st: WorkerState, start: Envelope)
    requires st.config.None? && HeaderIs(start, "type", "start")
    ensures Step(st, start) == (st, [Thrown(ConfigMissing)])
  {
  }

  /** Only `stop` closes the port, and it is echoed before the port closes. */
  lemma OnlyStopCloses(st: WorkerState, evt: Envelope)
    requires st.portOpen
    ensures !Step(st, evt).0.portOpen <==>
      HeaderIs(evt, "type", "stop") && !HeaderIs(evt, "type", "start")
      && !(HeaderIs(evt, "type", "init") && Truthy(Header(evt, "resource.path")))
    ensures !Step(st, evt).0.portOpen ==> Step(st, evt).1 == [ToParent(evt), PortClosed]
  {
  }

  class EchoWorker {
    var config: Option<AppConfig>
    var events: seq<Event>
    var portOpen: bool

    constructor ()
      ensures config.None? && events == [] && portOpen
    {
      config, events, portOpen := None, [], true;
    }

    /** `sendEventToParent(evt)`. */
    method SendEventToParent(evt: Envelope)
      modifies this`events
      ensures events == old(events) + [ToParent(evt)]
    {
      events := events + [ToParent(evt)];
    }

    /** The worker's `parentPort.on('message')`. */
    method OnParentMessage(evt: Envelope)
      requires portOpen
      modifies this
      ensures var (st, out) := Step(WorkerState(old(config), old(portOpen)), evt);
        WorkerState(config, portOpen) == st && events == old(events) + out
    {
      if HeaderIs(evt, "type", "init") && Truthy(Header(evt, "resource.path")) {
        config := Some(InitConfig(evt));
      } else if HeaderIs(evt, "type", "start") {
        if config.None? {
          events := events + [Thrown(ConfigMissing)];
        }
      } else if HeaderIs(evt, "type", "stop") {
        SendEventToParent(evt);
        portOpen := false;
        events := events + [PortClosed];
      } else {
        SendEventToParent(evt);
      }
    }
  }

  /**
   * `ComposableWorker.handleEvent(evt)`: the first `start` creates the
   * worker (on the main thread) and every envelope, that `start` included,
   * is then forwarded to it; the function itself returns nothing.
   */
  method ComposableHandleEvent(b: WorkerBridge, evt: Envelope, isMainThread: bool, resourcePath: string, parameters: Body)
    requires b.Valid()
    modifies b
    ensures b.Valid() && b.routed == old(b.routed)
    ensures !old(b.loaded) && HeaderIs(evt, "type", "start") ==>
      b.loaded && b.worker == isMainThread
      && b.toWorker == (if isMainThread then [InitEnvelope(resourcePath, parameters), evt] else [])
    ensures old(b.loaded) || !HeaderIs(evt, "type", "start") ==>
      b.loaded == old(b.loaded) && b.worker == old(b.worker)
      && b.toWorker == old(b.toWorker) + (if b.worker then [evt] else [])
  {
    if !b.loaded && HeaderIs(evt, "type", "start") {
      b.Create(isMainThread, resourcePath, parameters);
    }
    if b.worker {
      b.SendEventToWorker(evt);
    }
  }

  /**
   * The composable and demo workers' `worker.on('message')`: an envelope
   * with a reply address is answered with a fresh response carrying only
   * the body and the correlation id; anything else is dropped.
   */
  method OnWorkerReply(b: WorkerBridge, evt: Envelope)
    modifies b`routed
    ensures Truthy(evt.replyTo) ==> b.routed == old(b.routed) + [Send(SenderOf(evt), Response(evt))]
    ensures !Truthy(evt.replyTo) ==> b.routed == old(b.routed)
  {
    if Truthy(evt.replyTo) {
      b.PostResponse(evt);
    }
  }
}
