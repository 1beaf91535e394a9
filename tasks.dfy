/**
 * The composable functions of the two applications: `kafka.adapter` and
 * `composable.worker.demo` (interceptors that start a worker on `start` and
 * forward every envelope to it), `kafka.notification` (which turns a request
 * into an outgoing Kafka message for `kafka.adapter`) and
 * `v1.hello.exception` (a user-defined exception handler).
 */
module Tasks {
  import opened Wrappers
  import opened Json
  import opened Envelopes
  import opened Bridges
  import KafkaHost

  /**
   * `KafkaAdapter.handleEvent(evt)`: `start` runs the bridge (which creates
   * the worker once, on the main thread); the envelope is then forwarded,
   * and the function returns `null`.
   */
  method KafkaAdapterHandleEvent(b: WorkerBridge, evt: Envelope, isMainThread: bool, resourcePath: string, parameters: Body)
    returns (r: Body)
    requires b.Valid()
    modifies b
    ensures r == Null && b.Valid() && b.routed == old(b.routed)
    ensures HeaderIs(evt, "type", "start") ==> b.loaded
    ensures HeaderIs(evt, "type", "start") && !old(b.loaded) ==>
      b.worker == isMainThread && b.toWorker == (if isMainThread then [InitEnvelope(resourcePath, parameters), evt] else [])
    ensures old(b.loaded) || !HeaderIs(evt, "type", "start") ==>
      b.loaded == old(b.loaded) && b.worker == old(b.worker) && b.toWorker == old(b.toWorker) + (if b.worker then [evt] else [])
  {
    if HeaderIs(evt, "type", "start") {
      b.Create(isMainThread, resourcePath, parameters);
    }
    b.SendEventToWorker(evt);
    r := Null;
  }

  /**
   * `ComposableAdapter.handleEvent(evt)`: the same over the demo worker,
   * whose bridge has no main-thread guard and so always creates the worker.
   */
  method ComposableAdapterHandleEvent(b: WorkerBridge, evt: Envelope, resourcePath: string, parameters: Body)
    returns (r: Body)
    requires b.Valid()
    modifies b
    ensures r == Null && b.Valid() && b.routed == old(b.routed)
    ensures HeaderIs(evt, "type", "start") ==> b.loaded
    ensures HeaderIs(evt, "type", "start") && !old(b.loaded) ==>
      b.worker && b.toWorker == [InitEnvelope(resourcePath, parameters), evt]
    ensures old(b.loaded) || !HeaderIs(evt, "type", "start") ==>
      b.loaded == old(b.loaded) && b.worker == old(b.worker) && b.toWorker == old(b.toWorker) + (if b.worker then [evt] else [])
  {
    if HeaderIs(evt, "type", "start") {
      b.Create(true, resourcePath, parameters);
    }
    b.SendEventToWorker(evt);
    r := Null;
  }

  /** An `AppException`: a status and a message. */
  datatype AppError = AppError(status: int, message: string)

  const NotificationError: string := "Input must contain topic in headers and content in body"

  /**
   * `KafkaNotification.handleEvent(evt)`: the request it makes to
   * `kafka.adapter` (the trace id copied into `x-trace-id`), or the 400
   * exception when the topic header or the `content` key is missing.
   */
  function NotificationRequest(evt: Envelope): (r: Result<Envelope, AppError>)
    ensures r.Success? <==> Truthy(Header(evt, "topic")) && HasKey(evt.body, "content")
    ensures r.Failure? ==> r.error == AppError(400, NotificationError)
    ensures r.Success? ==> r.value.to == Some(KafkaHost.KafkaAdapterRoute) && r.value.body == evt.body
    ensures r.Success? ==> r.value.headers == (if Truthy(evt.traceId) then evt.headers["x-trace-id" := evt.traceId.value] else evt.headers)
    ensures r.Success? ==> r.value.(to := evt.to, headers := evt.headers) == evt
  {
    if Truthy(Header(evt, "topic")) && IsObject(evt.body) then
      if HasKey(evt.body, "content") then
        var traced := if Truthy(evt.traceId) then SetHeader(evt, "x-trace-id", evt.traceId.value) else evt;
        Success(traced.(to := Some(KafkaHost.KafkaAdapterRoute)))
      else Failure(AppError(400, NotificationError))
    else Failure(AppError(400, NotificationError))
  }

  /** Submitting an accepted request again is accepted and gives the same request: the trace header is already set. */
  lemma NotificationIdempotent(evt: Envelope)
    requires NotificationRequest(evt).Success?
    ensures NotificationRequest(NotificationRequest(evt).value) == NotificationRequest(evt)
  {
    var q := NotificationRequest(evt).value;
    assert Header(q, "topic") == Header(evt, "topic");
    if Truthy(evt.traceId) {
      var h := evt.headers["x-trace-id" := evt.traceId.value];
      assert h["x-trace-id" := evt.traceId.value] == h;
    }
    assert NotificationRequest(q).value == q;
  }

  const HelloNullInput: string := "Cannot read properties of null (reading 'stack')"

  /** The input of `v1.hello.exception` names an error: a numeric or text status and a `message` key. */
  predicate NamesError(input: Body) {
    input.Obj? && "status" in input.fields && (input.fields["status"].Num? || input.fields["status"].Str?)
    && "message" in input.fields
  }

  /**
   * `HelloException.handleEvent(evt)` on the body: an error object of type
   * `error` with the status and message when the input names one, an empty
   * object otherwise; a `null` body throws.
   */
  function HelloException(input: Body): (r: Result<Body, string>)
    ensures r.Failure? <==> input.Null?
    ensures r.Failure? ==> r.error == HelloNullInput
    ensures r.Success? && NamesError(input) ==>
      r.value == Obj(map["type" := Str("error"), "status" := input.fields["status"], "message" := input.fields["message"]])
    ensures r.Success? && !NamesError(input) ==> r.value == Obj(map[])
  {
    if input.Null? then Failure(HelloNullInput)
    else if input.Obj? && "status" in input.fields && (input.fields["status"].Num? || input.fields["status"].Str?)
            && "message" in input.fields then
      var f := input.fields;
      Success(Obj(map["type" := Str("error"), "status" := f["status"], "message" := f["message"]]))
    else Success(Obj(map[]))
  }

  /** What the handler returns is a fixed point: run on its own result it returns the same object. */
  lemma HelloExceptionFixedPoint(input: Body)
    requires HelloException(input).Success?
    ensures HelloException(HelloException(input).value) == HelloException(input)
  {
  }

  /** The stack trace is only logged: adding one to the input does not change the result. */
  lemma HelloExceptionIgnoresStack(fields: map<string, Body>, stack: string)
    requires "stack" !in fields
    ensures HelloException(Obj(fields["stack" := Str(stack)])) == HelloException(Obj(fields))
  {
    var withStack := fields["stack" := Str(stack)];
    assert NamesError(Obj(withStack)) <==> NamesError(Obj(fields));
    if NamesError(Obj(fields)) {
      assert withStack["status"] == fields["status"] && withStack["message"] == fields["message"];
    }
  }
}
