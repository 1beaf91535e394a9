/**
 * The event envelope of the routing library as a value: every field the
 * bridge reads or writes. Copying an envelope (`new EventEnvelope().copy(e)`)
 * and its binary round trip (`toBytes` / `new EventEnvelope(bytes)`) keep all
 * of these fields, so both are the identity here.
 */
module Envelopes {
  import opened Wrappers
  import opened Json

  datatype Envelope = Envelope(
    to: Option<string>,
    replyTo: Option<string>,
    correlationId: Option<string>,
    traceId: Option<string>,
    tracePath: Option<string>,
    headers: map<string, string>,
    body: Body,
    status: Option<int>)

  /** `new EventEnvelope()`. */
  function Blank(): Envelope {
    Envelope(None, None, None, None, None, map[], Null, None)
  }

  /** `e.getHeader(k)`. */
  function Header(e: Envelope, k: string): Option<string> {
    if k in e.headers then Some(e.headers[k]) else None
  }

  /** JavaScript truthiness of an optional string: present and not empty. */
  predicate Truthy(o: Option<string>) {
    o.Some? && o.value != ""
  }

  predicate HeaderIs(e: Envelope, k: string, v: string) {
    k in e.headers && e.headers[k] == v
  }

  /** `e.setHeader(k, v)`. */
  function SetHeader(e: Envelope, k: string, v: string): Envelope {
    e.(headers := e.headers[k := v])
  }

  /** A value interpolated into a template literal; a missing one prints as `undefined`. */
  function Text(o: Option<string>): string {
    if o.Some? then o.value else "undefined"
  }

  /** `e.getStatus() >= 400`. */
  predicate IsErrorStatus(e: Envelope) {
    e.status.Some? && e.status.value >= 400
  }
}
