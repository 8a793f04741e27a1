/**
 * The bridge's wire format: the message envelope built by `makeEnvelope` and recognised by
 * `isEnvelope`, the handful of JavaScript value shapes the engine inspects, and the records of
 * what an engine hands to its environment (posted messages, handler invocations, settled
 * promises).  Both builds of the engine share this module: their `makeEnvelope` and
 * `isEnvelope` are the same operation.
 */
module Wire {

  datatype Option<+T> = None | Some(value: T)

  /** The outcome of an operation that can throw synchronously. */
  datatype Outcome = Done | Thrown(message: string)

  /** The outcome of a construction step that can throw. */
  datatype Result<+T> = Ok(value: T) | Err(message: string)

  type Origin = string

  /** The two roles an engine plays: the page that embeds the iframes, or a page inside one. */
  datatype Role = Host | Child

  /** The `allowedOrigins` option as given: an array of origins, or anything else. */
  datatype OriginList = NotAnArray | List(origins: seq<Origin>)

  /** The `role` option names one of the two roles. */
  predicate KnownRole(role: string) {
    role == "host" || role == "child"
  }

  /**
   * `hasOriginAllowlist`: an array with at least one entry.  The earlier build names this test;
   * the current build writes it inline in its construction check.
   */
  predicate HasOriginAllowlist(l: OriginList) {
    l.List? && |l.origins| > 0
  }

  /** The options of `request`/`hostRequest`; `targetOrigin` is "" when absent. */
  datatype RequestOptions = RequestOptions(timeoutMs: Option<int>, targetOrigin: Origin)

  /** Identity of a window object (a frame's `contentWindow`, or an event's `source`). */
  type WindowId = nat

  /** Identity of a callback registered with `on` or `onStatus`. */
  type HandlerId = nat

  /**
   * The JavaScript primitive values the engine inspects in options and inbound data:
   * `undefined` (also standing for `null` and absent properties), booleans, numbers
   * (integers suffice here) and strings.
   */
  datatype Prim = Undefined | Bool(b: bool) | Num(n: int) | Str(s: string)

  /** JavaScript truthiness of a primitive. */
  predicate Truthy(p: Prim) {
    match p
    case Undefined => false
    case Bool(b) => b
    case Num(n) => n != 0
    case Str(s) => s != ""
  }

  /** `a || b` on two strings: the first one unless it is empty. */
  function Or(a: string, b: string): (r: string)
    ensures a != "" ==> r == a
    ensures a == "" ==> r == b
  {
    if a != "" then a else b
  }

  /** A message payload.  The engine only looks inside the payloads it builds or reads itself. */
  datatype Payload =
    | Nothing                          // undefined or null
    | App(datum: int)                  // application data, opaque to the engine
    | ClientRef(clientId: string)      // { clientId }, carried by MFE_HELLO and MFE_PING
    | ReadyAck(channel: Option<Prim>)  // { ok: true }, or { ok: true, channel }
    | RpcError(message: string)        // { error: true, message }

  /** `payload && payload.clientId`: the empty string when the payload names no client. */
  function ClientIdOf(p: Payload): string {
    if p.ClientRef? then p.clientId else ""
  }

  /** The system message types. */
  const HELLO := "MFE_HELLO"
  const READY := "MFE_READY"
  const PING := "MFE_PING"

  /**
   * The fields of an inbound or outbound object: the marker `__mfe_bridge__`, the protocol
   * version `v`, `channel`, `type` (here `kind`), `payload`, the timestamp `t`, and the optional correlation
   * fields `id` and `replyTo` (`Undefined` when absent).
   */
  datatype Message = Message(
    marker: Prim, version: Prim, channel: Prim, kind: string, payload: Payload,
    t: int, id: Prim, replyTo: Prim)

  /** What arrives as `ev.data`: something that is not an object at all, or an object. */
  datatype Data = NonObject | Obj(msg: Message)

  /** The `extra` argument of `makeEnvelope`: nothing, a request id, or a reply correlation. */
  datatype Extra = NoExtra | WithId(id: string) | WithReplyTo(replyTo: Prim)

  /** `isEnvelope`: an object carrying the marker `true` and version `1`; never fails. */
  predicate IsEnvelope(d: Data) {
    d.Obj? && d.msg.marker == Bool(true) && d.msg.version == Num(1)
  }

  /**
   * `isEnvelope` compares with `===`: a non-object is never an envelope, and an object is one
   * exactly when its marker is the boolean `true` and its version the number 1.  A merely
   * truthy marker or a version spelled as a string or boolean does not pass.
   */
  lemma EnvelopeIsStrict(m: Message)
    ensures !IsEnvelope(NonObject)
    ensures IsEnvelope(Obj(m)) <==> m.marker == Bool(true) && m.version == Num(1)
    ensures !IsEnvelope(Obj(m.(marker := Num(1)))) && !IsEnvelope(Obj(m.(marker := Str("true"))))
    ensures !IsEnvelope(Obj(m.(version := Str("1")))) && !IsEnvelope(Obj(m.(version := Bool(true))))
  {
  }

  /**
   * `makeEnvelope(channel, type, payload, extra)`: stamps the marker, version 1 and the
   * current time, and merges the correlation field of `extra` without touching the others.
   */
  function MakeEnvelope(channel: Prim, kind: string, payload: Payload, extra: Extra, now: int): (m: Message)
    ensures IsEnvelope(Obj(m))
    ensures m.channel == channel && m.kind == kind && m.payload == payload && m.t == now
    ensures extra.WithId? ==> m.id == Str(extra.id) && m.replyTo == Undefined
    ensures extra.WithReplyTo? ==> m.replyTo == extra.replyTo && m.id == Undefined
    ensures extra.NoExtra? ==> m.id == Undefined && m.replyTo == Undefined
  {
    var base := Message(Bool(true), Num(1), channel, kind, payload, now, Undefined, Undefined);
    match extra
    case NoExtra => base
    case WithId(id) => base.(id := Str(id))
    case WithReplyTo(r) => base.(replyTo := r)
  }

  /** An inbound `message` event: its data, its claimed origin and its source window (if any). */
  datatype Event = Event(data: Data, origin: Origin, source: Option<WindowId>)

  /** Where a `postMessage` goes: the parent window, or a given window. */
  datatype Target = Parent | Window(id: WindowId)

  /** One `postMessage(message, targetOrigin)` call on `target`. */
  datatype Post = Post(target: Target, msg: Message, targetOrigin: Origin)

  /** What an RPC responder produces: a value, or an exception with its `message`. */
  datatype RpcOutcome = Returned(value: Payload) | Threw(message: string)

  /** One invocation of a pub/sub handler; `context` is the `{ origin }` argument, when passed. */
  datatype Delivery = Delivery(handler: HandlerId, payload: Payload, context: Option<Origin>)

  /** How the promise of a `request` or `hostRequest` was settled. */
  datatype Settlement = Resolved(id: string, value: Payload) | Rejected(id: string, reason: string)

  /** The promise returned by `request`/`hostRequest`: pending under a correlation id, or rejected at once. */
  datatype Call = Awaiting(id: string) | RejectedNow(reason: string)

  /** The invocations of `handlers`, in order, each with `payload` and `context`. */
  function Deliveries(handlers: seq<HandlerId>, payload: Payload, context: Option<Origin>): (r: seq<Delivery>)
    ensures |r| == |handlers|
  {
    if handlers == [] then []
    else Deliveries(handlers[..|handlers| - 1], payload, context)
         + [Delivery(handlers[|handlers| - 1], payload, context)]
  }

  /** Each handler is invoked once, in order, with the same payload and context. */
  lemma {:induction false} DeliveriesInOrder(handlers: seq<HandlerId>, payload: Payload, context: Option<Origin>)
    ensures forall i :: 0 <= i < |handlers| ==>
              Deliveries(handlers, payload, context)[i] == Delivery(handlers[i], payload, context)
    decreases |handlers|
  {
    if handlers != [] {
      DeliveriesInOrder(handlers[..|handlers| - 1], payload, context);
    }
  }
}
