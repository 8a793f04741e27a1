/**
 * The decisions of the earlier build of the engine (`packages/mfe-bridge/dist/index.js`) that
 * depend only on values: option checking, the origin allowlist, the routing order of inbound
 * messages, the reply to an RPC request, the fan-out of `broadcast`, and the bookkeeping of
 * pending calls and their timeouts.  This build has no client status, no heartbeat and no
 * retry.  The `Bridge` class in `DistBridge` applies these rules to its state.
 */
module DistRules {
  import opened Wire
  import opened Text
  import opened Ordered
  import opened Scheduler

  /** `originAllowed`: false without an allowlist, otherwise exact membership in it. */
  predicate OriginAllowed(origin: Origin, allowed: OriginList)
    ensures !HasOriginAllowlist(allowed) ==> !OriginAllowed(origin, allowed)
    ensures HasOriginAllowlist(allowed) ==>
              (OriginAllowed(origin, allowed) <==>
               exists i :: 0 <= i < |allowed.origins| && allowed.origins[i] == origin)
  {
    if !HasOriginAllowlist(allowed) then false else origin in allowed.origins
  }

  /* ---------------------------------------------------------------- options */

  /** The options of `createBridge` this build reads (`debug` only switches logging); `clientId` is "" when absent. */
  datatype Options = Options(role: string, channel: Prim, allowedOrigins: OriginList, clientId: string, autoHello: Prim)

  /** The settings a constructed bridge works with. */
  datatype Config = Config(role: Role, channel: string, allowedOrigins: seq<Origin>, clientId: string, autoHello: bool)
  {
    /** What construction guarantees: a non-empty channel string and a non-empty allowlist. */
    predicate Valid() {
      channel != "" && |allowedOrigins| > 0
    }
  }

  /** The channel passes `!channel || typeof channel !== 'string'` only as a non-empty string. */
  predicate ChannelGiven(channel: Prim) {
    channel.Str? && channel.s != ""
  }

  /**
   * The checks at the top of `createBridge`: the role (its message names the role given), then
   * the channel, then the allowlist.  `autoHello` defaults to true only when it is absent;
   * any other value is taken by its truthiness.
   */
  function CheckOptions(o: Options): (r: Result<Config>)
    ensures !KnownRole(o.role) ==> r == Err("Invalid role: " + o.role)
    ensures KnownRole(o.role) && !ChannelGiven(o.channel) ==> r == Err("channel is required")
    ensures KnownRole(o.role) && ChannelGiven(o.channel) && !HasOriginAllowlist(o.allowedOrigins) ==>
              r == Err("allowedOrigins must be a non-empty array")
    ensures r.Ok? <==> KnownRole(o.role) && ChannelGiven(o.channel) && HasOriginAllowlist(o.allowedOrigins)
    ensures r.Ok? ==>
              && r.value.Valid()
              && (r.value.role == Host <==> o.role == "host")
              && Str(r.value.channel) == o.channel
              && r.value.allowedOrigins == o.allowedOrigins.origins
              && r.value.clientId == o.clientId
              && (o.autoHello == Undefined ==> r.value.autoHello)
              && (o.autoHello != Undefined ==> r.value.autoHello == Truthy(o.autoHello))
  {
    if !KnownRole(o.role) then Err("Invalid role: " + o.role)
    else if !ChannelGiven(o.channel) then Err("channel is required")
    else if !HasOriginAllowlist(o.allowedOrigins) then Err("allowedOrigins must be a non-empty array")
    else Ok(Config(
      if o.role == "host" then Host else Child, o.channel.s, o.allowedOrigins.origins, o.clientId,
      o.autoHello == Undefined || Truthy(o.autoHello)))
  }

  /* ---------------------------------------------------------------- records */

  /** A registered client: its window and its origin. */
  datatype Client = Client(win: WindowId, origin: Origin)

  type Clients = OrderedMap<string, Client>

  /** The `timeoutMs` of a request: 6000 only when absent (a destructuring default, so 0 stays 0). */
  function RequestTimeout(opts: RequestOptions): (ms: int)
    ensures opts.timeoutMs.None? ==> ms == 6000
    ensures opts.timeoutMs.Some? ==> ms == opts.timeoutMs.value
  {
    if opts.timeoutMs.Some? then opts.timeoutMs.value else 6000
  }

  /** The rejection reason of a child's `request` that times out. */
  function RequestExpiry(kind: string): string {
    "RPC timeout: " + kind
  }

  /** The rejection reason of a `hostRequest` that times out: it also names the client. */
  function HostRequestExpiry(kind: string, id: string): string {
    "RPC timeout: " + kind + " -> " + id
  }

  /* ---------------------------------------------------------------- routing */

  /** The path `onMessage` takes: dropped, an RPC reply for `key`, HELLO, an RPC request, or pub/sub. */
  datatype Route = Ignore | Settle(key: string) | Handshake | Invoke | Publish

  /** The gates of `onMessage`: an allowed origin, an envelope, and the bridge's channel. */
  predicate Admitted(channel: string, allowed: seq<Origin>, ev: Event) {
    OriginAllowed(ev.origin, List(allowed)) && IsEnvelope(ev.data) && ev.data.msg.channel == Str(channel)
  }

  /** An admitted message whose `replyTo` names a pending call. */
  predicate Correlated(channel: string, allowed: seq<Origin>, ev: Event, pendingIds: set<string>) {
    && Admitted(channel, allowed, ev)
    && ev.data.msg.replyTo.Str? && ev.data.msg.replyTo.s != "" && ev.data.msg.replyTo.s in pendingIds
  }

  /**
   * The routing order of `onMessage` in this build: origin gate, envelope and channel gate,
   * `replyTo` (a reply for no pending call is dropped), HELLO on a host, an RPC request with an
   * `id` for a type that has a responder, and otherwise pub/sub.  There is no PING route.
   */
  function RouteOf(role: Role, channel: string, allowed: seq<Origin>, ev: Event,
                   pendingIds: set<string>, responders: set<string>): (r: Route)
    ensures !OriginAllowed(ev.origin, List(allowed)) ==> r == Ignore
    ensures !IsEnvelope(ev.data) ==> r == Ignore
    ensures IsEnvelope(ev.data) && ev.data.msg.channel != Str(channel) ==> r == Ignore
    ensures r != Ignore ==> OriginAllowed(ev.origin, List(allowed)) && IsEnvelope(ev.data) && ev.data.msg.channel == Str(channel)
    ensures r.Settle? ==> ev.data.msg.replyTo == Str(r.key) && r.key in pendingIds
    ensures r != Ignore && !r.Settle? ==> !Truthy(ev.data.msg.replyTo)
    ensures r.Handshake? <==> r != Ignore && !r.Settle? && role == Host && ev.data.msg.kind == HELLO
    ensures r.Invoke? <==> r != Ignore && !r.Settle? && !r.Handshake? && Truthy(ev.data.msg.id) && ev.data.msg.kind in responders
    ensures r.Publish? <==> r != Ignore && !r.Settle? && !r.Handshake? && !(Truthy(ev.data.msg.id) && ev.data.msg.kind in responders)
    ensures r == Ignore <==> !Admitted(channel, allowed, ev)
                             || (Truthy(ev.data.msg.replyTo) && !Correlated(channel, allowed, ev, pendingIds))
    ensures Admitted(channel, allowed, ev) && !Truthy(ev.data.msg.replyTo) ==> r != Ignore
    ensures r.Settle? <==> Correlated(channel, allowed, ev, pendingIds)
    ensures Correlated(channel, allowed, ev, pendingIds) ==> r == Settle(ev.data.msg.replyTo.s)
  {
    if !OriginAllowed(ev.origin, List(allowed)) then Ignore
    else if !IsEnvelope(ev.data) || ev.data.msg.channel != Str(channel) then Ignore
    else
      var m := ev.data.msg;
      if Truthy(m.replyTo) then
        (if m.replyTo.Str? && m.replyTo.s in pendingIds then Settle(m.replyTo.s) else Ignore)
      else if role == Host && m.kind == HELLO then Handshake
      else if Truthy(m.id) && m.kind in responders then Invoke
      else Publish
  }

  /**
   * A reply from an allowed origin on the bridge's channel, correlated with a pending call,
   * is taken as that call's reply whatever its type: the correlation is checked first.
   */
  lemma ReplyTakesPrecedence(role: Role, channel: string, allowed: seq<Origin>, ev: Event,
                                                pendingIds: set<string>, responders: set<string>, key: string)
    requires ev.origin in allowed && ev.data.Obj? && IsEnvelope(ev.data) && ev.data.msg.channel == Str(channel)
    requires ev.data.msg.replyTo == Str(key) && key != "" && key in pendingIds
    ensures RouteOf(role, channel, allowed, ev, pendingIds, responders) == Settle(key)
  {
    assert OriginAllowed(ev.origin, List(allowed));
  }

  /**
   * The payload of the reply to an RPC request: the responder's value, or
   * `{ error: true, message }` with the exception's message, "RPC error" when it has none.
   */
  function ReplyBody(outcome: RpcOutcome): (p: Payload)
    ensures outcome.Returned? ==> p == outcome.value
    ensures outcome.Threw? && outcome.message != "" ==> p == RpcError(outcome.message)
    ensures outcome.Threw? && outcome.message == "" ==> p == RpcError("RPC error")
  {
    match outcome
    case Returned(v) => v
    case Threw(message) => RpcError(Or(message, "RPC error"))
  }

  /* ---------------------------------------------------------------- fan-out */

  /**
   * What `broadcast` posts: `msg` to every registered client, in registration order, at the
   * given origin, else the client's, else `fallback` (the first allowed origin).
   */
  function BroadcastPosts(order: seq<string>, entries: map<string, Client>, msg: Message,
                          targetOrigin: Origin, fallback: Origin): (r: seq<Post>)
    requires forall k :: k in order ==> k in entries
    ensures |r| == |order|
  {
    if order == [] then []
    else
      var last := order[|order| - 1];
      BroadcastPosts(order[..|order| - 1], entries, msg, targetOrigin, fallback)
      + [Post(Window(entries[last].win), msg, Or(Or(targetOrigin, entries[last].origin), fallback))]
  }

  /** The `i`-th post goes to the `i`-th client's window. */
  lemma {:induction false} BroadcastPostsInOrder(order: seq<string>, entries: map<string, Client>, msg: Message,
                                                 targetOrigin: Origin, fallback: Origin)
    requires forall k :: k in order ==> k in entries
    ensures forall i :: 0 <= i < |order| ==>
              BroadcastPosts(order, entries, msg, targetOrigin, fallback)[i]
                == Post(Window(entries[order[i]].win), msg, Or(Or(targetOrigin, entries[order[i]].origin), fallback))
    decreases |order|
  {
    if order != [] {
      BroadcastPostsInOrder(order[..|order| - 1], entries, msg, targetOrigin, fallback);
    }
  }

  /** One more client in the loop of `broadcast` is one more post at the end. */
  lemma BroadcastPostsStep(order: seq<string>, entries: map<string, Client>, msg: Message,
                           targetOrigin: Origin, fallback: Origin, i: nat)
    requires forall k :: k in order ==> k in entries
    requires i < |order|
    ensures BroadcastPosts(order[..i + 1], entries, msg, targetOrigin, fallback)
            == BroadcastPosts(order[..i], entries, msg, targetOrigin, fallback)
               + [Post(Window(entries[order[i]].win), msg, Or(Or(targetOrigin, entries[order[i]].origin), fallback))]
  {
    assert order[..i + 1][..i] == order[..i];
  }

  /* ---------------------------------------------------------------- pending calls */

  /** Every armed timer is the one-shot timeout of a pending call, and that call's own. */
  predicate TimersOwned(timers: Timers, pending: map<string, TimerId>) {
    && (forall t :: t in timers ==> timers[t].task.RpcExpiry?)
    && RpcOwned(timers, pending)
  }

  /**
   * The discipline of this build's timers: handles are never reused, each pending call has
   * its timeout armed, every armed timer belongs to a pending call, and every pending id was
   * handed out by `uid()`.
   */
  predicate CallsSound(timers: Timers, next: TimerId, uids: nat, pending: map<string, TimerId>) {
    && HandlesFresh(timers, next)
    && ExpiriesArmed(timers, pending)
    && TimersOwned(timers, pending)
    && (forall k :: k in pending ==> k in Issued(uids))
  }

  /** The armed timers are exactly the timeouts of the pending calls. */
  lemma TimersAreTimeouts(timers: Timers, next: TimerId, uids: nat, pending: map<string, TimerId>)
    requires CallsSound(timers, next, uids, pending)
    ensures timers.Keys == pending.Values
    ensures timers - pending.Values == map[]
  {
    forall t | t in timers ensures t in pending.Values {
      assert pending[timers[t].task.reqId] == t;
    }
  }

  /** A new call under the next id, awaiting a timeout armed under the next handle, keeps the discipline. */
  lemma AwaitKeepsSound(timers: Timers, next: TimerId, uids: nat, pending: map<string, TimerId>, reason: string, delay: real)
    requires CallsSound(timers, next, uids, pending)
    ensures Uid(uids) !in pending
    ensures CallsSound(timers[next := Timer(RpcExpiry(Uid(uids), reason), delay, false)], next + 1, uids + 1,
                       pending[Uid(uids) := next])
  {
    UidFresh(uids);
    var id := Uid(uids);
    var t' := timers[next := Timer(RpcExpiry(id, reason), delay, false)];
    var p' := pending[id := next];
    forall t | t in t' ensures t'[t].task.RpcExpiry? && !t'[t].repeating && t'[t].task.reqId in p' && p'[t'[t].task.reqId] == t {
      if t != next {
        assert timers[t].task.reqId != id;
      }
    }
  }

  /** A call that ends together with its own timeout keeps the discipline. */
  lemma EndCallKeepsSound(timers: Timers, next: TimerId, uids: nat, pending: map<string, TimerId>, key: string)
    requires CallsSound(timers, next, uids, pending) && key in pending
    ensures CallsSound(timers - {pending[key]}, next, uids, pending - {key})
  {
    var tid := pending[key];
    var p' := pending - {key};
    forall k | k in p' ensures p'[k] != tid {
      assert timers[pending[k]].task.reqId == k;
    }
  }

  /** Handing out an id that no call uses keeps the discipline. */
  lemma SkipUidKeepsSound(timers: Timers, next: TimerId, uids: nat, pending: map<string, TimerId>)
    requires CallsSound(timers, next, uids, pending)
    ensures CallsSound(timers, next, uids + 1, pending)
  {
    UidFresh(uids);
  }
}
