/**
 * The instance returned by `createBridge` in the earlier build of the engine
 * (`packages/mfe-bridge/dist/index.js`): the closure's private variables become the fields of
 * `Bridge`, its inner functions become methods.  As in the current engine, the browser is
 * represented by fields the methods append to or update: the timer table (`timers`, with the
 * next free handle), the counter behind `uid()`, the posted messages (`outbox`), the
 * invocations of pub/sub handlers (`delivered`) and the settled promises (`settled`).  Time
 * is passed in as `now`.
 */
module DistBridge {
  import opened Wire
  import opened Text
  import opened Ordered
  import opened Scheduler
  import opened DistRules

  /** An RPC responder registered with `handle`: the payload and the sender's origin in, a value or an exception out. */
  type Responder = (Payload, Origin) -> RpcOutcome

  class Bridge {
    const role: Role
    const channel: string
    const allowedOrigins: seq<Origin>
    const clientId: string
    const autoHello: bool

    var started: bool
    var eventHandlers: map<string, seq<HandlerId>>
    var rpcHandlers: map<string, Responder>
    /** Pending RPC calls: correlation id to the handle of its timeout. */
    var pending: map<string, TimerId>
    var clients: Clients
    var winToClient: map<WindowId, string>

    var timers: Timers
    var nextTimer: TimerId
    var nextUid: nat
    var outbox: seq<Post>
    var delivered: seq<Delivery>
    var settled: seq<Settlement>

    /** The engine's invariant: the construction checks hold and the parts below. */
    ghost predicate Valid()
      reads this`clients, this`eventHandlers, this`timers, this`nextTimer, this`nextUid, this`pending
    {
      |allowedOrigins| > 0 && channel != "" && clients.Valid() && HandlersValid() && Sound()
    }

    /** Every handler set holds each handler once. */
    ghost predicate HandlersValid()
      reads this`eventHandlers
    {
      forall kind :: kind in eventHandlers ==> Distinct(eventHandlers[kind])
    }

    /** The armed timers are exactly the timeouts of the pending calls. */
    ghost predicate Sound()
      reads this`timers, this`nextTimer, this`nextUid, this`pending
    {
      CallsSound(timers, nextTimer, nextUid, pending)
    }

    /** The state of a bridge that has just been created. */
    ghost predicate Pristine()
      reads this
    {
      && !started && eventHandlers == map[] && rpcHandlers == map[] && pending == map[]
      && clients == EmptyMap() && winToClient == map[]
      && timers == map[] && outbox == [] && delivered == [] && settled == []
    }

    /** The engine state after the checks of `createBridge`; nothing is listening yet. */
    constructor (c: Config)
      requires c.Valid()
      ensures Valid() && Pristine()
      ensures role == c.role && channel == c.channel && allowedOrigins == c.allowedOrigins
      ensures clientId == c.clientId && autoHello == c.autoHello
    {
      role := c.role;
      channel := c.channel;
      allowedOrigins := c.allowedOrigins;
      clientId := c.clientId;
      autoHello := c.autoHello;
      started := false;
      eventHandlers := map[];
      rpcHandlers := map[];
      pending := map[];
      clients := EmptyMap();
      winToClient := map[];
      timers := map[];
      nextTimer := 1;
      nextUid := 0;
      outbox := [];
      delivered := [];
      settled := [];
    }

    /** The route `onMessage` takes for `ev` in the current state. */
    function Classify(ev: Event): Route
      reads this`pending, this`rpcHandlers
    {
      RouteOf(role, channel, allowedOrigins, ev, pending.Keys, rpcHandlers.Keys)
    }

    /** The envelope this bridge stamps on an outgoing message. */
    function Envelope(kind: string, payload: Payload, extra: Extra, now: nat): Message {
      MakeEnvelope(Str(channel), kind, payload, extra, now)
    }

    /* ------------------------------------------------------------ pub/sub */

    /** The handlers registered for `kind`, oldest first. */
    function HandlersOf(kind: string): seq<HandlerId>
      reads this`eventHandlers
    {
      if kind in eventHandlers then eventHandlers[kind] else []
    }

    /** `on`: the handler joins the set for `kind`, which is created on first use. */
    method On(kind: string, h: HandlerId)
      requires Valid()
      modifies this`eventHandlers
      ensures Valid()
      ensures eventHandlers == old(eventHandlers)[kind := Add(old(HandlersOf(kind)), h)]
    {
      eventHandlers := eventHandlers[kind := Add(HandlersOf(kind), h)];
    }

    /**
     * `off`, which is also what the function returned by `on` calls: the handler leaves the set
     * for `kind`, if that set exists; the set itself stays.
     */
    method Off(kind: string, h: HandlerId)
      requires Valid()
      modifies this`eventHandlers
      ensures Valid()
      ensures kind in old(eventHandlers) ==> eventHandlers == old(eventHandlers)[kind := Remove(old(eventHandlers)[kind], h)]
      ensures kind !in old(eventHandlers) ==> eventHandlers == old(eventHandlers)
    {
      if kind in eventHandlers {
        eventHandlers := eventHandlers[kind := Remove(eventHandlers[kind], h)];
      }
    }

    /**
     * `emit`: a child posts to its parent, at the given origin, else the first allowed one, else
     * `*`; a host broadcasts to its clients.
     */
    method Emit(kind: string, payload: Payload, targetOrigin: Origin, now: nat)
      requires Valid()
      modifies this`outbox
      ensures Valid()
      ensures role == Child ==>
                outbox == old(outbox) + [Post(Parent, Envelope(kind, payload, NoExtra, now),
                                              Or(Or(targetOrigin, allowedOrigins[0]), "*"))]
      ensures role == Host ==>
                outbox == old(outbox) + BroadcastPosts(clients.order, clients.entries, Envelope(kind, payload, NoExtra, now),
                                                       targetOrigin, allowedOrigins[0])
    {
      if role == Child {
        outbox := outbox + [Post(Parent, Envelope(kind, payload, NoExtra, now), Or(Or(targetOrigin, allowedOrigins[0]), "*"))];
        return;
      }
      var _ := Broadcast(kind, payload, targetOrigin, now);
    }

    /* ------------------------------------------------------------ host: clients */

    /**
     * `register`: host only, and the frame must have a window.  The client is recorded with
     * its window and its origin (the given one, else the first allowed one), keeping its place
     * if the id is known, and its window is mapped to it.
     */
    method Register(id: string, contentWindow: Option<WindowId>, origin: Origin) returns (o: Outcome)
      requires Valid()
      modifies this`clients, this`winToClient
      ensures Valid()
      ensures role != Host ==> o == Thrown("register() is host-only") && unchanged(this)
      ensures role == Host && contentWindow.None? ==>
                o == Thrown("iframe " + id + " without contentWindow") && unchanged(this)
      ensures role == Host && contentWindow.Some? ==>
                && o == Done
                && clients == old(clients).Put(id, Client(contentWindow.value, Or(origin, allowedOrigins[0])))
                && winToClient == old(winToClient)[contentWindow.value := id]
    {
      if role != Host {
        return Thrown("register() is host-only");
      }
      if contentWindow.None? {
        return Thrown("iframe " + id + " without contentWindow");
      }
      var w := contentWindow.value;
      clients := clients.Put(id, Client(w, Or(origin, allowedOrigins[0])));
      winToClient := winToClient[w := id];
      o := Done;
    }

    /** `unregister`: a host forgets the client; on a child it does nothing. */
    method Unregister(id: string)
      requires Valid()
      modifies this`clients
      ensures Valid()
      ensures role != Host ==> clients == old(clients)
      ensures role == Host ==> clients == old(clients).Delete(id)
    {
      if role != Host {
        return;
      }
      clients := clients.Delete(id);
    }

    /** `send`: host only, to a registered client, at the given origin, else the client's, else the first allowed one. */
    method Send(id: string, kind: string, payload: Payload, targetOrigin: Origin, now: nat) returns (o: Outcome)
      requires Valid()
      modifies this`outbox
      ensures Valid()
      ensures role != Host ==> o == Thrown("send() is host-only") && outbox == old(outbox)
      ensures role == Host && id !in clients.entries ==>
                o == Thrown("client not registered: " + id) && outbox == old(outbox)
      ensures role == Host && id in clients.entries ==>
                o == Done &&
                outbox == old(outbox) + [Post(Window(clients.entries[id].win), Envelope(kind, payload, NoExtra, now),
                                              Or(Or(targetOrigin, clients.entries[id].origin), allowedOrigins[0]))]
    {
      if role != Host {
        return Thrown("send() is host-only");
      }
      if id !in clients.entries {
        return Thrown("client not registered: " + id);
      }
      var c := clients.entries[id];
      outbox := outbox + [Post(Window(c.win), Envelope(kind, payload, NoExtra, now), Or(Or(targetOrigin, c.origin), allowedOrigins[0]))];
      o := Done;
    }

    /** `broadcast`: host only; the same message to every registered client, in registration order. */
    method Broadcast(kind: string, payload: Payload, targetOrigin: Origin, now: nat) returns (o: Outcome)
      requires Valid()
      modifies this`outbox
      ensures Valid()
      ensures role != Host ==> o == Thrown("broadcast() is host-only") && outbox == old(outbox)
      ensures role == Host ==>
                o == Done &&
                outbox == old(outbox) + BroadcastPosts(clients.order, clients.entries, Envelope(kind, payload, NoExtra, now),
                                                       targetOrigin, allowedOrigins[0])
    {
      if role != Host {
        return Thrown("broadcast() is host-only");
      }
      var env := Envelope(kind, payload, NoExtra, now);
      var order, entries, fallback := clients.order, clients.entries, allowedOrigins[0];
      var i := 0;
      while i < |order|
        modifies this`outbox
        invariant 0 <= i <= |order|
        invariant outbox == old(outbox) + BroadcastPosts(order[..i], entries, env, targetOrigin, fallback)
      {
        BroadcastPostsStep(order, entries, env, targetOrigin, fallback, i);
        var c := entries[order[i]];
        outbox := outbox + [Post(Window(c.win), env, Or(Or(targetOrigin, c.origin), fallback))];
        i := i + 1;
      }
      assert order[..i] == order;
      o := Done;
    }

    /* ------------------------------------------------------------ RPC */

    /** `handle`: `fn` answers requests of type `kind`, replacing any earlier responder. */
    method Handle(kind: string, fn: Responder)
      requires Valid()
      modifies this`rpcHandlers
      ensures Valid()
      ensures rpcHandlers == old(rpcHandlers)[kind := fn]
    {
      rpcHandlers := rpcHandlers[kind := fn];
    }

    /** The function returned by `handle`: removes whatever responder `kind` has by then. */
    method Unhandle(kind: string)
      requires Valid()
      modifies this`rpcHandlers
      ensures Valid()
      ensures rpcHandlers == old(rpcHandlers) - {kind}
    {
      rpcHandlers := rpcHandlers - {kind};
    }

    /**
     * The common tail of `request` and `hostRequest`: a fresh correlation id, the request
     * posted, and a pending entry whose timeout rejects it with `reason`.
     */
    method Call(to: Target, targetOrigin: Origin, kind: string, payload: Payload, timeoutMs: int, reason: string, now: nat)
      returns (call: Call)
      requires Valid()
      modifies this`nextUid, this`outbox, this`timers, this`nextTimer, this`pending
      ensures Valid()
      ensures call == Awaiting(Uid(old(nextUid))) && nextUid == old(nextUid) + 1
      ensures call.id !in old(pending)
      ensures outbox == old(outbox) + [Post(to, Envelope(kind, payload, WithId(call.id), now), targetOrigin)]
      ensures timers == old(timers)[old(nextTimer) := Timer(RpcExpiry(call.id, reason), timeoutMs as real, false)]
      ensures nextTimer == old(nextTimer) + 1
      ensures pending == old(pending)[call.id := old(nextTimer)]
    {
      var id := Uid(nextUid);
      AwaitKeepsSound(timers, nextTimer, nextUid, pending, reason, timeoutMs as real);
      outbox := outbox + [Post(to, Envelope(kind, payload, WithId(id), now), targetOrigin)];
      timers := timers[nextTimer := Timer(RpcExpiry(id, reason), timeoutMs as real, false)];
      pending := pending[id := nextTimer];
      nextTimer := nextTimer + 1;
      nextUid := nextUid + 1;
      call := Awaiting(id);
    }

    /**
     * `request` (child): posted to the parent at the given origin, else the first allowed one,
     * else `*`; rejected with "RPC timeout: <type>" when no reply comes in time.  On a host the
     * promise is rejected at once.
     */
    method Request(kind: string, payload: Payload, opts: RequestOptions, now: nat) returns (call: Call)
      requires Valid()
      modifies this`nextUid, this`outbox, this`timers, this`nextTimer, this`pending
      ensures Valid()
      ensures role == Host ==> call == RejectedNow("Use hostRequest(clientId, type, payload, options) on host") && unchanged(this)
      ensures role == Child ==>
                && call == Awaiting(Uid(old(nextUid))) && call.id !in old(pending) && nextUid == old(nextUid) + 1
                && outbox == old(outbox) + [Post(Parent, Envelope(kind, payload, WithId(call.id), now),
                                                 Or(Or(opts.targetOrigin, allowedOrigins[0]), "*"))]
                && timers == old(timers)[old(nextTimer) := Timer(RpcExpiry(call.id, RequestExpiry(kind)),
                                                                 RequestTimeout(opts) as real, false)]
                && nextTimer == old(nextTimer) + 1
                && pending == old(pending)[call.id := old(nextTimer)]
    {
      if role == Host {
        return RejectedNow("Use hostRequest(clientId, type, payload, options) on host");
      }
      call := Call(Parent, Or(Or(opts.targetOrigin, allowedOrigins[0]), "*"), kind, payload,
                   RequestTimeout(opts), RequestExpiry(kind), now);
    }

    /**
     * `hostRequest`: host only, to a registered client, at the given origin, else the
     * client's, else the first allowed one; rejected with "RPC timeout: <type> -> <id>" when no
     * reply comes in time.  The errors reject the promise before anything is sent.
     */
    method HostRequest(id: string, kind: string, payload: Payload, opts: RequestOptions, now: nat) returns (call: Call)
      requires Valid()
      modifies this`nextUid, this`outbox, this`timers, this`nextTimer, this`pending
      ensures Valid()
      ensures role != Host ==> call == RejectedNow("hostRequest() is host-only") && unchanged(this)
      ensures role == Host && id !in clients.entries ==>
                call == RejectedNow("client not registered: " + id) && unchanged(this)
      ensures role == Host && id in clients.entries ==>
                && call == Awaiting(Uid(old(nextUid))) && call.id !in old(pending) && nextUid == old(nextUid) + 1
                && outbox == old(outbox) + [Post(Window(clients.entries[id].win), Envelope(kind, payload, WithId(call.id), now),
                                                 Or(Or(opts.targetOrigin, clients.entries[id].origin), allowedOrigins[0]))]
                && timers == old(timers)[old(nextTimer) := Timer(RpcExpiry(call.id, HostRequestExpiry(kind, id)),
                                                                 RequestTimeout(opts) as real, false)]
                && nextTimer == old(nextTimer) + 1
                && pending == old(pending)[call.id := old(nextTimer)]
    {
      if role != Host {
        return RejectedNow("hostRequest() is host-only");
      }
      if id !in clients.entries {
        return RejectedNow("client not registered: " + id);
      }
      var c := clients.entries[id];
      call := Call(Window(c.win), Or(Or(opts.targetOrigin, c.origin), allowedOrigins[0]), kind, payload,
                   RequestTimeout(opts), HostRequestExpiry(kind, id), now);
    }

    /* ------------------------------------------------------------ inbound messages */

    /**
     * `onMessage`, along the route `Classify` picks: a reply settles its pending call and
     * clears its timeout; a HELLO binds the sender's window and answers READY with the channel;
     * a request with a responder is answered with the responder's value or its error, when
     * there is a window to answer to; anything else goes to the handlers of its type.
     */
    method OnMessage(ev: Event, now: nat) returns (route: Route)
      requires Valid()
      modifies this`pending, this`timers, this`settled, this`winToClient, this`outbox, this`delivered
      ensures Valid()
      ensures route == old(Classify(ev))
      ensures Routed(ev, now, route)
    {
      route := Classify(ev);
      match route {
        case Ignore =>
        case Settle(key) => SettleReply(key, ev.data.msg.payload);
        case Handshake => Greet(ev, now);
        case Invoke => Answer(ev, now);
        case Publish => Publish(ev);
      }
    }

    /** What handling `ev` along `route` does to the bridge: nothing for a dropped message. */
    twostate predicate Routed(ev: Event, now: nat, route: Route)
      reads this
    {
      match route
      case Ignore => unchanged(this)
      case Settle(key) => ev.data.Obj? && ReplySettled(key, ev.data.msg.payload)
      case Handshake => ev.data.Obj? && HelloHandled(ev, now)
      case Invoke => ev.data.Obj? && RequestAnswered(ev, now)
      case Publish => ev.data.Obj? && EventPublished(ev)
    }

    /** A reply settles its pending call with its payload and clears that call's timeout, and nothing else. */
    twostate predicate ReplySettled(key: string, payload: Payload)
      reads this`pending, this`timers, this`settled, this`clients, this`winToClient, this`outbox, this`delivered
    {
      && key in old(pending)
      && pending == old(pending) - {key}
      && timers == old(timers) - {old(pending)[key]}
      && settled == old(settled) + [Resolved(key, payload)]
      && unchanged(this`clients, this`winToClient, this`outbox, this`delivered)
    }

    method SettleReply(key: string, payload: Payload)
      requires Valid() && key in pending
      modifies this`pending, this`timers, this`settled
      ensures Valid()
      ensures ReplySettled(key, payload)
    {
      EndCallKeepsSound(timers, nextTimer, nextUid, pending, key);
      timers := timers - {pending[key]};
      pending := pending - {key};
      settled := settled + [Resolved(key, payload)];
    }

    /**
     * What a HELLO does on a host: with a client id and a source window, the window is bound to
     * the id; with a source window, READY `{ ok: true, channel }` goes back to it at the
     * sender's origin.  Clients and pending calls are untouched.
     */
    twostate predicate HelloHandled(ev: Event, now: nat)
      requires ev.data.Obj?
      reads this`winToClient, this`outbox, this`pending, this`timers, this`clients, this`delivered, this`settled
    {
      var id := ClientIdOf(ev.data.msg.payload);
      && winToClient == (if id != "" && ev.source.Some? then old(winToClient)[ev.source.value := id] else old(winToClient))
      && outbox == old(outbox) + (if ev.source.Some?
                                  then [Post(Window(ev.source.value), Envelope(READY, ReadyAck(Some(Str(channel))), NoExtra, now),
                                             ev.origin)]
                                  else [])
      && unchanged(this`pending, this`timers, this`clients, this`delivered, this`settled)
    }

    method Greet(ev: Event, now: nat)
      requires Valid() && ev.data.Obj?
      modifies this`winToClient, this`outbox
      ensures Valid()
      ensures HelloHandled(ev, now)
    {
      if ev.source.None? {
        return;
      }
      var id := ClientIdOf(ev.data.msg.payload);
      if id != "" {
        winToClient := winToClient[ev.source.value := id];
      }
      outbox := outbox + [Post(Window(ev.source.value), Envelope(READY, ReadyAck(Some(Str(channel))), NoExtra, now), ev.origin)];
    }

    /**
     * A request is answered, at the sender's origin, with `<type>:reply` carrying the
     * responder's value or `{ error: true, message }`, correlated by the request's `id`; the
     * responder is handed the payload and the sender's origin.  Without a source window the
     * answer cannot be posted.
     */
    twostate predicate RequestAnswered(ev: Event, now: nat)
      requires ev.data.Obj?
      reads this`outbox, this`pending, this`timers, this`clients, this`winToClient, this`delivered, this`settled
    {
      var m := ev.data.msg;
      && m.kind in old(rpcHandlers)
      && outbox == old(outbox) + (if ev.source.None? then [] else
           [Post(Window(ev.source.value),
                 Envelope(m.kind + ":reply", ReplyBody(old(rpcHandlers)[m.kind](m.payload, ev.origin)), WithReplyTo(m.id), now),
                 ev.origin)])
      && unchanged(this`pending, this`timers, this`clients, this`winToClient, this`delivered, this`settled)
    }

    method Answer(ev: Event, now: nat)
      requires Valid() && ev.data.Obj? && ev.data.msg.kind in rpcHandlers
      modifies this`outbox
      ensures Valid()
      ensures RequestAnswered(ev, now)
    {
      var m := ev.data.msg;
      var outcome := rpcHandlers[m.kind](m.payload, ev.origin);
      if ev.source.Some? {
        outbox := outbox + [Post(Window(ev.source.value),
                                 Envelope(m.kind + ":reply", ReplyBody(outcome), WithReplyTo(m.id), now),
                                 ev.origin)];
      }
    }

    /** Every handler of the message's type gets its payload and the sender's origin, in order. */
    twostate predicate EventPublished(ev: Event)
      requires ev.data.Obj?
      reads this`delivered, this`eventHandlers, this`pending, this`timers, this`clients, this`winToClient,
            this`outbox, this`settled
    {
      && delivered == old(delivered) + Deliveries(HandlersOf(ev.data.msg.kind), ev.data.msg.payload, Some(ev.origin))
      && unchanged(this`pending, this`timers, this`clients, this`winToClient, this`outbox, this`settled)
    }

    method Publish(ev: Event)
      requires Valid() && ev.data.Obj?
      modifies this`delivered
      ensures Valid()
      ensures EventPublished(ev)
    {
      delivered := delivered + Deliveries(HandlersOf(ev.data.msg.kind), ev.data.msg.payload, Some(ev.origin));
    }

    /** The `message` listener: `onMessage` runs only while the bridge is started. */
    method Receive(ev: Event, now: nat) returns (route: Route)
      requires Valid()
      modifies this`pending, this`timers, this`settled, this`winToClient, this`outbox, this`delivered
      ensures Valid()
      ensures started == old(started)
      ensures !old(started) ==> route == Ignore && unchanged(this)
      ensures old(started) ==> route == old(Classify(ev)) && Routed(ev, now, route)
    {
      if !started {
        return Ignore;
      }
      route := OnMessage(ev, now);
    }

    /* ------------------------------------------------------------ timers */

    /**
     * The environment runs the armed timer `tid`.  In this build every armed timer is the
     * timeout of a call that is still pending: the call is forgotten and its promise rejected,
     * so a call is settled at most once.
     */
    method Fire(tid: TimerId) returns (task: Task)
      requires Valid() && tid in timers
      modifies this`timers, this`pending, this`settled
      ensures Valid()
      ensures task == old(timers[tid].task) && task.RpcExpiry?
      ensures task.reqId in old(pending) && old(pending[task.reqId]) == tid
      ensures timers == old(timers) - {tid}
      ensures pending == old(pending) - {task.reqId}
      ensures settled == old(settled) + [Rejected(task.reqId, task.reason)]
    {
      task := timers[tid].task;
      EndCallKeepsSound(timers, nextTimer, nextUid, pending, task.reqId);
      timers := timers - {tid};
      pending := pending - {task.reqId};
      settled := settled + [Rejected(task.reqId, task.reason)];
    }

    /* ------------------------------------------------------------ lifecycle */

    /**
     * `start`: once only.  A child with `autoHello` says HELLO, with its configured id or a
     * fresh one, to the first allowed origin, else `*`.
     */
    method Start(now: nat)
      requires Valid()
      modifies this`started, this`nextUid, this`outbox
      ensures Valid()
      ensures old(started) ==> unchanged(this)
      ensures !old(started) ==> started
      ensures !old(started) && role == Child && autoHello ==>
                && nextUid == (if clientId == "" then old(nextUid) + 1 else old(nextUid))
                && outbox == old(outbox) + [Post(Parent, Envelope(HELLO, ClientRef(Or(clientId, Uid(old(nextUid)))), NoExtra, now),
                                                 Or(allowedOrigins[0], "*"))]
      ensures !old(started) && !(role == Child && autoHello) ==> unchanged(this`nextUid, this`outbox)
    {
      if started {
        return;
      }
      started := true;
      if role == Child && autoHello {
        var myId := clientId;
        if myId == "" {
          SkipUidKeepsSound(timers, nextTimer, nextUid, pending);
          myId := Uid(nextUid);
          nextUid := nextUid + 1;
        }
        outbox := outbox + [Post(Parent, Envelope(HELLO, ClientRef(myId), NoExtra, now), Or(allowedOrigins[0], "*"))];
      }
    }

    /**
     * `destroy`: only while started.  Clears the timeout of every pending call, empties the
     * pending calls, the handler sets, the responders and the clients, and stops listening.
     * No timer is left armed; the window bindings stay, and pending calls are never settled.
     */
    method Destroy()
      requires Valid()
      modifies this`started, this`timers, this`pending, this`eventHandlers, this`rpcHandlers, this`clients
      ensures Valid()
      ensures !old(started) ==> unchanged(this)
      ensures old(started) ==>
                && !started
                && timers == old(timers) - old(pending).Values
                && timers == map[]
                && pending == map[] && eventHandlers == map[] && rpcHandlers == map[] && clients == EmptyMap()
    {
      if !started {
        return;
      }
      TimersAreTimeouts(timers, nextTimer, nextUid, pending);
      timers := ClearTimeouts(timers, pending);
      pending := map[];
      eventHandlers := map[];
      rpcHandlers := map[];
      clients := EmptyMap();
      started := false;
    }
  }

  /** `createBridge`: the option checks, then a bridge in its initial state. */
  method CreateBridge(o: Options) returns (r: Result<Bridge>)
    ensures r.Ok? <==> CheckOptions(o).Ok?
    ensures r.Err? ==> r.message == CheckOptions(o).message
    ensures r.Ok? ==>
              && fresh(r.value) && r.value.Valid() && r.value.Pristine()
              && var c := CheckOptions(o).value;
              && r.value.role == c.role && r.value.channel == c.channel && r.value.allowedOrigins == c.allowedOrigins
              && r.value.clientId == c.clientId && r.value.autoHello == c.autoHello
  {
    var checked := CheckOptions(o);
    if checked.Err? {
      return Err(checked.message);
    }
    var b := new Bridge(checked.value);
    r := Ok(b);
  }
}
