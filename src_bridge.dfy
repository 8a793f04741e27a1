/**
 * The instance returned by `createBridge` in the current engine
 * (`packages/mfe-bridge/src/index.js`): the closure's private variables become the fields of
 * `Bridge`, its inner functions become methods.  The browser is represented by fields the
 * methods append to or update: the timer table (`timers`, with the next free handle), the
 * counter behind `uid()`, the posted messages (`outbox`), the iframe navigations (`reloads`),
 * the invocations of pub/sub handlers (`delivered`) and of status handlers (`notices`), and the
 * settled promises (`settled`).  Time is passed in as `now`.
 */
module SrcBridge {
  import opened Wire
  import opened Text
  import opened Ordered
  import opened Scheduler
  import opened SrcRules

  /** An RPC responder registered with `handle`: the payload in, a value or an exception out. */
  type Responder = Payload -> RpcOutcome

  class Bridge {
    const role: Role
    const channel: Prim
    const allowedOrigins: seq<Origin>
    const clientId: string
    const autoHello: bool
    const handshakeTimeoutMs: int
    const enableHeartbeat: bool
    const heartbeatIntervalMs: int
    const heartbeatTimeoutMs: int

    var started: bool
    var eventHandlers: map<string, seq<HandlerId>>
    var rpcHandlers: map<string, Responder>
    /** Pending RPC calls: correlation id to the handle of its timeout. */
    var pending: map<string, TimerId>
    var clients: Clients
    var winToClient: map<WindowId, string>
    var clientStatus: Statuses
    var statusHandlers: seq<HandlerId>
    var hostHeartbeatTimer: Option<TimerId>
    var childHeartbeatTimer: Option<TimerId>

    var timers: Timers
    var nextTimer: TimerId
    var nextUid: nat
    var outbox: seq<Post>
    var reloads: seq<Reload>
    var delivered: seq<Delivery>
    var notices: seq<Notice>
    var settled: seq<Settlement>

    /** The engine's invariant: the construction checks hold and the parts below. */
    ghost predicate Valid()
      reads this`clients, this`clientStatus, this`statusHandlers, this`eventHandlers, this`timers, this`nextTimer,
            this`nextUid, this`pending, this`hostHeartbeatTimer, this`childHeartbeatTimer
    {
      |allowedOrigins| > 0 && Truthy(channel) && TablesValid() && HandlersValid() && Sound()
    }

    /** Both ordered tables are well formed. */
    ghost predicate TablesValid()
      reads this`clients, this`clientStatus
    {
      clients.Valid() && clientStatus.Valid()
    }

    /** Every handler set holds each handler once. */
    ghost predicate HandlersValid()
      reads this`statusHandlers, this`eventHandlers
    {
      Distinct(statusHandlers) && forall kind :: kind in eventHandlers ==> Distinct(eventHandlers[kind])
    }

    /** The discipline of the timer handles the engine keeps. */
    ghost predicate Sound()
      reads this`timers, this`nextTimer, this`nextUid, this`pending, this`clients, this`hostHeartbeatTimer,
            this`childHeartbeatTimer
    {
      HandlesSound(timers, nextTimer, nextUid, pending, clients.entries, hostHeartbeatTimer, childHeartbeatTimer)
    }

    /** The state of a bridge that has just been created. */
    ghost predicate Pristine()
      reads this
    {
      && !started && eventHandlers == map[] && rpcHandlers == map[] && pending == map[]
      && clients == EmptyMap() && winToClient == map[] && clientStatus == EmptyMap()
      && statusHandlers == [] && hostHeartbeatTimer.None? && childHeartbeatTimer.None?
      && timers == map[] && outbox == [] && reloads == [] && delivered == [] && notices == [] && settled == []
    }

    /** The engine state after the checks of `createBridge`; nothing is listening yet. */
    constructor (c: Config)
      requires c.Valid()
      ensures Valid() && Pristine()
      ensures role == c.role && channel == c.channel && allowedOrigins == c.allowedOrigins
      ensures clientId == c.clientId && autoHello == c.autoHello && handshakeTimeoutMs == c.handshakeTimeoutMs
      ensures enableHeartbeat == c.enableHeartbeat && heartbeatIntervalMs == c.heartbeatIntervalMs
      ensures heartbeatTimeoutMs == c.heartbeatTimeoutMs
    {
      role := c.role;
      channel := c.channel;
      allowedOrigins := c.allowedOrigins;
      clientId := c.clientId;
      autoHello := c.autoHello;
      handshakeTimeoutMs := c.handshakeTimeoutMs;
      enableHeartbeat := c.enableHeartbeat;
      heartbeatIntervalMs := c.heartbeatIntervalMs;
      heartbeatTimeoutMs := c.heartbeatTimeoutMs;
      started := false;
      eventHandlers := map[];
      rpcHandlers := map[];
      pending := map[];
      clients := EmptyMap();
      winToClient := map[];
      clientStatus := EmptyMap();
      statusHandlers := [];
      hostHeartbeatTimer := None;
      childHeartbeatTimer := None;
      timers := map[];
      nextTimer := 1;
      nextUid := 0;
      outbox := [];
      reloads := [];
      delivered := [];
      notices := [];
      settled := [];
    }

    /* ------------------------------------------------------------ internals */

    /**
     * `setTimeout`/`setInterval` for a task other than an RPC timeout (`Call` arms those together
     * with their pending call): `task` is armed under a handle never used before.
     */
    method Arm(task: Task, delay: real, repeating: bool) returns (tid: TimerId)
      requires Sound() && !task.RpcExpiry?
      modifies this`timers, this`nextTimer
      ensures Sound()
      ensures tid == old(nextTimer) && nextTimer == tid + 1
      ensures timers == old(timers)[tid := Timer(task, delay, repeating)]
    {
      ArmKeepsSound(timers, nextTimer, nextUid, pending, clients.entries, hostHeartbeatTimer, childHeartbeatTimer,
                    Timer(task, delay, repeating));
      tid := nextTimer;
      timers := timers[tid := Timer(task, delay, repeating)];
      nextTimer := nextTimer + 1;
    }

    /** `setStatus`: the record is stored (keeping the client's place) and handed to every status handler. */
    method SetStatus(id: string, status: Status, reason: Reason, now: nat)
      requires Valid()
      modifies this`clientStatus, this`notices
      ensures Valid()
      ensures clientStatus == old(clientStatus).Put(id, StatusRecord(status, now, reason))
      ensures notices == old(notices) + [Notice(statusHandlers, id, StatusRecord(status, now, reason))]
    {
      var record := StatusRecord(status, now, reason);
      clientStatus := clientStatus.Put(id, record);
      notices := notices + [Notice(statusHandlers, id, record)];
    }

    /** The route `onMessage` takes for `ev` in the current state. */
    function Classify(ev: Event): Route
      reads this
    {
      RouteOf(role, channel, allowedOrigins, ev, pending.Keys, rpcHandlers.Keys)
    }

    /* ------------------------------------------------------------ status */

    /** `onStatus`: the handler joins the set of status handlers. */
    method OnStatus(h: HandlerId)
      requires Valid()
      modifies this`statusHandlers
      ensures Valid()
      ensures statusHandlers == Add(old(statusHandlers), h)
    {
      statusHandlers := Add(statusHandlers, h);
    }

    /** The function returned by `onStatus`: the handler leaves the set. */
    method OffStatus(h: HandlerId)
      requires Valid()
      modifies this`statusHandlers
      ensures Valid()
      ensures statusHandlers == Remove(old(statusHandlers), h)
    {
      statusHandlers := Remove(statusHandlers, h);
    }

    /** `getStatus`: the client's current record, if it has one. */
    function GetStatus(id: string): (r: Option<StatusRecord>)
      reads this
      ensures r.Some? <==> id in clientStatus.entries
      ensures r.Some? ==> r.value == clientStatus.entries[id]
    {
      if id in clientStatus.entries then Some(clientStatus.entries[id]) else None
    }

    /* ------------------------------------------------------------ pub/sub */

    /** The handlers registered for `kind`, oldest first. */
    function HandlersOf(kind: string): seq<HandlerId>
      reads this`eventHandlers
    {
      if kind in eventHandlers then eventHandlers[kind] else []
    }

    /** `on`: the handler joins the set for `kind`, which is created on first use. */
    method On(kind: string, h: HandlerId)
      requires Valid()
      modifies this`eventHandlers
      ensures Valid()
      ensures eventHandlers == old(eventHandlers)[kind := Add(old(HandlersOf(kind)), h)]
    {
      eventHandlers := eventHandlers[kind := Add(HandlersOf(kind), h)];
    }

    /** `off`: the handler leaves the set for `kind`, if that set exists; the set itself stays. */
    method Off(kind: string, h: HandlerId)
      requires Valid()
      modifies this`eventHandlers
      ensures Valid()
      ensures kind in old(eventHandlers) ==> eventHandlers == old(eventHandlers)[kind := Remove(old(eventHandlers)[kind], h)]
      ensures kind !in old(eventHandlers) ==> eventHandlers == old(eventHandlers)
    {
      if kind in eventHandlers {
        eventHandlers := eventHandlers[kind := Remove(eventHandlers[kind], h)];
      }
    }

    /**
     * The function returned by `on`: like `off`, except that it reads the set without checking
     * it exists, so after `destroy` has cleared the sets it throws a `TypeError`.
     */
    method OffOnce(kind: string, h: HandlerId) returns (o: Outcome)
      requires Valid()
      modifies this`eventHandlers
      ensures Valid()
      ensures o.Done? <==> kind in old(eventHandlers)
      ensures o.Done? ==> eventHandlers == old(eventHandlers)[kind := Remove(old(eventHandlers)[kind], h)]
      ensures o.Thrown? ==> eventHandlers == old(eventHandlers) && o.message == "TypeError"
    {
      if kind in eventHandlers {
        eventHandlers := eventHandlers[kind := Remove(eventHandlers[kind], h)];
        o := Done;
      } else {
        o := Thrown("TypeError");
      }
    }

    /**
     * `emit`: a child posts to its parent, at the given origin or else the first allowed one
     * (or `*` when that is empty); a host broadcasts to its clients.
     */
    method Emit(kind: string, payload: Payload, targetOrigin: Origin, now: nat)
      requires Valid()
      modifies this`outbox
      ensures Valid()
      ensures role == Child ==>
                outbox == old(outbox) + [Post(Parent, MakeEnvelope(channel, kind, payload, NoExtra, now),
                                              Or(Or(targetOrigin, allowedOrigins[0]), "*"))]
      ensures role == Host ==>
                outbox == old(outbox) + BroadcastPosts(clients.order, clients.entries,
                                                       MakeEnvelope(channel, kind, payload, NoExtra, now), targetOrigin)
    {
      if role == Child {
        var env := MakeEnvelope(channel, kind, payload, NoExtra, now);
        outbox := outbox + [Post(Parent, env, Or(Or(targetOrigin, allowedOrigins[0]), "*"))];
        return;
      }
      var _ := Broadcast(kind, payload, targetOrigin, now);
    }

    /* ------------------------------------------------------------ host: clients */

    /**
     * `register`: host only, and the frame must have a window.  The client is recorded (a known
     * id keeps its place), its window is mapped to it, it turns `loading`, and its handshake
     * timer is armed with the per-call timeout or the bridge default.  This method takes the
     * corrected behaviour: the handshake timer the client's previous record held is cleared
     * before the new one is armed (`RearmHandshake`).  As written, lines 219-233 replace the
     * record before reading its handle, so that timer stays armed (`RegisterTimersAsWritten`,
     * `ReRegisterKeepsStaleCheck`).
     */
    method Register(id: string, frame: Frame, opts: RegisterOptions, now: nat) returns (o: Outcome)
      requires Valid()
      modifies this`clients, this`winToClient, this`clientStatus, this`notices, this`timers, this`nextTimer
      ensures Valid()
      ensures role != Host ==> o == Thrown("register is host-only") && unchanged(this)
      ensures role == Host && frame.contentWindow.None? ==>
                o == Thrown("iframe without contentWindow") && unchanged(this)
      ensures role == Host && frame.contentWindow.Some? ==>
                && o == Done
                && clients == old(clients).Put(id, Client(frame.contentWindow.value, Or(opts.origin, allowedOrigins[0]),
                                                          frame.src, Some(old(nextTimer))))
                && winToClient == old(winToClient)[frame.contentWindow.value := id]
                && clientStatus == old(clientStatus).Put(id, StatusRecord(Loading, now, NoReason))
                && notices == old(notices) + [Notice(statusHandlers, id, StatusRecord(Loading, now, NoReason))]
                && timers == RearmHandshake(old(timers), CheckOf(old(clients), id), id, old(nextTimer),
                                            OrNumber(opts.handshakeTimeoutMs, handshakeTimeoutMs))
                && nextTimer == old(nextTimer) + 1
    {
      if role != Host {
        return Thrown("register is host-only");
      }
      if frame.contentWindow.None? {
        return Thrown("iframe without contentWindow");
      }
      var previous := CheckOf(clients, id);
      assert KeptHandle(timers, nextTimer, previous, HandshakeCheck(id));
      var tid := ArmCheck(id, previous, OrNumber(opts.handshakeTimeoutMs, handshakeTimeoutMs));
      Enroll(id, Client(frame.contentWindow.value, Or(opts.origin, allowedOrigins[0]), frame.src, Some(tid)));
      SetStatus(id, Loading, NoReason, now);
      o := Done;
    }

    /** Records a client, whose handshake handle checks it, and maps its window to it. */
    method Enroll(id: string, c: Client)
      requires Valid() && KeptHandle(timers, nextTimer, c.handshakeTimer, HandshakeCheck(id))
      modifies this`clients, this`winToClient
      ensures Valid()
      ensures clients == old(clients).Put(id, c)
      ensures winToClient == old(winToClient)[c.win := id]
    {
      PutClientKeepsSound(timers, nextTimer, nextUid, pending, clients.entries, hostHeartbeatTimer, childHeartbeatTimer, id, c);
      clients := clients.Put(id, c);
      winToClient := winToClient[c.win := id];
    }

    /** `unregister`: clears the client's handshake timer and forgets its record and status (any role). */
    method Unregister(id: string)
      requires Valid()
      modifies this`clients, this`clientStatus, this`timers
      ensures Valid()
      ensures timers == Clear(old(timers), CheckOf(old(clients), id))
      ensures clients == old(clients).Delete(id)
      ensures clientStatus == old(clientStatus).Delete(id)
    {
      assert KeptHandle(timers, nextTimer, CheckOf(clients, id), HandshakeCheck(id));
      ClearKeepsSound(timers, nextTimer, nextUid, pending, clients.entries, hostHeartbeatTimer, childHeartbeatTimer, CheckOf(clients, id));
      timers := Clear(timers, CheckOf(clients, id));
      DropClientKeepsSound(timers, nextTimer, nextUid, pending, clients.entries, hostHeartbeatTimer, childHeartbeatTimer, id);
      clients := clients.Delete(id);
      clientStatus := clientStatus.Delete(id);
    }

    /** `send`: host only, to a registered client, at the given origin or else the client's. */
    method Send(id: string, kind: string, payload: Payload, targetOrigin: Origin, now: nat) returns (o: Outcome)
      requires Valid()
      modifies this`outbox
      ensures Valid()
      ensures role != Host ==> o == Thrown("send is host-only") && outbox == old(outbox)
      ensures role == Host && id !in clients.entries ==> o == Thrown("client not registered") && outbox == old(outbox)
      ensures role == Host && id in clients.entries ==>
                o == Done &&
                outbox == old(outbox) + [Post(Window(clients.entries[id].win), MakeEnvelope(channel, kind, payload, NoExtra, now),
                                              Or(targetOrigin, clients.entries[id].origin))]
    {
      if role != Host {
        return Thrown("send is host-only");
      }
      if id !in clients.entries {
        return Thrown("client not registered");
      }
      var c := clients.entries[id];
      outbox := outbox + [Post(Window(c.win), MakeEnvelope(channel, kind, payload, NoExtra, now), Or(targetOrigin, c.origin))];
      o := Done;
    }

    /** `broadcast`: host only; the same message to every registered client, in registration order. */
    method Broadcast(kind: string, payload: Payload, targetOrigin: Origin, now: nat) returns (o: Outcome)
      requires Valid()
      modifies this`outbox
      ensures Valid()
      ensures role != Host ==> o == Thrown("broadcast is host-only") && outbox == old(outbox)
      ensures role == Host ==>
                o == Done &&
                outbox == old(outbox) + BroadcastPosts(clients.order, clients.entries,
                                                       MakeEnvelope(channel, kind, payload, NoExtra, now), targetOrigin)
    {
      if role != Host {
        return Thrown("broadcast is host-only");
      }
      var env := MakeEnvelope(channel, kind, payload, NoExtra, now);
      var order, entries := clients.order, clients.entries;
      var i := 0;
      while i < |order|
        modifies this`outbox
        invariant 0 <= i <= |order|
        invariant outbox == old(outbox) + BroadcastPosts(order[..i], entries, env, targetOrigin)
      {
        var c := entries[order[i]];
        BroadcastPostsStep(order, entries, env, targetOrigin, i);
        outbox := outbox + [Post(Window(c.win), env, Or(targetOrigin, c.origin))];
        i := i + 1;
      }
      assert order[..i] == order;
      o := Done;
    }

    /* ------------------------------------------------------------ RPC */

    /** `handle`: `fn` answers requests of type `kind`, replacing any earlier responder. */
    method Handle(kind: string, fn: Responder)
      requires Valid()
      modifies this`rpcHandlers
      ensures Valid()
      ensures rpcHandlers == old(rpcHandlers)[kind := fn]
    {
      rpcHandlers := rpcHandlers[kind := fn];
    }

    /** The function returned by `handle`: removes whatever responder `kind` has by then. */
    method Unhandle(kind: string)
      requires Valid()
      modifies this`rpcHandlers
      ensures Valid()
      ensures rpcHandlers == old(rpcHandlers) - {kind}
    {
      rpcHandlers := rpcHandlers - {kind};
    }

    /** The common tail of `request` and `hostRequest`: post the request and await its reply or its timeout. */
    method Call(to: Target, targetOrigin: Origin, kind: string, payload: Payload, timeoutMs: Option<int>, now: nat)
      returns (call: Call)
      requires Valid()
      modifies this`nextUid, this`outbox, this`timers, this`nextTimer, this`pending
      ensures Valid()
      ensures call == Awaiting(Uid(old(nextUid))) && nextUid == old(nextUid) + 1
      ensures call.id !in old(pending)
      ensures outbox == old(outbox) + [Post(to, MakeEnvelope(channel, kind, payload, WithId(call.id), now), targetOrigin)]
      ensures timers == old(timers)[old(nextTimer) := Timer(RpcExpiry(call.id, "RPC timeout"), OrNumber(timeoutMs, 6000) as real, false)]
      ensures nextTimer == old(nextTimer) + 1
      ensures pending == old(pending)[call.id := old(nextTimer)]
    {
      var id := Await(OrNumber(timeoutMs, 6000) as real);
      outbox := outbox + [Post(to, MakeEnvelope(channel, kind, payload, WithId(id), now), targetOrigin)];
      call := Awaiting(id);
    }

    /** A new call takes the next id, and its one-shot timeout is armed and recorded against it. */
    method Await(delay: real) returns (id: string)
      requires Valid()
      modifies this`nextUid, this`timers, this`nextTimer, this`pending
      ensures Valid()
      ensures id == Uid(old(nextUid)) && id !in old(pending) && nextUid == old(nextUid) + 1
      ensures timers == old(timers)[old(nextTimer) := Timer(RpcExpiry(id, "RPC timeout"), delay, false)]
      ensures nextTimer == old(nextTimer) + 1
      ensures pending == old(pending)[id := old(nextTimer)]
    {
      id := Uid(nextUid);
      AwaitKeepsSound(timers, nextTimer, nextUid, pending, clients.entries, hostHeartbeatTimer, childHeartbeatTimer,
                      "RPC timeout", delay);
      timers := timers[nextTimer := Timer(RpcExpiry(id, "RPC timeout"), delay, false)];
      pending := pending[id := nextTimer];
      nextTimer := nextTimer + 1;
      nextUid := nextUid + 1;
    }

    /**
     * `request` (child): a fresh correlation id, the request posted to the parent, and a
     * pending entry with its timeout.  On a host the promise is rejected at once.
     */
    method Request(kind: string, payload: Payload, opts: RequestOptions, now: nat) returns (call: Call)
      requires Valid()
      modifies this`nextUid, this`outbox, this`timers, this`nextTimer, this`pending
      ensures Valid()
      ensures role == Host ==> call == RejectedNow("use hostRequest on host") && unchanged(this)
      ensures role == Child ==>
                && call == Awaiting(Uid(old(nextUid))) && call.id !in old(pending) && nextUid == old(nextUid) + 1
                && outbox == old(outbox) + [Post(Parent, MakeEnvelope(channel, kind, payload, WithId(call.id), now),
                                                 Or(opts.targetOrigin, allowedOrigins[0]))]
                && timers == old(timers)[old(nextTimer) := Timer(RpcExpiry(call.id, "RPC timeout"),
                                                                 OrNumber(opts.timeoutMs, 6000) as real, false)]
                && nextTimer == old(nextTimer) + 1
                && pending == old(pending)[call.id := old(nextTimer)]
    {
      if role == Host {
        return RejectedNow("use hostRequest on host");
      }
      call := Call(Parent, Or(opts.targetOrigin, allowedOrigins[0]), kind, payload, opts.timeoutMs, now);
    }

    /** `hostRequest`: as `request`, from a host to one registered client. */
    method HostRequest(id: string, kind: string, payload: Payload, opts: RequestOptions, now: nat) returns (call: Call)
      requires Valid()
      modifies this`nextUid, this`outbox, this`timers, this`nextTimer, this`pending
      ensures Valid()
      ensures role != Host ==> call == RejectedNow("hostRequest is host-only") && unchanged(this)
      ensures role == Host && id !in clients.entries ==> call == RejectedNow("client not registered") && unchanged(this)
      ensures role == Host && id in clients.entries ==>
                && call == Awaiting(Uid(old(nextUid))) && call.id !in old(pending) && nextUid == old(nextUid) + 1
                && outbox == old(outbox) + [Post(Window(clients.entries[id].win), MakeEnvelope(channel, kind, payload, WithId(call.id), now),
                                                 Or(opts.targetOrigin, clients.entries[id].origin))]
                && timers == old(timers)[old(nextTimer) := Timer(RpcExpiry(call.id, "RPC timeout"),
                                                                 OrNumber(opts.timeoutMs, 6000) as real, false)]
                && nextTimer == old(nextTimer) + 1
                && pending == old(pending)[call.id := old(nextTimer)]
    {
      if role != Host {
        return RejectedNow("hostRequest is host-only");
      }
      if id !in clients.entries {
        return RejectedNow("client not registered");
      }
      var c := clients.entries[id];
      call := Call(Window(c.win), Or(opts.targetOrigin, c.origin), kind, payload, opts.timeoutMs, now);
    }

    /* ------------------------------------------------------------ host: retry */

    /**
     * `retry`: host only, for a registered client.  The client turns `loading` with reason
     * "retry", its frame is navigated to the `src` it was registered with (cache-busted unless
     * `bustCache` is `false`), and its handshake timer is re-armed with the bridge default.
     */
    method Retry(id: string, bustCache: Prim, now: nat) returns (o: Outcome)
      requires Valid()
      modifies this`clients, this`clientStatus, this`notices, this`reloads, this`timers, this`nextTimer
      ensures Valid()
      ensures role != Host ==> o == Thrown("retry is host-only") && unchanged(this)
      ensures role == Host && id !in old(clients.entries) ==> o == Thrown("client not registered") && unchanged(this)
      ensures role == Host && id in old(clients.entries) ==>
                && o == Done
                && clientStatus == old(clientStatus).Put(id, StatusRecord(Loading, now, RetryRequested))
                && notices == old(notices) + [Notice(statusHandlers, id, StatusRecord(Loading, now, RetryRequested))]
                && reloads == old(reloads) + [Reload(id, if bustCache != Bool(false) then RetryUrl(old(clients.entries[id].src), now)
                                                         else old(clients.entries[id].src))]
                && timers == RearmHandshake(old(timers), old(clients.entries[id].handshakeTimer), id, old(nextTimer), handshakeTimeoutMs)
                && nextTimer == old(nextTimer) + 1
                && clients == old(clients).Put(id, old(clients.entries[id]).(handshakeTimer := Some(old(nextTimer))))
    {
      if role != Host {
        return Thrown("retry is host-only");
      }
      if id !in clients.entries {
        return Thrown("client not registered");
      }
      var c := clients.entries[id];
      SetStatus(id, Loading, RetryRequested, now);
      var url := if bustCache != Bool(false) then RetryUrl(c.src, now) else c.src;
      reloads := reloads + [Reload(id, url)];
      assert KeptHandle(timers, nextTimer, c.handshakeTimer, HandshakeCheck(id));
      Rearm(id, c.handshakeTimer, handshakeTimeoutMs);
      o := Done;
    }

    /** Clears the client's `previous` handshake timer and arms a new one, kept in its record. */
    method Rearm(id: string, previous: Option<TimerId>, delay: int)
      requires Valid() && id in clients.entries
      requires KeptHandle(timers, nextTimer, previous, HandshakeCheck(id))
      modifies this`clients, this`timers, this`nextTimer
      ensures Valid()
      ensures timers == RearmHandshake(old(timers), previous, id, old(nextTimer), delay)
      ensures nextTimer == old(nextTimer) + 1
      ensures clients == old(clients).Put(id, old(clients.entries[id]).(handshakeTimer := Some(old(nextTimer))))
    {
      var c := clients.entries[id];
      var tid := ArmCheck(id, previous, delay);
      PutClientKeepsSound(timers, nextTimer, nextUid, pending, clients.entries, hostHeartbeatTimer, childHeartbeatTimer, id, c.(handshakeTimer := Some(tid)));
      clients := clients.Put(id, c.(handshakeTimer := Some(tid)));
    }

    /** Clears the `previous` handshake timer of a client and arms a new check for it. */
    method ArmCheck(id: string, previous: Option<TimerId>, delay: int) returns (tid: TimerId)
      requires Valid() && KeptHandle(timers, nextTimer, previous, HandshakeCheck(id))
      modifies this`timers, this`nextTimer
      ensures Valid()
      ensures tid == old(nextTimer) && nextTimer == tid + 1
      ensures timers == RearmHandshake(old(timers), previous, id, tid, delay)
    {
      ClearKeepsSound(timers, nextTimer, nextUid, pending, clients.entries, hostHeartbeatTimer, childHeartbeatTimer, previous);
      timers := Clear(timers, previous);
      tid := Arm(HandshakeCheck(id), delay as real, false);
    }

    /* ------------------------------------------------------------ inbound messages */

    /**
     * `onMessage`, along the route `Classify` picks:
     * a reply settles its pending call and clears its timeout; a HELLO binds the sender's
     * window, cancels the client's handshake timer, marks it `ready` and answers READY (a
     * HELLO without a source window throws before answering); a PING refreshes the `lastSeen`
     * of a known client; a request with a responder is answered with the responder's value or
     * its error, when there is a window to answer to; anything else goes to the handlers of
     * its type.
     */
    method OnMessage(ev: Event, now: nat) returns (route: Route)
      requires Valid()
      modifies this`pending, this`timers, this`settled, this`winToClient, this`clients, this`clientStatus,
               this`notices, this`outbox, this`delivered
      ensures Valid()
      ensures route == old(Classify(ev))
      ensures Routed(ev, now, route)
    {
      route := Classify(ev);
      match route {
        case Ignore =>
        case Settle(key) => SettleReply(key, ev.data.msg.payload);
        case Handshake => Greet(ev, now);
        case Heartbeat => Refresh(ev, now);
        case Invoke => Answer(ev, now);
        case Publish => Publish(ev);
      }
    }

    /** What handling `ev` along `route` does to the bridge: nothing for a dropped message. */
    twostate predicate Routed(ev: Event, now: nat, route: Route)
      reads this
    {
      match route
      case Ignore => unchanged(this)
      case Settle(key) => ev.data.Obj? && ReplySettled(key, ev.data.msg.payload)
      case Handshake => ev.data.Obj? && HelloHandled(ev, now)
      case Heartbeat => ev.data.Obj? && PingHandled(ev, now)
      case Invoke => ev.data.Obj? && RequestAnswered(ev, now)
      case Publish => ev.data.Obj? && EventPublished(ev)
    }

    /** A reply settles its pending call with its payload and clears the call's timeout. */
    twostate predicate ReplySettled(key: string, payload: Payload)
      reads this`pending, this`timers, this`settled, this`clients, this`clientStatus, this`winToClient, this`outbox, this`notices, this`delivered
    {
      && key in old(pending)
      && pending == old(pending) - {key}
      && timers == old(timers) - {old(pending)[key]}
      && settled == old(settled) + [Resolved(key, payload)]
      && unchanged(this`clients, this`clientStatus, this`winToClient, this`outbox, this`notices, this`delivered)
    }

    method SettleReply(key: string, payload: Payload)
      requires Valid() && key in pending
      modifies this`pending, this`timers, this`settled
      ensures Valid()
      ensures ReplySettled(key, payload)
    {
      EndCallKeepsSound(timers, nextTimer, nextUid, pending, clients.entries, hostHeartbeatTimer, childHeartbeatTimer, key);
      timers := timers - {pending[key]};
      pending := pending - {key};
      settled := settled + [Resolved(key, payload)];
    }

    /**
     * What a HELLO does on a host: with a client id and a source window, the window is bound
     * to the id, the client's armed handshake timer is cleared and dropped from its record,
     * and the id (registered or not) turns `ready`; with a source window, READY `{ ok: true }`
     * goes back to it at the sender's origin.
     */
    twostate predicate HelloHandled(ev: Event, now: nat)
      requires ev.data.Obj?
      reads this`winToClient, this`timers, this`clients, this`clientStatus, this`notices, this`statusHandlers, this`outbox,
            this`pending, this`delivered, this`settled
    {
      var id := ClientIdOf(ev.data.msg.payload);
      && (if id != "" && ev.source.Some? then Welcomed(id, ev.source.value, now)
          else unchanged(this`winToClient, this`timers, this`clients, this`clientStatus, this`notices))
      && outbox == old(outbox) + (if ev.source.Some?
                                  then [Post(Window(ev.source.value), MakeEnvelope(channel, READY, ReadyAck(None), NoExtra, now), ev.origin)]
                                  else [])
      && unchanged(this`pending, this`delivered, this`settled)
    }

    method Greet(ev: Event, now: nat)
      requires Valid() && ev.data.Obj?
      modifies this`timers, this`winToClient, this`clients, this`clientStatus, this`notices, this`outbox
      ensures Valid()
      ensures HelloHandled(ev, now)
    {
      if ev.source.None? {
        return;
      }
      var id := ClientIdOf(ev.data.msg.payload);
      outbox := outbox + [Post(Window(ev.source.value), MakeEnvelope(channel, READY, ReadyAck(None), NoExtra, now), ev.origin)];
      if id != "" {
        Welcome(id, ev.source.value, now);
      }
    }

    /**
     * A HELLO naming client `id` from window `w`: the window is bound to the id, the client's
     * armed handshake timer (if it is registered and has one) is cleared and dropped from its
     * record, and the id turns `ready`.
     */
    twostate predicate Welcomed(id: string, w: WindowId, now: nat)
      reads this`winToClient, this`timers, this`clients, this`clientStatus, this`notices, this`statusHandlers
    {
      var cancel := id in old(clients.entries) && old(clients.entries[id].handshakeTimer).Some?;
      && winToClient == old(winToClient)[w := id]
      && timers == (if cancel then old(timers) - {old(clients.entries[id].handshakeTimer).value} else old(timers))
      && clients == (if cancel then old(clients).Put(id, old(clients.entries[id]).(handshakeTimer := None)) else old(clients))
      && clientStatus == old(clientStatus).Put(id, StatusRecord(Ready, now, NoReason))
      && notices == old(notices) + [Notice(statusHandlers, id, StatusRecord(Ready, now, NoReason))]
    }

    method Welcome(id: string, w: WindowId, now: nat)
      requires Valid()
      modifies this`timers, this`winToClient, this`clients, this`clientStatus, this`notices
      ensures Valid()
      ensures Welcomed(id, w, now)
    {
      winToClient := winToClient[w := id];
      if id in clients.entries && clients.entries[id].handshakeTimer.Some? {
        Cancel(id);
      }
      SetStatus(id, Ready, NoReason, now);
    }

    /** Clears a client's handshake timer and drops it from its record. */
    method Cancel(id: string)
      requires Valid() && id in clients.entries && clients.entries[id].handshakeTimer.Some?
      modifies this`timers, this`clients
      ensures Valid()
      ensures timers == old(timers) - {old(clients.entries[id].handshakeTimer).value}
      ensures clients == old(clients).Put(id, old(clients.entries[id]).(handshakeTimer := None))
    {
      var c := clients.entries[id];
      assert KeptHandle(timers, nextTimer, c.handshakeTimer, HandshakeCheck(id));
      ClearKeepsSound(timers, nextTimer, nextUid, pending, clients.entries, hostHeartbeatTimer, childHeartbeatTimer, c.handshakeTimer);
      timers := Clear(timers, c.handshakeTimer);
      PutClientKeepsSound(timers, nextTimer, nextUid, pending, clients.entries, hostHeartbeatTimer, childHeartbeatTimer, id, c.(handshakeTimer := None));
      clients := clients.Put(id, c.(handshakeTimer := None));
    }

    /** A PING from a known client refreshes its `lastSeen` and nothing else; no handler is told. */
    twostate predicate PingHandled(ev: Event, now: nat)
      requires ev.data.Obj?
      reads this`clientStatus, this`pending, this`timers, this`clients, this`winToClient, this`outbox, this`notices,
            this`delivered, this`settled
    {
      var pid := ClientIdOf(ev.data.msg.payload);
      && clientStatus == (if pid != "" && pid in old(clientStatus.entries)
                          then old(clientStatus).Put(pid, old(clientStatus.entries[pid]).(lastSeen := now))
                          else old(clientStatus))
      && unchanged(this`pending, this`timers, this`clients, this`winToClient, this`outbox, this`notices,
                   this`delivered, this`settled)
    }

    method Refresh(ev: Event, now: nat)
      requires Valid() && ev.data.Obj?
      modifies this`clientStatus
      ensures Valid()
      ensures PingHandled(ev, now)
    {
      var pid := ClientIdOf(ev.data.msg.payload);
      if pid != "" && pid in clientStatus.entries {
        clientStatus := clientStatus.Put(pid, clientStatus.entries[pid].(lastSeen := now));
      }
    }

    /**
     * A request is answered, at the sender's origin, with `<type>:reply` carrying the
     * responder's value or `{ error: true, message }`, correlated by the request's `id`; without
     * a source window the answer cannot be posted.
     */
    twostate predicate RequestAnswered(ev: Event, now: nat)
      requires ev.data.Obj?
      reads this`outbox, this`pending, this`timers, this`clients, this`clientStatus, this`winToClient,
            this`notices, this`delivered, this`settled
    {
      var m := ev.data.msg;
      && m.kind in old(rpcHandlers)
      && outbox == old(outbox) + (if ev.source.None? then [] else
           [Post(Window(ev.source.value),
                 MakeEnvelope(channel, m.kind + ":reply", ReplyBody(old(rpcHandlers)[m.kind](m.payload)), WithReplyTo(m.id), now),
                 ev.origin)])
      && unchanged(this`pending, this`timers, this`clients, this`clientStatus, this`winToClient,
                   this`notices, this`delivered, this`settled)
    }

    method Answer(ev: Event, now: nat)
      requires Valid() && ev.data.Obj? && ev.data.msg.kind in rpcHandlers
      modifies this`outbox
      ensures Valid()
      ensures RequestAnswered(ev, now)
    {
      var m := ev.data.msg;
      var outcome := rpcHandlers[m.kind](m.payload);
      if ev.source.Some? {
        outbox := outbox + [Post(Window(ev.source.value),
                                 MakeEnvelope(channel, m.kind + ":reply", ReplyBody(outcome), WithReplyTo(m.id), now),
                                 ev.origin)];
      }
    }

    /** Every handler of the message's type gets its payload, in order, without a context argument. */
    twostate predicate EventPublished(ev: Event)
      requires ev.data.Obj?
      reads this`delivered, this`eventHandlers, this`pending, this`timers, this`clients, this`clientStatus, this`winToClient,
            this`notices, this`outbox, this`settled
    {
      && delivered == old(delivered) + Deliveries(HandlersOf(ev.data.msg.kind), ev.data.msg.payload, None)
      && unchanged(this`pending, this`timers, this`clients, this`clientStatus, this`winToClient,
                   this`notices, this`outbox, this`settled)
    }

    method Publish(ev: Event)
      requires Valid() && ev.data.Obj?
      modifies this`delivered
      ensures Valid()
      ensures EventPublished(ev)
    {
      delivered := delivered + Deliveries(HandlersOf(ev.data.msg.kind), ev.data.msg.payload, None);
    }

    /** The `message` listener: `onMessage` runs only while the bridge is started. */
    method Receive(ev: Event, now: nat) returns (route: Route)
      requires Valid()
      modifies this`pending, this`timers, this`settled, this`winToClient, this`clients, this`clientStatus,
               this`notices, this`outbox, this`delivered
      ensures Valid()
      ensures started == old(started)
      ensures !old(started) ==> route == Ignore && unchanged(this)
      ensures old(started) ==> route == old(Classify(ev)) && Routed(ev, now, route)
    {
      if !started {
        return Ignore;
      }
      route := OnMessage(ev, now);
    }

    /* ------------------------------------------------------------ timers */

    /**
     * One tick of the host heartbeat monitor: every `ready` client silent for longer than
     * `heartbeatTimeoutMs` turns `offline` with reason "heartbeat_timeout", in table order.
     */
    method HeartbeatTick(now: nat)
      requires Valid()
      modifies this`clientStatus, this`notices
      ensures Valid()
      ensures clientStatus == Scan(old(clientStatus), now, heartbeatTimeoutMs)
      ensures notices == old(notices) + ExpiryNotices(statusHandlers,
                                                      Expired(old(clientStatus.order), old(clientStatus.entries), now, heartbeatTimeoutMs), now)
    {
      var scanned, expiries := ScanTable(clientStatus, statusHandlers, now, heartbeatTimeoutMs);
      clientStatus := scanned;
      notices := notices + expiries;
    }

    /**
     * The environment runs the armed timer `tid`; a one-shot timer is spent first.  A handshake
     * check turns a still-loading client offline; an RPC timeout forgets its call and rejects
     * it; the host monitor scans; the child's heartbeat posts a PING to the first allowed origin.
     */
    method Fire(tid: TimerId, now: nat)
      requires Valid() && tid in timers
      modifies this`timers, this`clientStatus, this`notices, this`pending, this`settled, this`outbox
      ensures Valid()
      ensures timers == if old(timers[tid]).repeating then old(timers) else old(timers) - {tid}
      ensures old(timers[tid].task).HandshakeCheck? ==>
                && clientStatus == AfterHandshakeCheck(old(clientStatus), old(timers[tid].task).clientId, now)
                && notices == old(notices) + (if clientStatus == old(clientStatus) then []
                                              else [Notice(statusHandlers, old(timers[tid].task).clientId,
                                                           StatusRecord(Offline, now, HandshakeTimeout))])
                && unchanged(this`pending, this`settled, this`outbox)
      ensures old(timers[tid].task).RpcExpiry? ==>
                && !old(timers[tid]).repeating
                && old(timers[tid].task).reqId in old(pending) && old(pending[timers[tid].task.reqId]) == tid
                && pending == old(pending) - {old(timers[tid].task).reqId}
                && settled == old(settled) + [Rejected(old(timers[tid].task).reqId, old(timers[tid].task).reason)]
                && unchanged(this`clientStatus, this`notices, this`outbox)
      ensures old(timers[tid].task).HeartbeatScan? ==>
                && clientStatus == Scan(old(clientStatus), now, heartbeatTimeoutMs)
                && notices == old(notices) + ExpiryNotices(statusHandlers,
                                                           Expired(old(clientStatus.order), old(clientStatus.entries), now, heartbeatTimeoutMs), now)
                && unchanged(this`pending, this`settled, this`outbox)
      ensures old(timers[tid].task).HeartbeatPing? ==>
                && outbox == old(outbox) + [Post(Parent, MakeEnvelope(channel, PING, ClientRef(old(timers[tid].task).clientId), NoExtra, now),
                                                 allowedOrigins[0])]
                && unchanged(this`clientStatus, this`notices, this`pending, this`settled)
    {
      match timers[tid].task {
        case HandshakeCheck(_) => CheckHandshake(tid, now);
        case RpcExpiry(_, _) => Expire(tid);
        case HeartbeatScan => ScanHeartbeats(tid, now);
        case HeartbeatPing(_) => SendPing(tid, now);
      }
    }

    /** A handshake check fires: the client goes offline if it is still loading. */
    method CheckHandshake(tid: TimerId, now: nat)
      requires Valid() && tid in timers && timers[tid].task.HandshakeCheck?
      modifies this`timers, this`clientStatus, this`notices
      ensures Valid()
      ensures timers == if old(timers[tid]).repeating then old(timers) else old(timers) - {tid}
      ensures clientStatus == AfterHandshakeCheck(old(clientStatus), old(timers[tid].task).clientId, now)
      ensures notices == old(notices) + (if clientStatus == old(clientStatus) then []
                                         else [Notice(statusHandlers, old(timers[tid].task).clientId,
                                                      StatusRecord(Offline, now, HandshakeTimeout))])
    {
      var id := timers[tid].task.clientId;
      Spend(tid);
      if id in clientStatus.entries && clientStatus.entries[id].status == Loading {
        SetStatus(id, Offline, HandshakeTimeout, now);
      }
    }

    /** The host's monitor interval fires. */
    method ScanHeartbeats(tid: TimerId, now: nat)
      requires Valid() && tid in timers && timers[tid].task.HeartbeatScan?
      modifies this`timers, this`clientStatus, this`notices
      ensures Valid()
      ensures timers == if old(timers[tid]).repeating then old(timers) else old(timers) - {tid}
      ensures clientStatus == Scan(old(clientStatus), now, heartbeatTimeoutMs)
      ensures notices == old(notices) + ExpiryNotices(statusHandlers,
                                                      Expired(old(clientStatus.order), old(clientStatus.entries), now, heartbeatTimeoutMs), now)
    {
      Spend(tid);
      HeartbeatTick(now);
    }

    /** A child's PING interval fires: it posts a PING to the first allowed origin. */
    method SendPing(tid: TimerId, now: nat)
      requires Valid() && tid in timers && timers[tid].task.HeartbeatPing?
      modifies this`timers, this`outbox
      ensures Valid()
      ensures timers == if old(timers[tid]).repeating then old(timers) else old(timers) - {tid}
      ensures outbox == old(outbox) + [Post(Parent, MakeEnvelope(channel, PING, ClientRef(old(timers[tid].task).clientId), NoExtra, now),
                                            allowedOrigins[0])]
    {
      var myId := timers[tid].task.clientId;
      Spend(tid);
      outbox := outbox + [Post(Parent, MakeEnvelope(channel, PING, ClientRef(myId), NoExtra, now), allowedOrigins[0])];
    }

    /** A fired one-shot timer is spent; an interval stays armed. */
    method Spend(tid: TimerId)
      requires Valid() && tid in timers && !timers[tid].task.RpcExpiry?
      modifies this`timers
      ensures Valid()
      ensures timers == if old(timers[tid]).repeating then old(timers) else old(timers) - {tid}
    {
      if !timers[tid].repeating {
        ClearKeepsSound(timers, nextTimer, nextUid, pending, clients.entries, hostHeartbeatTimer, childHeartbeatTimer, Some(tid));
        timers := timers - {tid};
      }
    }

    /** An RPC timeout fires: its call is forgotten and its promise rejected with the timeout's reason. */
    method Expire(tid: TimerId)
      requires Valid() && tid in timers && timers[tid].task.RpcExpiry?
      modifies this`timers, this`pending, this`settled
      ensures Valid()
      ensures !old(timers[tid]).repeating && timers == old(timers) - {tid}
      ensures old(timers[tid].task).reqId in old(pending) && old(pending[timers[tid].task.reqId]) == tid
      ensures pending == old(pending) - {old(timers[tid].task).reqId}
      ensures settled == old(settled) + [Rejected(old(timers[tid].task).reqId, old(timers[tid].task).reason)]
    {
      var task := timers[tid].task;
      EndCallKeepsSound(timers, nextTimer, nextUid, pending, clients.entries, hostHeartbeatTimer, childHeartbeatTimer, task.reqId);
      timers := timers - {tid};
      pending := pending - {task.reqId};
      settled := settled + [Rejected(task.reqId, task.reason)];
    }

    /* ------------------------------------------------------------ lifecycle */

    /**
     * `start`: once only.  A host with heartbeat enabled arms its monitor every
     * `max(500, heartbeatTimeoutMs / 2)` ms.  A child takes its configured id or a fresh one,
     * says HELLO to the first allowed origin unless `autoHello` is off, and with heartbeat
     * enabled arms a PING every `heartbeatIntervalMs`.
     */
    method Start(now: nat)
      requires Valid()
      modifies this`started, this`timers, this`nextTimer, this`hostHeartbeatTimer, this`childHeartbeatTimer,
               this`nextUid, this`outbox
      ensures Valid()
      ensures old(started) ==> unchanged(this)
      ensures !old(started) ==> started
      ensures !old(started) && role == Host ==>
                && unchanged(this`nextUid, this`outbox, this`childHeartbeatTimer)
                && (enableHeartbeat ==>
                      && hostHeartbeatTimer == Some(old(nextTimer)) && nextTimer == old(nextTimer) + 1
                      && timers == old(timers)[old(nextTimer) := Timer(HeartbeatScan, HeartbeatPeriod(heartbeatTimeoutMs), true)])
                && (!enableHeartbeat ==> unchanged(this`timers, this`nextTimer, this`hostHeartbeatTimer))
      ensures !old(started) && role == Child ==>
                && (var myId := Or(clientId, Uid(old(nextUid)));
                    && nextUid == (if clientId == "" then old(nextUid) + 1 else old(nextUid))
                    && outbox == old(outbox) + (if autoHello then [Post(Parent, MakeEnvelope(channel, HELLO, ClientRef(myId), NoExtra, now),
                                                                        allowedOrigins[0])] else [])
                    && (enableHeartbeat ==>
                          && childHeartbeatTimer == Some(old(nextTimer)) && nextTimer == old(nextTimer) + 1
                          && timers == old(timers)[old(nextTimer) := Timer(HeartbeatPing(myId), heartbeatIntervalMs as real, true)]))
                && (!enableHeartbeat ==> unchanged(this`timers, this`nextTimer, this`childHeartbeatTimer))
                && unchanged(this`hostHeartbeatTimer)
    {
      if started {
        return;
      }
      started := true;
      if role == Host && enableHeartbeat {
        StartMonitor();
      }
      if role == Child {
        Announce(now);
      }
    }

    /** The child part of `start`: its id, its HELLO unless `autoHello` is off, and its heartbeat when enabled. */
    method Announce(now: nat)
      requires Valid()
      modifies this`timers, this`nextTimer, this`childHeartbeatTimer, this`nextUid, this`outbox
      ensures Valid()
      ensures var myId := Or(clientId, Uid(old(nextUid)));
              && nextUid == (if clientId == "" then old(nextUid) + 1 else old(nextUid))
              && outbox == old(outbox) + (if autoHello then [Post(Parent, MakeEnvelope(channel, HELLO, ClientRef(myId), NoExtra, now),
                                                                  allowedOrigins[0])] else [])
              && (enableHeartbeat ==>
                    && childHeartbeatTimer == Some(old(nextTimer)) && nextTimer == old(nextTimer) + 1
                    && timers == old(timers)[old(nextTimer) := Timer(HeartbeatPing(myId), heartbeatIntervalMs as real, true)])
              && (!enableHeartbeat ==> unchanged(this`timers, this`nextTimer, this`childHeartbeatTimer))
    {
      var myId := clientId;
      if myId == "" {
        SkipUidKeepsSound(timers, nextTimer, nextUid, pending, clients.entries, hostHeartbeatTimer, childHeartbeatTimer);
        myId := Uid(nextUid);
        nextUid := nextUid + 1;
      }
      if autoHello {
        outbox := outbox + [Post(Parent, MakeEnvelope(channel, HELLO, ClientRef(myId), NoExtra, now), allowedOrigins[0])];
      }
      if enableHeartbeat {
        StartPings(myId);
      }
    }

    /** The host heartbeat monitor, armed as an interval of `max(500, heartbeatTimeoutMs / 2)` ms. */
    method StartMonitor()
      requires Valid()
      modifies this`timers, this`nextTimer, this`hostHeartbeatTimer
      ensures Valid()
      ensures hostHeartbeatTimer == Some(old(nextTimer)) && nextTimer == old(nextTimer) + 1
      ensures timers == old(timers)[old(nextTimer) := Timer(HeartbeatScan, HeartbeatPeriod(heartbeatTimeoutMs), true)]
    {
      var tid := Arm(HeartbeatScan, HeartbeatPeriod(heartbeatTimeoutMs), true);
      hostHeartbeatTimer := Some(tid);
    }

    /** The child heartbeat, armed as an interval of `heartbeatIntervalMs` ms. */
    method StartPings(myId: string)
      requires Valid()
      modifies this`timers, this`nextTimer, this`childHeartbeatTimer
      ensures Valid()
      ensures childHeartbeatTimer == Some(old(nextTimer)) && nextTimer == old(nextTimer) + 1
      ensures timers == old(timers)[old(nextTimer) := Timer(HeartbeatPing(myId), heartbeatIntervalMs as real, true)]
    {
      var tid := Arm(HeartbeatPing(myId), heartbeatIntervalMs as real, true);
      childHeartbeatTimer := Some(tid);
    }

    /**
     * `destroy`: only while started.  Clears the timeout of every pending call and both
     * heartbeat timers, empties every table and handler set, and stops listening.  Handshake
     * timers stay armed, the window bindings stay, and pending calls are never settled.
     */
    method Destroy()
      requires Valid()
      modifies this`started, this`timers, this`eventHandlers, this`rpcHandlers, this`pending, this`clients,
               this`clientStatus, this`statusHandlers
      ensures Valid()
      ensures !old(started) ==> unchanged(this)
      ensures old(started) ==>
                && !started
                && timers == Clear(Clear(old(timers) - old(pending).Values, hostHeartbeatTimer), childHeartbeatTimer)
                && (forall t :: t in timers ==> !timers[t].task.RpcExpiry?)
                && eventHandlers == map[] && rpcHandlers == map[] && pending == map[]
                && clients == EmptyMap() && clientStatus == EmptyMap() && statusHandlers == []
    {
      if !started {
        return;
      }
      WindDown();
      Forget();
      started := false;
    }

    /** The timer part of `destroy`: every pending call's timeout and both heartbeat timers are cleared. */
    method WindDown()
      requires Valid()
      modifies this`timers, this`pending
      ensures Valid()
      ensures timers == Clear(Clear(old(timers) - old(pending).Values, hostHeartbeatTimer), childHeartbeatTimer)
      ensures forall t :: t in timers ==> !timers[t].task.RpcExpiry?
      ensures pending == map[]
    {
      WindDownKeepsSound(timers, nextTimer, nextUid, pending, clients.entries, hostHeartbeatTimer, childHeartbeatTimer);
      timers := ClearTimeouts(timers, pending);
      timers := Clear(timers, hostHeartbeatTimer);
      timers := Clear(timers, childHeartbeatTimer);
      pending := map[];
    }

    /** The table part of `destroy`: every handler set, client record and status record is dropped. */
    method Forget()
      requires Valid() && pending == map[]
      modifies this`eventHandlers, this`rpcHandlers, this`clients, this`clientStatus, this`statusHandlers
      ensures Valid()
      ensures eventHandlers == map[] && rpcHandlers == map[]
      ensures clients == EmptyMap() && clientStatus == EmptyMap() && statusHandlers == []
    {
      eventHandlers := map[];
      rpcHandlers := map[];
      clients := EmptyMap();
      clientStatus := EmptyMap();
      statusHandlers := [];
    }
  }

  /**
   * The body of the host heartbeat monitor on the status table: each client, in table order,
   * is checked and, when overdue, turned offline with its `setStatus` notice.  `forEach` hands
   * each record over as it stands when visited; only earlier clients have been touched by then,
   * so it is the record from before the scan.
   */
  method ScanTable(table: Statuses, handlers: seq<HandlerId>, now: nat, timeoutMs: int)
    returns (scanned: Statuses, expiries: seq<Notice>)
    requires table.Valid()
    ensures scanned == Scan(table, now, timeoutMs)
    ensures expiries == ExpiryNotices(handlers, Expired(table.order, table.entries, now, timeoutMs), now)
  {
    scanned := table;
    expiries := [];
    ghost var visited: set<string> := {};
    ghost var expired: seq<string> := [];
    var i := 0;
    while i < |table.order|
      invariant 0 <= i <= |table.order|
      invariant forall j :: 0 <= j < i ==> table.order[j] in visited
      invariant scanned == PartialScan(table, visited, now, timeoutMs)
      invariant expired == Expired(table.order[..i], table.entries, now, timeoutMs)
      invariant expiries == ExpiryNotices(handlers, expired, now)
    {
      var id := table.order[i];
      var record := table.entries[id];
      PartialScanStep(table, visited, id, now, timeoutMs);
      ExpiredStep(table.order, table.entries, now, timeoutMs, i);
      if Overdue(record, now, timeoutMs) {
        ExpiryNoticesStep(handlers, expired, id, now);
        scanned := scanned.Put(id, StatusRecord(Offline, now, HeartbeatTimeout));
        expiries := expiries + [Notice(handlers, id, StatusRecord(Offline, now, HeartbeatTimeout))];
        expired := expired + [id];
      }
      visited := visited + {id};
      i := i + 1;
    }
    assert table.order[..i] == table.order;
    PartialScanDone(table, visited, now, timeoutMs);
  }

  /** `createBridge`: the option checks, then a bridge in its initial state. */
  method CreateBridge(o: Options) returns (r: Result<Bridge>)
    ensures r.Ok? <==> CheckOptions(o).Ok?
    ensures r.Err? ==> r.message == CheckOptions(o).message
    ensures r.Ok? ==>
              && fresh(r.value) && r.value.Valid() && r.value.Pristine()
              && var c := CheckOptions(o).value;
              && r.value.role == c.role && r.value.channel == c.channel && r.value.allowedOrigins == c.allowedOrigins
              && r.value.clientId == c.clientId && r.value.autoHello == c.autoHello
              && r.value.handshakeTimeoutMs == c.handshakeTimeoutMs && r.value.enableHeartbeat == c.enableHeartbeat
              && r.value.heartbeatIntervalMs == c.heartbeatIntervalMs && r.value.heartbeatTimeoutMs == c.heartbeatTimeoutMs
  {
    var checked := CheckOptions(o);
    if checked.Err? {
      return Err(checked.message);
    }
    var b := new Bridge(checked.value);
    r := Ok(b);
  }
}
