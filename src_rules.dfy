/**
 * The decisions of the current engine (`packages/mfe-bridge/src/index.js`) that depend only on
 * values: option checking and defaults, the origin allowlist, the routing order of inbound
 * messages, the liveness rules of the heartbeat monitor, the retry URL, and the way the
 * handshake timer is re-armed.  The `Bridge` class in `SrcBridge` applies them to its state.
 */
module SrcRules {
  import opened Wire
  import opened Text
  import opened Ordered
  import opened Scheduler

  /** `originAllowed`: the claimed origin is literally one of the entries of an allowlist array. */
  predicate OriginAllowed(origin: Origin, allowed: OriginList)
    ensures OriginAllowed(origin, allowed) ==> allowed.List? && |allowed.origins| > 0
    ensures allowed.List? ==>
              (OriginAllowed(origin, allowed) <==>
               exists i :: 0 <= i < |allowed.origins| && allowed.origins[i] == origin)
  {
    allowed.List? && origin in allowed.origins
  }

  /* ---------------------------------------------------------------- options */

  /**
   * The options of `createBridge` the engine reads (`debug` only switches logging).  Numeric
   * options are `None` when absent; `clientId` is "" when absent.
   */
  datatype Options = Options(
    role: string, channel: Prim, allowedOrigins: OriginList, clientId: string, autoHello: Prim,
    handshakeTimeoutMs: Option<int>, enableHeartbeat: Prim,
    heartbeatIntervalMs: Option<int>, heartbeatTimeoutMs: Option<int>)

  /** The settings a constructed bridge works with. */
  datatype Config = Config(
    role: Role, channel: Prim, allowedOrigins: seq<Origin>, clientId: string, autoHello: bool,
    handshakeTimeoutMs: int, enableHeartbeat: bool, heartbeatIntervalMs: int, heartbeatTimeoutMs: int)
  {
    /** What construction guarantees: a truthy channel and a non-empty allowlist. */
    predicate Valid() {
      Truthy(channel) && |allowedOrigins| > 0
    }
  }

  /** `x || fallback` for a numeric option: both an absent value and 0 fall back. */
  function OrNumber(x: Option<int>, fallback: int): (r: int)
    ensures x.Some? && x.value != 0 ==> r == x.value
    ensures x.None? || x.value == 0 ==> r == fallback
  {
    if x.Some? && x.value != 0 then x.value else fallback
  }

  /**
   * The checks and defaults at the top of `createBridge`: the role, then the channel, then the
   * allowlist, each failing with its own message; otherwise the settings with their defaults.
   */
  function CheckOptions(o: Options): (r: Result<Config>)
    ensures !KnownRole(o.role) ==> r == Err("Invalid role")
    ensures KnownRole(o.role) && !Truthy(o.channel) ==> r == Err("channel is required")
    ensures KnownRole(o.role) && Truthy(o.channel) && !HasOriginAllowlist(o.allowedOrigins) ==>
              r == Err("allowedOrigins must be non-empty")
    ensures r.Ok? <==> KnownRole(o.role) && Truthy(o.channel) && HasOriginAllowlist(o.allowedOrigins)
    ensures r.Ok? ==>
              && r.value.Valid()
              && (r.value.role == Host <==> o.role == "host")
              && r.value.channel == o.channel
              && r.value.allowedOrigins == o.allowedOrigins.origins
              && r.value.clientId == o.clientId
              && r.value.autoHello == (o.autoHello != Bool(false))
              && r.value.enableHeartbeat == Truthy(o.enableHeartbeat)
              && r.value.handshakeTimeoutMs == OrNumber(o.handshakeTimeoutMs, 4000)
              && r.value.heartbeatIntervalMs == OrNumber(o.heartbeatIntervalMs, 2000)
              && r.value.heartbeatTimeoutMs == OrNumber(o.heartbeatTimeoutMs, 7000)
  {
    if !KnownRole(o.role) then Err("Invalid role")
    else if !Truthy(o.channel) then Err("channel is required")
    else if !HasOriginAllowlist(o.allowedOrigins) then Err("allowedOrigins must be non-empty")
    else Ok(Config(
      if o.role == "host" then Host else Child, o.channel, o.allowedOrigins.origins, o.clientId,
      o.autoHello != Bool(false),
      OrNumber(o.handshakeTimeoutMs, 4000), Truthy(o.enableHeartbeat),
      OrNumber(o.heartbeatIntervalMs, 2000), OrNumber(o.heartbeatTimeoutMs, 7000)))
  }

  /* ---------------------------------------------------------------- records */

  datatype Status = Loading | Ready | Offline

  /** The `reason` of a status record: none, "handshake_timeout", "heartbeat_timeout" or "retry". */
  datatype Reason = NoReason | HandshakeTimeout | HeartbeatTimeout | RetryRequested

  datatype StatusRecord = StatusRecord(status: Status, lastSeen: int, reason: Reason)

  type Statuses = OrderedMap<string, StatusRecord>

  /** One `setStatus` call: the record, and the status handlers it was handed to, in order. */
  datatype Notice = Notice(handlers: seq<HandlerId>, clientId: string, record: StatusRecord)

  /** The iframe element handed to `register`: its `contentWindow` (if any) and its `src`. */
  datatype Frame = Frame(contentWindow: Option<WindowId>, src: string)

  /** A registered client: its window, its origin, the `src` it was registered with, its handshake timer. */
  datatype Client = Client(win: WindowId, origin: Origin, src: string, handshakeTimer: Option<TimerId>)

  type Clients = OrderedMap<string, Client>

  /** The options of `register`; `origin` is "" when absent. */
  datatype RegisterOptions = RegisterOptions(origin: Origin, handshakeTimeoutMs: Option<int>)

  /** `retry` navigating a client's iframe to `url`. */
  datatype Reload = Reload(clientId: string, url: string)

  /** The handshake timer of a client's current record, if the client is registered and has one. */
  function CheckOf(clients: Clients, id: string): (h: Option<TimerId>)
    ensures id !in clients.entries ==> h.None?
    ensures id in clients.entries ==> h == clients.entries[id].handshakeTimer
  {
    if id in clients.entries then clients.entries[id].handshakeTimer else None
  }

  /* ---------------------------------------------------------------- routing */

  /** The path `onMessage` takes: dropped, an RPC reply for `key`, HELLO, PING, an RPC request, or pub/sub. */
  datatype Route = Ignore | Settle(key: string) | Handshake | Heartbeat | Invoke | Publish

  /** The gates of `onMessage`: an allowed origin, an envelope, and the bridge's channel. */
  predicate Admitted(channel: Prim, allowed: seq<Origin>, ev: Event) {
    OriginAllowed(ev.origin, List(allowed)) && IsEnvelope(ev.data) && ev.data.msg.channel == channel
  }

  /** An admitted message whose `replyTo` names a pending call. */
  predicate Correlated(channel: Prim, allowed: seq<Origin>, ev: Event, pendingIds: set<string>) {
    && Admitted(channel, allowed, ev)
    && ev.data.msg.replyTo.Str? && ev.data.msg.replyTo.s != "" && ev.data.msg.replyTo.s in pendingIds
  }

  /**
   * The routing order of `onMessage`: origin gate, envelope and channel gate, `replyTo` (a
   * reply for no pending call is dropped), HELLO and PING on a host, an RPC request with an `id`
   * for a type that has a responder, and otherwise pub/sub.
   */
  function RouteOf(role: Role, channel: Prim, allowed: seq<Origin>, ev: Event,
                   pendingIds: set<string>, responders: set<string>): (r: Route)
    ensures !OriginAllowed(ev.origin, List(allowed)) ==> r == Ignore
    ensures r != Ignore ==> IsEnvelope(ev.data) && ev.data.msg.channel == channel
    ensures r.Settle? ==> ev.data.msg.replyTo == Str(r.key) && r.key in pendingIds
    ensures !r.Ignore? && !r.Settle? ==> !Truthy(ev.data.msg.replyTo)
    ensures r.Handshake? <==> r != Ignore && !r.Settle? && role == Host && ev.data.msg.kind == HELLO
    ensures r.Heartbeat? <==> r != Ignore && !r.Settle? && role == Host && ev.data.msg.kind == PING
    ensures r.Invoke? <==> r != Ignore && !r.Settle? && !r.Handshake? && !r.Heartbeat?
                           && Truthy(ev.data.msg.id) && ev.data.msg.kind in responders
    ensures r.Publish? <==> r != Ignore && !r.Settle? && !r.Handshake? && !r.Heartbeat?
                            && !(Truthy(ev.data.msg.id) && ev.data.msg.kind in responders)
    ensures r == Ignore <==> !Admitted(channel, allowed, ev)
                             || (Truthy(ev.data.msg.replyTo) && !Correlated(channel, allowed, ev, pendingIds))
    ensures Admitted(channel, allowed, ev) && !Truthy(ev.data.msg.replyTo) ==> r != Ignore
    ensures r.Settle? <==> Correlated(channel, allowed, ev, pendingIds)
    ensures Correlated(channel, allowed, ev, pendingIds) ==> r == Settle(ev.data.msg.replyTo.s)
  {
    if !OriginAllowed(ev.origin, List(allowed)) then Ignore
    else if !IsEnvelope(ev.data) || ev.data.msg.channel != channel then Ignore
    else
      var m := ev.data.msg;
      if Truthy(m.replyTo) then
        (if m.replyTo.Str? && m.replyTo.s in pendingIds then Settle(m.replyTo.s) else Ignore)
      else if role == Host && m.kind == HELLO then Handshake
      else if role == Host && m.kind == PING then Heartbeat
      else if Truthy(m.id) && m.kind in responders then Invoke
      else Publish
  }

  /** The payload of the reply to an RPC request: the responder's value, or `{ error: true, message }`. */
  function ReplyBody(outcome: RpcOutcome): (p: Payload)
    ensures outcome.Returned? ==> p == outcome.value
    ensures outcome.Threw? ==> p == RpcError(outcome.message)
  {
    match outcome
    case Returned(v) => v
    case Threw(message) => RpcError(message)
  }

  /* ---------------------------------------------------------------- fan-out */

  /** What `broadcast` posts: `msg` to every registered client, in registration order. */
  function BroadcastPosts(order: seq<string>, entries: map<string, Client>, msg: Message, targetOrigin: Origin): (r: seq<Post>)
    requires forall k :: k in order ==> k in entries
    ensures |r| == |order|
  {
    if order == [] then []
    else
      var last := order[|order| - 1];
      BroadcastPosts(order[..|order| - 1], entries, msg, targetOrigin)
      + [Post(Window(entries[last].win), msg, Or(targetOrigin, entries[last].origin))]
  }

  /** One more client of a broadcast: its post goes after those of the clients before it. */
  lemma BroadcastPostsStep(order: seq<string>, entries: map<string, Client>, msg: Message, targetOrigin: Origin, i: nat)
    requires forall k :: k in order ==> k in entries
    requires i < |order|
    ensures BroadcastPosts(order[..i + 1], entries, msg, targetOrigin)
            == BroadcastPosts(order[..i], entries, msg, targetOrigin)
               + [Post(Window(entries[order[i]].win), msg, Or(targetOrigin, entries[order[i]].origin))]
  {
    assert order[..i + 1][..i] == order[..i];
  }

  /** The `i`-th post goes to the `i`-th client's window, at the given origin or else the client's. */
  lemma {:induction false} BroadcastPostsInOrder(order: seq<string>, entries: map<string, Client>, msg: Message, targetOrigin: Origin)
    requires forall k :: k in order ==> k in entries
    ensures forall i :: 0 <= i < |order| ==>
              BroadcastPosts(order, entries, msg, targetOrigin)[i]
                == Post(Window(entries[order[i]].win), msg, Or(targetOrigin, entries[order[i]].origin))
    decreases |order|
  {
    if order != [] {
      BroadcastPostsInOrder(order[..|order| - 1], entries, msg, targetOrigin);
    }
  }

  /* ---------------------------------------------------------------- liveness */

  /** The handshake-timeout callback: offline with "handshake_timeout", but only while still loading. */
  function AfterHandshakeCheck(s: Statuses, id: string, now: int): (r: Statuses)
    ensures id in s.entries && s.entries[id].status == Loading ==>
              r == s.Put(id, StatusRecord(Offline, now, HandshakeTimeout))
    ensures !(id in s.entries && s.entries[id].status == Loading) ==> r == s
  {
    if id in s.entries && s.entries[id].status == Loading
    then s.Put(id, StatusRecord(Offline, now, HandshakeTimeout))
    else s
  }

  /** A client the heartbeat monitor gives up on: ready, and silent for longer than `timeoutMs`. */
  predicate Overdue(r: StatusRecord, now: int, timeoutMs: int) {
    r.status == Ready && now - r.lastSeen > timeoutMs
  }

  /** The overdue clients among `order`, in that order. */
  function Expired(order: seq<string>, entries: map<string, StatusRecord>, now: int, timeoutMs: int): (r: seq<string>)
    ensures |r| <= |order|
    decreases |order|
  {
    if order == [] then []
    else
      var last := order[|order| - 1];
      Expired(order[..|order| - 1], entries, now, timeoutMs)
      + (if last in entries && Overdue(entries[last], now, timeoutMs) then [last] else [])
  }

  /** `Expired` lists exactly the overdue clients of the table, each once. */
  lemma {:induction false} ExpiredMembers(order: seq<string>, entries: map<string, StatusRecord>, now: int, timeoutMs: int)
    ensures forall id :: id in Expired(order, entries, now, timeoutMs) ==>
              id in order && id in entries && Overdue(entries[id], now, timeoutMs)
    ensures forall id :: id in order && id in entries && Overdue(entries[id], now, timeoutMs) ==>
              id in Expired(order, entries, now, timeoutMs)
    ensures Distinct(order) ==> Distinct(Expired(order, entries, now, timeoutMs))
    decreases |order|
  {
    if order != [] {
      var last := order[|order| - 1];
      var prefix := order[..|order| - 1];
      assert order == prefix + [last];
      ExpiredMembers(prefix, entries, now, timeoutMs);
    }
  }

  /** `Expired` over one more client of the table. */
  lemma ExpiredStep(order: seq<string>, entries: map<string, StatusRecord>, now: int, timeoutMs: int, i: int)
    requires 0 <= i < |order|
    ensures order[i] in entries && Overdue(entries[order[i]], now, timeoutMs) ==>
              Expired(order[..i + 1], entries, now, timeoutMs) == Expired(order[..i], entries, now, timeoutMs) + [order[i]]
    ensures !(order[i] in entries && Overdue(entries[order[i]], now, timeoutMs)) ==>
              Expired(order[..i + 1], entries, now, timeoutMs) == Expired(order[..i], entries, now, timeoutMs)
  {
    assert order[..i + 1][..i] == order[..i];
    var e := Expired(order[..i], entries, now, timeoutMs);
    assert e + [] == e;
  }

  /** The status table after one heartbeat scan at time `now`. */
  function Scan(s: Statuses, now: int, timeoutMs: int): (r: Statuses)
    ensures r.order == s.order && r.entries.Keys == s.entries.Keys
    ensures s.Valid() ==> r.Valid()
  {
    OrderedMap(s.order, map id | id in s.entries ::
      if Overdue(s.entries[id], now, timeoutMs) then StatusRecord(Offline, now, HeartbeatTimeout)
      else s.entries[id])
  }

  /** The `setStatus` calls of a heartbeat scan: one per expired client, in table order. */
  function ExpiryNotices(handlers: seq<HandlerId>, ids: seq<string>, now: int): (r: seq<Notice>)
    ensures |r| == |ids|
  {
    if ids == [] then []
    else ExpiryNotices(handlers, ids[..|ids| - 1], now)
         + [Notice(handlers, ids[|ids| - 1], StatusRecord(Offline, now, HeartbeatTimeout))]
  }

  /** One notice per expired client, in order, each handed to the same status handlers. */
  lemma {:induction false} ExpiryNoticesInOrder(handlers: seq<HandlerId>, ids: seq<string>, now: int)
    ensures forall i :: 0 <= i < |ids| ==>
              ExpiryNotices(handlers, ids, now)[i] == Notice(handlers, ids[i], StatusRecord(Offline, now, HeartbeatTimeout))
    decreases |ids|
  {
    if ids != [] {
      ExpiryNoticesInOrder(handlers, ids[..|ids| - 1], now);
    }
  }

  /** The status table part-way through a heartbeat scan: the clients in `visited` have been checked. */
  function PartialScan(s: Statuses, visited: set<string>, now: int, timeoutMs: int): (r: Statuses)
    ensures r.order == s.order && r.entries.Keys == s.entries.Keys
    ensures s.Valid() ==> r.Valid()
  {
    OrderedMap(s.order, map id | id in s.entries ::
      if id in visited && Overdue(s.entries[id], now, timeoutMs) then StatusRecord(Offline, now, HeartbeatTimeout)
      else s.entries[id])
  }

  /** Checking one more client of the table expires it only if it is overdue. */
  lemma PartialScanStep(s: Statuses, visited: set<string>, id: string, now: int, timeoutMs: int)
    requires s.Valid() && id in s.entries
    ensures PartialScan(s, visited + {id}, now, timeoutMs) ==
            if Overdue(s.entries[id], now, timeoutMs)
            then PartialScan(s, visited, now, timeoutMs).Put(id, StatusRecord(Offline, now, HeartbeatTimeout))
            else PartialScan(s, visited, now, timeoutMs)
  {
  }

  /** Once every client has been checked, the partial scan is the scan. */
  lemma PartialScanDone(s: Statuses, visited: set<string>, now: int, timeoutMs: int)
    requires s.entries.Keys <= visited
    ensures PartialScan(s, visited, now, timeoutMs) == Scan(s, now, timeoutMs)
  {
  }

  /** `ExpiryNotices` for one more expired client. */
  lemma ExpiryNoticesStep(handlers: seq<HandlerId>, ids: seq<string>, id: string, now: int)
    ensures ExpiryNotices(handlers, ids + [id], now) ==
            ExpiryNotices(handlers, ids, now) + [Notice(handlers, id, StatusRecord(Offline, now, HeartbeatTimeout))]
  {
    assert (ids + [id])[..|ids|] == ids;
  }

  /** A table without overdue clients has none to expire. */
  lemma {:induction false} ExpiredNone(order: seq<string>, entries: map<string, StatusRecord>, now: int, timeoutMs: int)
    requires forall id :: id in entries ==> !Overdue(entries[id], now, timeoutMs)
    ensures Expired(order, entries, now, timeoutMs) == []
    decreases |order|
  {
    if order != [] {
      ExpiredNone(order[..|order| - 1], entries, now, timeoutMs);
    }
  }

  /**
   * The heartbeat scan moves exactly the overdue clients to offline with "heartbeat_timeout"
   * and leaves every other record as it was.
   */
  lemma ScanExpiresExactlyOverdue(s: Statuses, now: int, timeoutMs: int, id: string)
    requires id in s.entries
    ensures Scan(s, now, timeoutMs).entries[id] != s.entries[id] <==> Overdue(s.entries[id], now, timeoutMs)
    ensures Overdue(s.entries[id], now, timeoutMs) ==>
              Scan(s, now, timeoutMs).entries[id] == StatusRecord(Offline, now, HeartbeatTimeout)
  {
  }

  /** A second scan at the same instant finds nothing more to expire. */
  lemma ScanIdempotent(s: Statuses, now: int, timeoutMs: int)
    ensures Scan(Scan(s, now, timeoutMs), now, timeoutMs) == Scan(s, now, timeoutMs)
    ensures Expired(Scan(s, now, timeoutMs).order, Scan(s, now, timeoutMs).entries, now, timeoutMs) == []
  {
    var once := Scan(s, now, timeoutMs);
    ExpiredNone(once.order, once.entries, now, timeoutMs);
  }

  /** The period of the host heartbeat monitor: `Math.max(500, heartbeatTimeoutMs / 2)`. */
  function HeartbeatPeriod(timeoutMs: int): (p: real)
    ensures p >= 500.0 && p >= timeoutMs as real / 2.0
    ensures p == 500.0 || p == timeoutMs as real / 2.0
  {
    if 500.0 >= timeoutMs as real / 2.0 then 500.0 else timeoutMs as real / 2.0
  }

  /* ---------------------------------------------------------------- retry */

  const RETRY_PARAM := "__retry__="

  /**
   * The cache-busting URL of `retry`: the registered `src`, then `&` if it already has a query
   * and `?` otherwise, then `__retry__=` and the current time in decimal, which reads back.
   */
  function RetryUrl(src: string, now: nat): (url: string)
    ensures |url| > |src| + |RETRY_PARAM|
    ensures url[..|src|] == src
    ensures url[|src|] == (if '?' in src then '&' else '?')
    ensures url[|src| + 1..|src| + 1 + |RETRY_PARAM|] == RETRY_PARAM
    ensures AllDigits(url[|src| + 1 + |RETRY_PARAM|..])
    ensures ParseDecimal(url[|src| + 1 + |RETRY_PARAM|..]) == now
    ensures '?' in url
  {
    var url := src + [if '?' in src then '&' else '?'] + RETRY_PARAM + Decimal(now);
    assert url[|src| + 1 + |RETRY_PARAM|..] == Decimal(now);
    ParseDecimalOfDecimal(now);
    assert '?' in src ==> exists i :: 0 <= i < |src| && src[i] == '?' && url[i] == '?';
    assert '?' !in src ==> url[|src|] == '?';
    url
  }

  /* ---------------------------------------------------------------- handshake timer */

  /**
   * The timer table after `register` arms its handshake timer, as written (lines 219-240): the
   * client's record is replaced before its timer is read, so the `clearTimeout` of line 233 sees
   * the new record's null handle and never clears the previous registration's timer.
   */
  function RegisterTimersAsWritten(timers: Timers, id: string, tid: TimerId, delay: int): (r: Timers)
    ensures tid in r && r[tid] == Timer(HandshakeCheck(id), delay as real, false)
    ensures forall t :: t in timers && t != tid ==> t in r && r[t] == timers[t]
  {
    timers[tid := Timer(HandshakeCheck(id), delay as real, false)]
  }

  /**
   * Clear the client's previous handshake timer, then arm a fresh one: what `retry` does
   * (lines 354-360) and what `register` evidently means by line 233.
   */
  function RearmHandshake(timers: Timers, previous: Option<TimerId>, id: string, tid: TimerId, delay: int): (r: Timers)
    ensures tid in r && r[tid] == Timer(HandshakeCheck(id), delay as real, false)
    ensures previous.Some? && previous.value != tid ==> previous.value !in r
    ensures forall t :: t in timers && t != tid && previous != Some(t) ==> t in r && r[t] == timers[t]
    ensures r.Keys <= timers.Keys + {tid}
  {
    Clear(timers, previous)[tid := Timer(HandshakeCheck(id), delay as real, false)]
  }

  /**
   * While a client's only armed handshake check is the one its record holds, re-arming leaves
   * exactly one check for it: the new one.
   */
  lemma RearmLeavesOneCheck(timers: Timers, previous: Option<TimerId>, id: string, tid: TimerId, delay: int)
    requires tid !in timers
    requires HandshakeChecks(timers, id) <= (if previous.Some? then {previous.value} else {})
    ensures HandshakeChecks(RearmHandshake(timers, previous, id, tid, delay), id) == {tid}
  {
  }

  /**
   * The discrepancy, on concrete values: a client registered at 0 and registered again at 3000
   * (both with a 4000 ms handshake timeout) keeps two armed checks; the stale one fires at 4000
   * while the client is still loading in its new window, which runs until 7000, and turns it
   * offline with "handshake_timeout".
   */
  lemma ReRegisterKeepsStaleCheck()
    ensures var first := RegisterTimersAsWritten(map[], "a", 0, 4000);
            var second := RegisterTimersAsWritten(first, "a", 1, 4000);
            HandshakeChecks(second, "a") == {0, 1}
    ensures var loading := EmptyMap<string, StatusRecord>().Put("a", StatusRecord(Loading, 3000, NoReason));
            AfterHandshakeCheck(loading, "a", 4000).entries["a"] == StatusRecord(Offline, 4000, HandshakeTimeout)
  {
    var first := RegisterTimersAsWritten(map[], "a", 0, 4000);
    var second := RegisterTimersAsWritten(first, "a", 1, 4000);
    assert 0 in HandshakeChecks(second, "a");
    assert 1 in HandshakeChecks(second, "a");
  }

  /* ---------------------------------------------------------------- timer handles */

  /** A kept handle was handed out already and, while armed, runs `task`. */
  predicate KeptHandle(timers: Timers, next: TimerId, h: Option<TimerId>, task: Task) {
    h.Some? ==> h.value < next && (h.value in timers ==> timers[h.value].task == task)
  }

  /** The child's heartbeat handle, while armed, runs a PING. */
  predicate KeptPing(timers: Timers, next: TimerId, h: Option<TimerId>) {
    h.Some? ==> h.value < next && (h.value in timers ==> timers[h.value].task.HeartbeatPing?)
  }

  /** Each client record's handshake handle, while armed, checks that client. */
  predicate ChecksKept(timers: Timers, next: TimerId, clients: map<string, Client>) {
    forall id :: id in clients ==> KeptHandle(timers, next, clients[id].handshakeTimer, HandshakeCheck(id))
  }

  /**
   * The discipline of the engine's timer handles: handles are never reused, every pending call
   * has its own one-shot timeout armed and every armed timeout belongs to a pending call, every
   * pending id was handed out by `uid()`, and every kept handle, while armed, runs the task it
   * was armed for.
   */
  predicate HandlesSound(timers: Timers, next: TimerId, uids: nat, pending: map<string, TimerId>,
                         clients: map<string, Client>, hostHb: Option<TimerId>, childHb: Option<TimerId>) {
    && HandlesFresh(timers, next)
    && ExpiriesArmed(timers, pending)
    && RpcOwned(timers, pending)
    && (forall k :: k in pending ==> k in Issued(uids))
    && ChecksKept(timers, next, clients)
    && KeptHandle(timers, next, hostHb, HeartbeatScan)
    && KeptPing(timers, next, childHb)
  }

  /** Arming a timer that is not an RPC timeout under the next handle keeps the discipline. */
  lemma ArmKeepsSound(timers: Timers, next: TimerId, uids: nat, pending: map<string, TimerId>, clients: map<string, Client>,
                      hostHb: Option<TimerId>, childHb: Option<TimerId>, timer: Timer)
    requires HandlesSound(timers, next, uids, pending, clients, hostHb, childHb)
    requires !timer.task.RpcExpiry?
    ensures HandlesSound(timers[next := timer], next + 1, uids, pending, clients, hostHb, childHb)
  {
    var t' := timers[next := timer];
    forall id | id in clients
      ensures KeptHandle(t', next + 1, clients[id].handshakeTimer, HandshakeCheck(id))
    {
      assert KeptHandle(timers, next, clients[id].handshakeTimer, HandshakeCheck(id));
    }
  }

  /** Clearing a handle that is not an armed RPC timeout keeps the discipline. */
  lemma ClearKeepsSound(timers: Timers, next: TimerId, uids: nat, pending: map<string, TimerId>, clients: map<string, Client>,
                        hostHb: Option<TimerId>, childHb: Option<TimerId>, h: Option<TimerId>)
    requires HandlesSound(timers, next, uids, pending, clients, hostHb, childHb)
    requires h.Some? && h.value in timers ==> !timers[h.value].task.RpcExpiry?
    ensures HandlesSound(Clear(timers, h), next, uids, pending, clients, hostHb, childHb)
  {
    var t' := Clear(timers, h);
    forall id | id in clients
      ensures KeptHandle(t', next, clients[id].handshakeTimer, HandshakeCheck(id))
    {
      assert KeptHandle(timers, next, clients[id].handshakeTimer, HandshakeCheck(id));
    }
  }

  /** Storing a client record whose handle checks that client keeps the discipline. */
  lemma PutClientKeepsSound(timers: Timers, next: TimerId, uids: nat, pending: map<string, TimerId>, clients: map<string, Client>,
                            hostHb: Option<TimerId>, childHb: Option<TimerId>, id: string, c: Client)
    requires HandlesSound(timers, next, uids, pending, clients, hostHb, childHb)
    requires KeptHandle(timers, next, c.handshakeTimer, HandshakeCheck(id))
    ensures HandlesSound(timers, next, uids, pending, clients[id := c], hostHb, childHb)
  {
  }

  /** Forgetting a client record keeps the discipline. */
  lemma DropClientKeepsSound(timers: Timers, next: TimerId, uids: nat, pending: map<string, TimerId>, clients: map<string, Client>,
                             hostHb: Option<TimerId>, childHb: Option<TimerId>, id: string)
    requires HandlesSound(timers, next, uids, pending, clients, hostHb, childHb)
    ensures HandlesSound(timers, next, uids, pending, clients - {id}, hostHb, childHb)
  {
  }

  /**
   * A new call under the next id, awaiting a timeout armed under the next handle, keeps the
   * discipline; the id is not pending yet.
   */
  lemma AwaitKeepsSound(timers: Timers, next: TimerId, uids: nat, pending: map<string, TimerId>, clients: map<string, Client>,
                        hostHb: Option<TimerId>, childHb: Option<TimerId>, reason: string, delay: real)
    requires HandlesSound(timers, next, uids, pending, clients, hostHb, childHb)
    ensures Uid(uids) !in pending
    ensures HandlesSound(timers[next := Timer(RpcExpiry(Uid(uids), reason), delay, false)], next + 1, uids + 1,
                         pending[Uid(uids) := next], clients, hostHb, childHb)
  {
    UidFresh(uids);
    var id := Uid(uids);
    var t' := timers[next := Timer(RpcExpiry(id, reason), delay, false)];
    var p' := pending[id := next];
    forall t | t in t' && t'[t].task.RpcExpiry?
      ensures !t'[t].repeating && t'[t].task.reqId in p' && p'[t'[t].task.reqId] == t
    {
      if t != next {
        assert timers[t].task.reqId != id;
      }
    }
    forall id' | id' in clients
      ensures KeptHandle(t', next + 1, clients[id'].handshakeTimer, HandshakeCheck(id'))
    {
      assert KeptHandle(timers, next, clients[id'].handshakeTimer, HandshakeCheck(id'));
    }
  }

  /** A call that ends together with its own timeout keeps the discipline. */
  lemma EndCallKeepsSound(timers: Timers, next: TimerId, uids: nat, pending: map<string, TimerId>, clients: map<string, Client>,
                          hostHb: Option<TimerId>, childHb: Option<TimerId>, key: string)
    requires HandlesSound(timers, next, uids, pending, clients, hostHb, childHb)
    requires key in pending
    ensures HandlesSound(timers - {pending[key]}, next, uids, pending - {key}, clients, hostHb, childHb)
  {
    var tid := pending[key];
    var t' := timers - {tid};
    var p' := pending - {key};
    forall k | k in p' ensures p'[k] != tid {
      assert timers[pending[k]].task.reqId == k;
    }
    forall id | id in clients
      ensures KeptHandle(t', next, clients[id].handshakeTimer, HandshakeCheck(id))
    {
      assert KeptHandle(timers, next, clients[id].handshakeTimer, HandshakeCheck(id));
    }
  }

  /** Handing out an id that no call uses keeps the discipline. */
  lemma SkipUidKeepsSound(timers: Timers, next: TimerId, uids: nat, pending: map<string, TimerId>, clients: map<string, Client>,
                          hostHb: Option<TimerId>, childHb: Option<TimerId>)
    requires HandlesSound(timers, next, uids, pending, clients, hostHb, childHb)
    ensures HandlesSound(timers, next, uids + 1, pending, clients, hostHb, childHb)
  {
    UidFresh(uids);
  }

  /**
   * Clearing every pending timeout and both heartbeat handles, and forgetting the calls, keeps
   * the discipline, and leaves no RPC timeout armed.
   */
  lemma WindDownKeepsSound(timers: Timers, next: TimerId, uids: nat, pending: map<string, TimerId>, clients: map<string, Client>,
                           hostHb: Option<TimerId>, childHb: Option<TimerId>)
    requires HandlesSound(timers, next, uids, pending, clients, hostHb, childHb)
    ensures var t' := Clear(Clear(timers - pending.Values, hostHb), childHb);
            && HandlesSound(t', next, uids, map[], clients, hostHb, childHb)
            && forall t :: t in t' ==> !t'[t].task.RpcExpiry?
  {
    var t' := Clear(Clear(timers - pending.Values, hostHb), childHb);
    forall t | t in timers && timers[t].task.RpcExpiry? ensures t in pending.Values {
      assert pending[timers[t].task.reqId] == t;
    }
  }
}
