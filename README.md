# mfe-bridge, modelled in Dafny

`@mfe/bridge` connects a host page with the micro-frontends it embeds in iframes, over
`window.postMessage`. `createBridge(options)` checks its options and returns an engine that plays
one of two roles:

- **host**: registers iframes as clients, sends or broadcasts to them, calls them over RPC
  (`hostRequest`), tracks each client's status (`loading`, `ready`, `offline`), retries a
  client's iframe, and watches clients with a heartbeat monitor;
- **child**: says HELLO to its parent, emits events and calls the host over RPC (`request`),
  and can send PINGs.

Every message is an envelope: the marker `__mfe_bridge__: true`, version `1`, a channel, a
type, a payload, a timestamp, and optionally `id` (RPC request) or `replyTo` (RPC reply). An
inbound message is dropped unless its origin is on the allowlist and it is an envelope on the
engine's channel. It is then routed, in this order, as:
1. an RPC reply;
2. a HELLO handshake;
3. a PING (current engine only);
4. an RPC request for a registered responder;
5. otherwise, a pub/sub event.

The repository holds two builds of the engine, and both are modelled:
- `packages/mfe-bridge/src/index.js`, the current one (status tracking, retry, heartbeat);
- `packages/mfe-bridge/dist/index.js`, an earlier, simpler one (no status, retry or heartbeat,
  richer error messages, `{ origin }` passed to responders and handlers).

Modules:

- `Wire` (`wire.dfy`): the envelope (`MakeEnvelope`, `IsEnvelope`) and the JavaScript value
  shapes the engines inspect. It also holds the records of what an engine hands to the
  browser: posted messages, handler invocations and settled promises.
- `Text` (`text.dfy`): decimal notation and the correlation ids standing in for `uid()`.
- `Ordered` (`ordered.dfy`): JavaScript `Set` and `Map` with their insertion order. Broadcast
  order and the heartbeat's notification order depend on it.
- `Scheduler` (`scheduler.dfy`): a timer table standing in for `setTimeout`/`setInterval`. A
  handle is never reused, and the environment fires a handle of its choice.
- `SrcRules` and `SrcBridge` (`src_rules.dfy`, `src_bridge.dfy`): the current engine.
  - Value-level rules: option checks, routing, heartbeat scan, retry URL and the handshake
    timer.
  - The `Bridge` class, whose fields are the closure's variables and whose methods are its
    functions.
- `DistRules` and `DistBridge` (`dist_rules.dfy`, `dist_bridge.dfy`): the earlier build, in the
  same shape.

How the browser and the clock are represented:
- The browser is a set of fields the methods change: the timer table, the posted messages
  (`outbox`), the iframe navigations (`reloads`), the handler invocations (`delivered`,
  `notices`) and the settled promises (`settled`).
- Time is a `now` parameter.

Each class keeps an invariant `Valid()`, which every method preserves. Among other things, it
covers the timer discipline of both builds:
- handles are never reused;
- every pending call has its own timeout armed;
- every armed RPC timeout is one-shot and is the timeout its pending call records, so a fired
  timeout settles a call that is still pending, and only once;
- every pending id was handed out by `uid()`, so a new call's id is never already pending.

In the current engine, every handle the engine keeps (a client's handshake check, the heartbeat
monitor, the PING interval) also runs, while armed, the task it was armed for. In the earlier
build the discipline goes further: the armed timers are exactly the pending calls' timeouts. So
its `destroy` provably leaves no timer armed. The current engine's `destroy` provably leaves no
RPC timeout armed.

## Model

| member | source | states |
|---|---|---|
| Wire.MakeEnvelope | packages/mfe-bridge/src/index.js:37-49 | the result is an envelope (marker `true`, version 1) carrying the given channel, type, payload and time, plus exactly the correlation field of `extra`; `dist/index.js:24-34` is the same operation |
| Wire.EnvelopeIsStrict | packages/mfe-bridge/src/index.js:54-56 | `isEnvelope` (also `dist/index.js:36-38`): a non-object is never an envelope; an object is one iff its marker is the boolean `true` and its version the number 1, so a merely truthy marker or a version `"1"` fails |
| Wire.DeliveriesInOrder | packages/mfe-bridge/src/index.js:437-444 | pub/sub fan-out invokes each registered handler once, in registration order, with the same payload and context |
| Text.ParseDecimalOfDecimal | packages/mfe-bridge/src/index.js:349 | the decimal time written into a retry URL reads back as that time |
| Text.UidInjective | packages/mfe-bridge/src/index.js:13-15 | correlation ids drawn at different counter values differ |
| Text.UidFresh | packages/mfe-bridge/src/index.js:13-15 | the next correlation id has not been handed out yet, and drawing it adds exactly it to the ids handed out (`dist/index.js:12-14` is the same) |
| Ordered.Add | packages/mfe-bridge/src/index.js:175-176 | `Set.add`: a present element leaves the set and its order unchanged; a new one is appended last; distinctness is kept |
| Ordered.Remove | packages/mfe-bridge/src/index.js:186 | `Set.delete`: exactly the element leaves, every other element stays, distinctness is kept, and an absent element changes nothing |
| Ordered.RemoveAt | packages/mfe-bridge/src/index.js:186 | `Set.delete` of the element at position `k` closes that gap and keeps every other element in its order |
| Ordered.OrderedMap.Put | packages/mfe-bridge/src/index.js:219-225 | `Map.set`: the entry is stored; a known key keeps its place, a new key goes last; well-formedness is kept |
| Ordered.OrderedMap.Delete | packages/mfe-bridge/src/index.js:249-250 | `Map.delete`: exactly that key leaves; well-formedness is kept; an absent key leaves the order as it was |
| Ordered.OrderedMap.DeleteAt | packages/mfe-bridge/src/index.js:249-250 | `Map.delete` of the key at position `i` removes exactly that position from the key order; the other keys keep their order |
| Ordered.EmptyMap | packages/mfe-bridge/src/index.js:504-509 | `Map.clear` leaves a well-formed map with no entries |
| Scheduler.Clear | packages/mfe-bridge/src/index.js:233 | `clearTimeout` of a missing handle changes nothing; of a handle, removes exactly it |
| Scheduler.ClearTimeouts | packages/mfe-bridge/src/index.js:497-499 | the loop over the pending calls removes exactly their timeouts from the timer table |
| SrcRules.OriginAllowed | packages/mfe-bridge/src/index.js:62-64 | an origin passes iff the allowlist is an array holding it literally; a passing origin implies a non-empty array |
| SrcRules.OrNumber | packages/mfe-bridge/src/index.js:81-84 | a numeric option falls back to its default when absent or 0, and is kept otherwise |
| SrcRules.CheckOptions | packages/mfe-bridge/src/index.js:73-95 | construction fails with "Invalid role", "channel is required" or "allowedOrigins must be non-empty", checked in that order; it succeeds iff all three checks pass, and then the defaults (4000, 2000, 7000, autoHello unless `false`) are applied |
| SrcRules.RouteOf | packages/mfe-bridge/src/index.js:369-445 | the routing order, first match wins: a message is dropped iff it fails a gate (allowlisted origin, envelope, own channel) or has a truthy `replyTo` naming no pending call; it settles a call iff its `replyTo` names a pending one, and then that call; an admitted message without `replyTo` is always routed: HELLO and PING on a host, then a request iff it has a truthy `id` and a responder, else pub/sub |
| SrcRules.ReplyBody | packages/mfe-bridge/src/index.js:416-432 | the reply carries the responder's value, or `{ error: true, message }` with the exception's message |
| SrcRules.BroadcastPostsInOrder | packages/mfe-bridge/src/index.js:267-273 | broadcast's `i`-th post goes to the `i`-th registered client's window, at the given origin or else the client's |
| SrcRules.AfterHandshakeCheck | packages/mfe-bridge/src/index.js:235-240 | the handshake check turns a client offline with "handshake_timeout" iff it is still loading, and changes nothing otherwise |
| SrcRules.ExpiredMembers | packages/mfe-bridge/src/index.js:458-467 | the heartbeat expires exactly the ready clients silent for longer than the timeout, each once |
| SrcRules.ScanExpiresExactlyOverdue | packages/mfe-bridge/src/index.js:461-465 | a scan changes a client's record iff it is overdue, and then to offline with "heartbeat_timeout" at the scan's time |
| SrcRules.ScanIdempotent | packages/mfe-bridge/src/index.js:459-466 | a second scan at the same instant changes nothing and notifies nobody |
| SrcRules.ExpiryNoticesInOrder | packages/mfe-bridge/src/index.js:461-465 | one status notification per expired client, in table order, each to the status handlers of the moment |
| SrcRules.ExpiredNone | packages/mfe-bridge/src/index.js:462 | a table with no overdue client yields no expiries |
| SrcRules.HeartbeatPeriod | packages/mfe-bridge/src/index.js:466 | the monitor's period is at least 500 ms and at least half the heartbeat timeout, and is one of the two |
| SrcRules.RetryUrl | packages/mfe-bridge/src/index.js:347-350 | the retry URL is the registered `src` unchanged, then `&` if it already has a `?` and `?` otherwise, then `__retry__=` and the time in decimal, which reads back |
| SrcRules.RegisterTimersAsWritten | packages/mfe-bridge/src/index.js:219-240 | as written, `register` arms a new handshake check and clears nothing: every earlier timer stays armed |
| SrcRules.RearmHandshake | packages/mfe-bridge/src/index.js:354-360 | re-arming clears the client's previous handshake timer, arms the new check, and touches no other timer |
| SrcRules.RearmLeavesOneCheck | packages/mfe-bridge/src/index.js:354-360 | after re-arming, the client has exactly one armed handshake check: the new one |
| SrcRules.ReRegisterKeepsStaleCheck | packages/mfe-bridge/src/index.js:219-240 | registering a client twice leaves two armed checks, and the stale one turns the re-registered, still-loading client offline |
| SrcRules.ArmKeepsSound | packages/mfe-bridge/src/index.js:235 | arming a task other than an RPC timeout under the next handle keeps the timer discipline |
| SrcRules.ClearKeepsSound | packages/mfe-bridge/src/index.js:233 | clearing a handle that is not an RPC timeout keeps the timer discipline |
| SrcRules.PutClientKeepsSound | packages/mfe-bridge/src/index.js:219-225 | storing a client record whose handle checks that client keeps the timer discipline |
| SrcRules.DropClientKeepsSound | packages/mfe-bridge/src/index.js:249-250 | forgetting a client record keeps the timer discipline |
| SrcRules.AwaitKeepsSound | packages/mfe-bridge/src/index.js:294-306 | a new call under the next id, owning its freshly armed one-shot timeout, keeps the timer discipline, and that id is not pending yet |
| SrcRules.EndCallKeepsSound | packages/mfe-bridge/src/index.js:376-382 | a call that ends together with its own timeout keeps the timer discipline |
| SrcRules.SkipUidKeepsSound | packages/mfe-bridge/src/index.js:470 | drawing an id that no call uses keeps the timer discipline |
| SrcRules.WindDownKeepsSound | packages/mfe-bridge/src/index.js:497-502 | clearing every pending timeout and both heartbeat handles, and forgetting the calls, keeps the timer discipline and leaves no RPC timeout armed |
| SrcBridge.Bridge.constructor | packages/mfe-bridge/src/index.js:72-125 | a checked configuration gives an engine that is not started and has no handlers, calls, clients, statuses or timers |
| SrcBridge.Bridge.SetStatus | packages/mfe-bridge/src/index.js:136-150 | the client's record becomes the new status at `now` with the reason, in place, and every status handler is told |
| SrcBridge.Bridge.OnStatus | packages/mfe-bridge/src/index.js:157-158 | the handler joins the status handlers |
| SrcBridge.Bridge.OffStatus | packages/mfe-bridge/src/index.js:159-161 | the handler leaves the status handlers |
| SrcBridge.Bridge.GetStatus | packages/mfe-bridge/src/index.js:167-169 | a record is returned iff the client has one, and it is that record |
| SrcBridge.Bridge.On | packages/mfe-bridge/src/index.js:174-176 | the handler joins the set for the type, which is created on first use |
| SrcBridge.Bridge.Off | packages/mfe-bridge/src/index.js:185-187 | the handler leaves the type's set if the set exists; otherwise nothing changes |
| SrcBridge.Bridge.OffOnce | packages/mfe-bridge/src/index.js:177-179 | the disposer returned by `on` succeeds iff the type's set still exists, and otherwise throws without changing anything |
| SrcBridge.Bridge.Emit | packages/mfe-bridge/src/index.js:194-205 | a child posts one envelope to its parent at the given origin, else the first allowed one, else `*`; a host posts exactly broadcast's messages |
| SrcBridge.Bridge.Register | packages/mfe-bridge/src/index.js:211-241 | host only and the frame needs a window, else it throws and nothing changes; otherwise the client is recorded with its window, origin, `src` and new check, its window is bound, and it turns loading (handlers told); its previous check is cleared, which is the corrected behaviour (see Findings and Left out) |
| SrcBridge.Bridge.Unregister | packages/mfe-bridge/src/index.js:246-251 | the client's handshake timer is cleared and its record and status are dropped, in any role |
| SrcBridge.Bridge.Send | packages/mfe-bridge/src/index.js:256-262 | host only, to a registered client, else it throws and posts nothing; otherwise one envelope to its window at the given origin or else the client's |
| SrcBridge.Bridge.Broadcast | packages/mfe-bridge/src/index.js:267-273 | host only, else it throws; otherwise the outbox grows by exactly one post per registered client, in registration order |
| SrcBridge.Bridge.Handle | packages/mfe-bridge/src/index.js:278-279 | the responder replaces any earlier one for the type |
| SrcBridge.Bridge.Unhandle | packages/mfe-bridge/src/index.js:280-282 | the type has no responder afterwards |
| SrcBridge.Bridge.Request | packages/mfe-bridge/src/index.js:288-307 | rejected at once on a host, changing nothing; on a child, a fresh id is posted to the parent at the given or first allowed origin, and a pending entry with its own one-shot "RPC timeout" (default 6000 ms) is added |
| SrcBridge.Bridge.HostRequest | packages/mfe-bridge/src/index.js:312-334 | rejected at once off a host or for an unknown client, changing nothing; otherwise as `request`, to the client's window at the given origin or else the client's |
| SrcBridge.Bridge.Await | packages/mfe-bridge/src/index.js:294-306 | a new call takes the next id, which is not pending yet; its one-shot timeout (default 6000 ms) is armed under a fresh handle and recorded as the call's |
| SrcBridge.Bridge.Retry | packages/mfe-bridge/src/index.js:339-361 | host only, for a registered client, else it throws and nothing changes; otherwise the client turns loading with "retry", its frame navigates to its `src`, cache-busted unless `bustCache` is `false`, and its check is re-armed with the default timeout |
| SrcBridge.Bridge.OnMessage | packages/mfe-bridge/src/index.js:369-445 | the route taken is `RouteOf` of the state before, and `Routed` holds: a dropped message changes nothing; each route has exactly its effect (reply, HELLO, PING, request, event) |
| SrcBridge.Bridge.SettleReply | packages/mfe-bridge/src/index.js:376-383 | the pending call is resolved with the payload, forgotten, and its timeout cleared; nothing else changes |
| SrcBridge.Bridge.Greet | packages/mfe-bridge/src/index.js:386-401 | with an id and a source window, the HELLO binds the window, cancels the client's check and marks the id ready; READY `{ ok: true }` goes back when there is a source window |
| SrcBridge.Bridge.Welcome | packages/mfe-bridge/src/index.js:388-398 | the window is bound, an armed check of a registered client is cleared and dropped from its record, and the id turns ready |
| SrcBridge.Bridge.Refresh | packages/mfe-bridge/src/index.js:405-412 | a PING from a client with a status refreshes only its `lastSeen`; nobody is told |
| SrcBridge.Bridge.Answer | packages/mfe-bridge/src/index.js:415-434 | the request is answered at the sender's origin with `<type>:reply`, the responder's value or error, correlated by `replyTo` |
| SrcBridge.Bridge.Publish | packages/mfe-bridge/src/index.js:437-444 | every handler of the type gets the payload, in registration order, without context |
| SrcBridge.Bridge.Receive | packages/mfe-bridge/src/index.js:453-455 | a stopped engine drops every message and changes nothing; a started one takes `RouteOf`'s route with exactly that route's effect (`Routed`); receiving never starts or stops the engine |
| SrcBridge.Bridge.HeartbeatTick | packages/mfe-bridge/src/index.js:459-465 | the status table becomes its scan, and the handlers are told of each expired client in table order |
| SrcBridge.Bridge.Fire | packages/mfe-bridge/src/index.js:235-240 | a fired timer: a one-shot is spent and an interval stays; a handshake check, RPC timeout, heartbeat scan or PING has exactly its effect; a fired RPC timeout is one-shot and the timeout of a call still pending, so a call settles at most once |
| SrcBridge.Bridge.CheckHandshake | packages/mfe-bridge/src/index.js:235-240 | the check is spent, and the client turns offline with "handshake_timeout" (handlers told) iff it is still loading |
| SrcBridge.Bridge.Expire | packages/mfe-bridge/src/index.js:300-303 | the fired timeout is the one-shot timeout of a call still pending; that call is forgotten and rejected with the timeout's reason |
| SrcBridge.Bridge.ScanHeartbeats | packages/mfe-bridge/src/index.js:459-466 | the monitor interval stays armed; the table becomes its scan and each expired client is reported in table order |
| SrcBridge.Bridge.SendPing | packages/mfe-bridge/src/index.js:479-485 | the PING interval stays armed and posts one PING carrying the child's id to the first allowed origin |
| SrcBridge.Bridge.Start | packages/mfe-bridge/src/index.js:452-488 | once only; a host with heartbeat arms its monitor; a child takes its id or a fresh one, says HELLO unless `autoHello` is off, and arms its PING interval when heartbeat is on |
| SrcBridge.Bridge.Announce | packages/mfe-bridge/src/index.js:469-487 | the child's HELLO to the first allowed origin carries its configured or fresh id, and its PING interval uses the same id |
| SrcBridge.Bridge.StartMonitor | packages/mfe-bridge/src/index.js:458-467 | the monitor is an interval of `HeartbeatPeriod` under a fresh handle that the engine keeps |
| SrcBridge.Bridge.StartPings | packages/mfe-bridge/src/index.js:479-486 | the PING is an interval of `heartbeatIntervalMs` under a fresh handle that the engine keeps |
| SrcBridge.Bridge.Destroy | packages/mfe-bridge/src/index.js:493-512 | only while started: every pending timeout and both heartbeat timers are cleared, no RPC timeout is left armed, and every table and handler set is emptied; handshake checks stay armed |
| SrcBridge.Bridge.WindDown | packages/mfe-bridge/src/index.js:497-502 | the timer table loses exactly the pending timeouts and the heartbeat handles, no RPC timeout is left armed, and no call is pending |
| SrcBridge.Bridge.Forget | packages/mfe-bridge/src/index.js:504-509 | handlers, responders, clients, statuses and status handlers are all emptied |
| SrcBridge.ScanTable | packages/mfe-bridge/src/index.js:461-465 | the loop over the status table yields exactly `Scan` of the table and one notice per expired client, in table order |
| SrcBridge.CreateBridge | packages/mfe-bridge/src/index.js:72-95 | an engine is created iff the options pass the checks, else the checks' message is thrown; a fresh engine has the checked settings |
| DistRules.OriginAllowed | packages/mfe-bridge/dist/index.js:40-47 | an origin passes iff there is a non-empty allowlist array holding it; with no allowlist nothing passes |
| DistRules.CheckOptions | packages/mfe-bridge/dist/index.js:75-92 | construction fails with "Invalid role: <role>", "channel is required" (unless a non-empty string) or "allowedOrigins must be a non-empty array", in that order; it succeeds iff all pass, and `autoHello` defaults to true |
| DistRules.RequestTimeout | packages/mfe-bridge/dist/index.js:190 | an absent timeout defaults to 6000; a given one, even 0, is kept |
| DistRules.RouteOf | packages/mfe-bridge/dist/index.js:245-322 | the routing order of this build, first match wins: a message is dropped iff it fails a gate (allowlisted origin, envelope, own channel) or has a truthy `replyTo` naming no pending call; it settles a call iff its `replyTo` names a pending one; an admitted message without `replyTo` is always routed: HELLO on a host, then a request iff it has a truthy `id` and a responder, else pub/sub; there is no PING route |
| DistRules.ReplyTakesPrecedence | packages/mfe-bridge/dist/index.js:266-274 | a gated message correlated with a pending call is taken as its reply whatever its type |
| DistRules.ReplyBody | packages/mfe-bridge/dist/index.js:297-308 | the reply carries the responder's value, or `{ error: true, message }` with the exception's message or "RPC error" |
| DistRules.BroadcastPostsInOrder | packages/mfe-bridge/dist/index.js:172-182 | broadcast's `i`-th post goes to the `i`-th client's window, at the given origin, else the client's, else the first allowed one |
| DistRules.TimersAreTimeouts | packages/mfe-bridge/dist/index.js:340-341 | the armed timers are exactly the pending calls' timeouts, so clearing those leaves no timer |
| DistRules.AwaitKeepsSound | packages/mfe-bridge/dist/index.js:208-214 | a new call under a fresh id, owning its freshly armed timeout, keeps the discipline, and the id is not pending yet |
| DistRules.EndCallKeepsSound | packages/mfe-bridge/dist/index.js:268-271 | a call that ends together with its own timeout keeps the discipline |
| DistRules.SkipUidKeepsSound | packages/mfe-bridge/dist/index.js:332 | drawing an id that no call uses keeps the discipline |
| DistBridge.Bridge.constructor | packages/mfe-bridge/dist/index.js:74-111 | a checked configuration gives an engine that is not started and has no handlers, calls, clients or timers |
| DistBridge.Bridge.On | packages/mfe-bridge/dist/index.js:117-121 | the handler joins the set for the type, which is created on first use |
| DistBridge.Bridge.Off | packages/mfe-bridge/dist/index.js:123-125 | the handler leaves the type's set if the set exists; otherwise nothing changes (also what `on`'s disposer does) |
| DistBridge.Bridge.Emit | packages/mfe-bridge/dist/index.js:127-140 | a child posts one envelope to its parent at the given origin, else the first allowed one, else `*`; a host posts exactly broadcast's messages |
| DistBridge.Bridge.Register | packages/mfe-bridge/dist/index.js:142-151 | throws "register() is host-only" or "iframe <id> without contentWindow" and changes nothing; otherwise records the client (a known id keeps its place) and binds its window |
| DistBridge.Bridge.Unregister | packages/mfe-bridge/dist/index.js:153-156 | a host forgets the client; a child changes nothing |
| DistBridge.Bridge.Send | packages/mfe-bridge/dist/index.js:158-170 | throws "send() is host-only" or "client not registered: <id>" and posts nothing; otherwise one envelope to the client's window at the given origin, else the client's, else the first allowed one |
| DistBridge.Bridge.Broadcast | packages/mfe-bridge/dist/index.js:172-182 | throws "broadcast() is host-only"; otherwise the outbox grows by exactly one post per registered client, in registration order |
| DistBridge.Bridge.Handle | packages/mfe-bridge/dist/index.js:184-185 | the responder replaces any earlier one for the type |
| DistBridge.Bridge.Unhandle | packages/mfe-bridge/dist/index.js:186 | the type has no responder afterwards |
| DistBridge.Bridge.Request | packages/mfe-bridge/dist/index.js:189-215 | rejected at once on a host, changing nothing; on a child, a fresh id not yet pending is posted to the parent and awaits its own one-shot timeout rejecting with "RPC timeout: <type>" |
| DistBridge.Bridge.HostRequest | packages/mfe-bridge/dist/index.js:217-243 | rejected at once off a host or for an unknown client, changing nothing; otherwise a fresh id is posted to the client and awaits a timeout rejecting with "RPC timeout: <type> -> <id>" |
| DistBridge.Bridge.OnMessage | packages/mfe-bridge/dist/index.js:245-322 | the route taken is `RouteOf` of the state before, and `Routed` holds: a dropped message changes nothing; each route has exactly its effect |
| DistBridge.Bridge.SettleReply | packages/mfe-bridge/dist/index.js:267-274 | the pending call is resolved with the payload, forgotten, and its timeout cleared; nothing else changes |
| DistBridge.Bridge.Greet | packages/mfe-bridge/dist/index.js:277-292 | a HELLO with an id and a source binds the window; READY carrying the channel goes back when there is a source; clients and calls are untouched |
| DistBridge.Bridge.Answer | packages/mfe-bridge/dist/index.js:295-310 | the responder gets the payload and the sender's origin; the answer is `<type>:reply` with its value or error, correlated by `replyTo`, at the sender's origin |
| DistBridge.Bridge.Publish | packages/mfe-bridge/dist/index.js:313-321 | every handler of the type gets the payload and `{ origin }`, in registration order |
| DistBridge.Bridge.Receive | packages/mfe-bridge/dist/index.js:325-327 | a stopped engine drops every message and changes nothing; a started one takes `RouteOf`'s route with exactly that route's effect (`Routed`); receiving never starts or stops the engine |
| DistBridge.Bridge.Fire | packages/mfe-bridge/dist/index.js:209-212 | every armed timer is a still-pending call's own timeout: firing forgets that call and rejects it, so a call settles at most once |
| DistBridge.Bridge.Start | packages/mfe-bridge/dist/index.js:324-335 | once only; a child with `autoHello` says HELLO with its configured or a fresh id to the first allowed origin, else `*` |
| DistBridge.Bridge.Destroy | packages/mfe-bridge/dist/index.js:337-346 | only while started: no timer is left armed, and calls, handlers, responders and clients are emptied |
| DistBridge.CreateBridge | packages/mfe-bridge/dist/index.js:74-92 | an engine is created iff the options pass the checks, else the checks' message is thrown; a fresh engine has the checked settings |

## Left out

- Browser detection: `isBrowser()` is taken to be true. The "called outside browser runtime" rejections of the earlier build's `request` and `hostRequest`, and the early returns of `emit`, `send`, `broadcast`, `start` and `destroy`, are not modelled.
- Windows: `postMessage` and `window.parent` are the `outbox` log. Adding and removing the `message` listener is the `started` flag.
- Clock: `Date.now()` is the `now` parameter. Timer delays are recorded, not enforced, and the environment fires any armed handle.
- Timer handles are handed out from 1 upwards and never reused, as browsers do. The engine tests a handle for truthiness, so 0 never occurs.
- Correlation ids: `uid()` (time in base 36, a dash, random digits) is modelled as `"uid-"` followed by a counter. Ids are then unique by construction; the source's ids are only unique with high probability.
- Asynchrony: an RPC responder's result and a pub/sub handler's work are taken as complete when the message is handled. Awaiting them, and messages arriving in between, are not modelled.
- The `debug` log and the window lookup it uses are left out (`dist/index.js:253-264`), because neither affects state.
- Exceptions from handlers are swallowed in the source. The model has handlers produce no effects, so there is nothing to swallow.
- Value types: message types and client ids are strings, numbers integers, and `null` is modelled as `undefined`. Non-string `type` or `clientId` values are not modelled.
- DistRules.CheckOptions: `autoHello: null` is read as absent (true). The destructuring default applies only to `undefined`, so the source reads `null` as false.
- DistRules.RequestTimeout: `timeoutMs: null` is read as absent (6000). The source passes `null` to `setTimeout`, which means 0.
- SrcBridge.Bridge.OffOnce: the `TypeError` thrown when the type's set is gone is reported with the message "TypeError". The engine's exact wording is not modelled.
- SrcBridge.Bridge.Greet: the READY post is appended to the outbox before the status change is recorded in `notices`. These are separate logs, so the order between them is not observable in the model.
- SrcBridge.ScanTable: `forEach` reads each record as it was before the scan. A status handler that changes the table during the scan is not modelled, because handlers have no effects here.
- Iframe elements: `retry` navigates through `iframeEl.src`, modelled as a `Reload` record. The element itself and a later change of its `src` by other code are not modelled.
- SrcBridge.Bridge.Register: follows the corrected behaviour and clears the client's previous handshake check before arming the new one. As written, the source leaves that check armed (see Findings); `SrcRules.RegisterTimersAsWritten` models the timer table as written.
- Weak references: `winToClient` is a `WeakMap` in both builds, modelled as a plain map that is never pruned. Garbage collection is not modelled.

Where the documented behaviour and the code differ, the model follows the code:
- `destroy` in the current engine clears pending timeouts and heartbeat timers but not handshake checks. Those checks stay armed. `register` does not require a started engine, so a client registered again after `destroy` gets a new loading record, and the old check, when it fires, turns that record offline.
- A HELLO marks any id ready, registered or not.
- Window bindings are never removed.
- The current engine calls a responder with the payload alone. The earlier build also passes `{ origin }`.
- The earlier build's READY payload also carries the channel.

## Findings

| source | as written | input that shows it | evidently intended | confidence | as-written member | corrected member |
|---|---|---|---|---|---|---|
| packages/mfe-bridge/src/index.js:219-240 | `register` replaces the client's record, whose handshake timer is null, before reading `c.handshakeTimer`. So the `clearTimeout` at line 233 never clears the previous registration's timer. | register "a" at 0 and again at 3000, both with a 4000 ms handshake timeout, and no HELLO. At 4000 the first check turns "a" offline with "handshake_timeout", although its new window runs until 7000. | Re-registering replaces the client's handshake check, as `retry` does at lines 354-360. | not executed | SrcRules.ReRegisterKeepsStaleCheck | SrcRules.RearmLeavesOneCheck |
