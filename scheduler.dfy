/**
 * A virtual timer table standing in for `setTimeout`, `setInterval`, `clearTimeout` and
 * `clearInterval`.  Arming stores a task under a fresh handle; the environment later fires a
 * handle of its choice; clearing removes the handle.  Delays are recorded, not enforced.
 */
module Scheduler {
  import opened Wire

  type TimerId = nat

  /** The callbacks the engine schedules. */
  datatype Task =
    | HandshakeCheck(clientId: string)       // register/retry: still loading after the timeout?
    | RpcExpiry(reqId: string, reason: string) // request/hostRequest: reject with `reason`
    | HeartbeatScan                          // host heartbeat monitor (interval)
    | HeartbeatPing(clientId: string)        // child heartbeat sender (interval)

  /** A timer: its task, its delay or period in milliseconds, and whether it repeats. */
  datatype Timer = Timer(task: Task, delay: real, repeating: bool)

  type Timers = map<TimerId, Timer>

  /** `clearTimeout(h)` for a handle that may be missing; clearing a spent handle does nothing. */
  function Clear(timers: Timers, h: Option<TimerId>): (r: Timers)
    ensures h.None? ==> r == timers
    ensures h.Some? ==> r == timers - {h.value}
  {
    if h.Some? then timers - {h.value} else timers
  }

  /** The handles of the armed handshake checks for `clientId`. */
  function HandshakeChecks(timers: Timers, clientId: string): (r: set<TimerId>)
    ensures forall t :: t in r <==> t in timers && timers[t].task == HandshakeCheck(clientId)
  {
    set t | t in timers && timers[t].task == HandshakeCheck(clientId)
  }

  /** Every armed handle is below the next one handed out. */
  predicate HandlesFresh(timers: Timers, next: TimerId) {
    forall t :: t in timers ==> t < next
  }

  /** Every pending call has its own timeout armed. */
  predicate ExpiriesArmed(timers: Timers, pending: map<string, TimerId>) {
    forall k :: k in pending ==>
      pending[k] in timers && timers[pending[k]].task.RpcExpiry? && timers[pending[k]].task.reqId == k
  }

  /** Every armed RPC timeout is one-shot and is the timeout its call is waiting on. */
  predicate RpcOwned(timers: Timers, pending: map<string, TimerId>) {
    forall t :: t in timers && timers[t].task.RpcExpiry? ==>
      && !timers[t].repeating
      && timers[t].task.reqId in pending && pending[timers[t].task.reqId] == t
  }

  /** `destroy`'s loop over the pending calls: the timeout of each call is cleared. */
  method ClearTimeouts(timers: Timers, pending: map<string, TimerId>) returns (r: Timers)
    ensures r == timers - pending.Values
  {
    r := timers;
    var keys := pending.Keys;
    ghost var done: set<string> := {};
    while keys != {}
      invariant keys + done == pending.Keys && keys !! done
      invariant r == timers - (set k | k in done :: pending[k])
      decreases keys
    {
      var k :| k in keys;
      r := r - {pending[k]};
      keys := keys - {k};
      done := done + {k};
    }
    assert (set k | k in done :: pending[k]) == pending.Values;
  }
}
