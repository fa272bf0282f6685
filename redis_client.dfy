/**
 * The resilient Redis client: one process-wide client handle, a connectivity flag
 * that the client's events drive, the reconnect back-off policy, and the "safe
 * operation" wrapper through which every cache command goes, so that a backend
 * failure becomes a fallback value and never reaches the caller.
 *
 * The Redis server itself is modelled by the map `store` from cache key to entry.
 * Expiry is recorded with each entry but never fires: time is not modelled.
 */
module RedisClient {
  import opened Wrappers
  import opened Json
  import Glob

  /** A cached response: the JSON payload and the expiry, in seconds, it was stored with. */
  datatype Entry = Entry(payload: Json, ttl: int)

  /** What running an operation against the backend gives: its value, or the error it threw. */
  datatype Attempt<T> = Completed(value: T) | Threw(message: string)

  /**
   * `safeRedisOperation`: the operation runs only when there is a client and the
   * flag says it is connected; a thrown error is absorbed into `fallback`.
   * The result is always either the fallback or the value the operation returned.
   */
  function SafeOperation<T>(present: bool, connected: bool, attempt: Attempt<T>, fallback: T): (r: T)
    ensures !present || !connected ==> r == fallback
    ensures present && connected && attempt.Completed? ==> r == attempt.value
    ensures attempt.Threw? ==> r == fallback
    ensures r == fallback || attempt == Completed(r)
  {
    if !present || !connected then fallback
    else
      match attempt
      case Completed(v) => v
      case Threw(_) => fallback
  }

  /** The answer of the reconnect strategy: stop reconnecting, or retry after a delay. */
  datatype Reconnect = GiveUp | RetryAfter(delayMs: int)

  const MaxRetries := 10
  const DelayStepMs := 100
  const DelayCapMs := 3000

  function Min(a: int, b: int): int {
    if a <= b then a else b
  }

  /**
   * `reconnectStrategy(retries)`: give up once more than ten retries have been
   * made; otherwise wait `min(retries * 100, 3000)` ms. With at most ten retries
   * the 3000 ms cap never applies, so every accepted delay is at most one second.
   */
  function ReconnectStrategy(retries: nat): (r: Reconnect)
    ensures r.GiveUp? <==> retries > MaxRetries
    ensures r.RetryAfter? ==> r.delayMs == Min(retries * DelayStepMs, DelayCapMs)
    ensures r.RetryAfter? ==> 0 <= r.delayMs <= 1000 && r.delayMs == retries * DelayStepMs
  {
    if retries > MaxRetries then GiveUp
    else RetryAfter(Min(retries * DelayStepMs, DelayCapMs))
  }

  /** Longer runs of failed attempts never wait less. */
  lemma ReconnectDelayMonotone(a: nat, b: nat)
    requires a <= b <= MaxRetries
    ensures ReconnectStrategy(a).delayMs <= ReconnectStrategy(b).delayMs
  {
  }

  /** The events the client emits. */
  datatype Event = Error(message: string) | Connect | Disconnect | Reconnecting

  /** The event handlers' effect on `isRedisConnected`. */
  function NextConnected(connected: bool, e: Event): (c: bool)
    ensures e.Reconnecting? ==> c == connected
    ensures !e.Reconnecting? ==> (c <==> e.Connect?)
  {
    match e
    case Error(_) => false
    case Connect => true
    case Disconnect => false
    case Reconnecting => connected
  }

  /** The flag after a run of events, handled in order. */
  function ConnectedAfter(connected: bool, events: seq<Event>): bool
    decreases |events|
  {
    if |events| == 0 then connected
    else NextConnected(ConnectedAfter(connected, events[..|events| - 1]), events[|events| - 1])
  }

  /** Event `i` is not `reconnecting` and only `reconnecting` events follow it. */
  predicate LastDecisive(events: seq<Event>, i: int)
    requires 0 <= i < |events|
  {
    !events[i].Reconnecting? && forall j :: i < j < |events| ==> events[j].Reconnecting?
  }

  /** A run of `reconnecting` events leaves the flag as it was. */
  lemma {:induction false} ReconnectingKeepsFlag(connected: bool, events: seq<Event>)
    requires forall i :: 0 <= i < |events| ==> events[i].Reconnecting?
    ensures ConnectedAfter(connected, events) == connected
    decreases |events|
  {
    if |events| > 0 {
      var n := |events| - 1;
      ReconnectingKeepsFlag(connected, events[..n]);
    }
  }

  /**
   * After any run of events the flag is decided by the last event other than
   * `reconnecting`: it is true iff that event is `connect`.
   */
  lemma {:induction false} LastDecisiveEventDecides(connected: bool, events: seq<Event>, i: int)
    requires 0 <= i < |events| && LastDecisive(events, i)
    ensures ConnectedAfter(connected, events) <==> events[i].Connect?
    decreases |events|
  {
    var n := |events| - 1;
    var front := events[..n];
    if i < n {
      assert events[n].Reconnecting?;
      assert LastDecisive(front, i) by {
        assert forall j :: i < j < n ==> front[j] == events[j];
      }
      LastDecisiveEventDecides(connected, front, i);
    }
  }

  /** The keys of `store` that `pattern` matches: what KEYS answers. */
  function MatchingKeys(store: map<string, Entry>, pattern: string): (keys: set<string>)
    ensures forall k :: k in keys <==> k in store && Glob.Match(pattern, k)
  {
    set k | k in store && Glob.Match(pattern, k)
  }

  /** The module-level `redisClient` and `isRedisConnected`, with the server's contents. */
  class Client {
    /** `redisClient !== null` */
    var present: bool
    /** `isRedisConnected` */
    var connected: bool
    /** the keys and entries held by the Redis server */
    var store: map<string, Entry>

    /** The condition `safeRedisOperation` checks before running anything. */
    predicate Ready()
      reads this
    {
      present && connected
    }

    /**
     * `initializeRedis`: when the first connect succeeds the `connect` event sets
     * the flag; when it throws, the handle is dropped and the flag is false.
     */
    constructor Initialize(connectSucceeds: bool, existing: map<string, Entry>)
      ensures present == connectSucceeds && connected == connectSucceeds
      ensures store == existing
    {
      var handle, flag := true, false;
      if connectSucceeds {
        flag := NextConnected(flag, Connect);
      } else {
        handle, flag := false, false;
      }
      present, connected, store := handle, flag, existing;
    }

    /** One event handler run. */
    method OnEvent(e: Event)
      modifies this`connected
      ensures connected == NextConnected(old(connected), e)
    {
      connected := NextConnected(connected, e);
    }

    /** `safeRedisOperation(client => client.get(key), null)`; `fault` says whether the command throws. */
    method Get(key: string, fault: bool) returns (r: Option<Json>)
      ensures r.Some? <==> Ready() && !fault && key in store
      ensures r.Some? ==> r.value == store[key].payload
    {
      var found := if key in store then Some(store[key].payload) else None;
      r := SafeOperation(present, connected, if fault then Threw("GET failed") else Completed(found), None);
    }

    /**
     * `safeRedisOperation(client => client.setEx(key, ttl, value), null)`. Redis
     * refuses a non-positive expiry with an error, which the wrapper absorbs.
     */
    method SetEx(key: string, ttl: int, payload: Json, fault: bool)
      modifies this`store
      ensures store == if Ready() && !fault && ttl > 0 then old(store)[key := Entry(payload, ttl)] else old(store)
    {
      var stored := store[key := Entry(payload, ttl)];
      var outcome := if fault || ttl <= 0 then Threw("SETEX failed") else Completed(stored);
      store := SafeOperation(present, connected, outcome, store);
    }

    /** `safeRedisOperation(client => client.keys(pattern), [])`. */
    method Keys(pattern: string, fault: bool) returns (keys: set<string>)
      ensures forall k :: k in keys <==> Ready() && !fault && k in store && Glob.Match(pattern, k)
    {
      keys := SafeOperation(present, connected, if fault then Threw("KEYS failed") else Completed(MatchingKeys(store, pattern)), {});
    }

    /** `safeRedisOperation(client => client.del(keys), null)`. */
    method Del(keys: set<string>, fault: bool)
      modifies this`store
      ensures store == if Ready() && !fault then old(store) - keys else old(store)
    {
      store := SafeOperation(present, connected, if fault then Threw("DEL failed") else Completed(store - keys), store);
    }
  }
}
