/** `CryptoService` (views.py:17-74): cache-aside reads with a stale
    fallback, for one symbol's 24-hour stats and for the top list. The shared
    state is a cache and the one breaker; `World` is its value, `Fetch` the
    policy as a function of it, and class `CryptoService` the same policy
    carried out on the shared objects. */
module Service {
  import opened Market
  import opened Keys
  import opened Selection
  import opened Cache
  import opened Breaker

  datatype World = World(cache: Entries, breaker: BreakerState)

  /** What `get_crypto_data` / `get_crypto_list` return: the value and the
      `from_cache` flag. */
  datatype Fetched = Fetched(value: Payload, fromCache: bool)

  /** The outcome of one read: what the caller sees, the state afterwards,
      and whether the upstream fetch ran. */
  datatype Step = Step(result: Result<Fetched>, after: World, invoked: bool)

  /** The list path's processing inside the `try` (views.py:65-66): the
      comprehension iterates the payload, so an array yields its top pairs,
      `{}` iterates to nothing, and anything else raises a TypeError. */
  function TopOf(data: Payload): (r: Result<Payload>)
    ensures data.Array? ==> r == Ok(Array(TopPairs(data.items)))
    ensures data == EmptyObject ==> r == Ok(Array([]))
    ensures !data.Array? && data != EmptyObject ==> r == Err(Malformed)
  {
    match data
    case Array(items) => Ok(Array(TopPairs(items)))
    case EmptyObject => Ok(Array(TopPairs([])))
    case _ => Err(Malformed)
  }

  /** What the `try` block makes of the guarded call's outcome: the value to
      cache, or the exception that sends control to the stale fallback. */
  function Refresh(q: Request, call: Result<Payload>): (r: Result<Payload>)
    ensures call.Err? ==> r == Err(call.error)
    ensures call.Ok? && q.Symbol? ==> r == call
    ensures call.Ok? && q == TopList ==> r == TopOf(call.value)
  {
    match call
    case Err(e) => Err(e)
    case Ok(data) =>
      match q
      case Symbol(_) => Ok(data)
      case TopList => TopOf(data)
  }

  /** A hit is a live entry under the request's key holding a truthy value. */
  predicate Hit(w: World, q: Request, now: nat): (r: bool)
    ensures r <==> LiveKey(q) in w.cache && Alive(w.cache[LiveKey(q)], now) && Truthy(w.cache[LiveKey(q)].value)
  {
    Truthy(Lookup(w.cache, LiveKey(q), now))
  }

  /** One read of request `q` at time `now`; `upstream` is what the fetch
      returns if the breaker lets it run. */
  function Fetch(w: World, q: Request, now: nat, upstream: Result<Payload>): (s: Step)
    // A truthy live value is returned as it is: no upstream call, nothing changes.
    ensures Hit(w, q, now) ==>
      s == Step(Ok(Fetched(Lookup(w.cache, LiveKey(q), now), true)), w, false)
    // Otherwise exactly one call goes through the shared breaker.
    ensures !Hit(w, q, now) ==>
      && s.invoked == !ShortCircuits(w.breaker, now)
      && s.after.breaker == Guarded(w.breaker, now, upstream).after
    // A refresh that yields a value caches it under the live key alone, for 120 s.
    ensures !Hit(w, q, now) && Refresh(q, Guarded(w.breaker, now, upstream).result).Ok? ==>
      var v := Refresh(q, Guarded(w.breaker, now, upstream).result).value;
      && s.result == Ok(Fetched(v, false))
      && (forall t :: now <= t < now + CacheTimeout ==> Lookup(s.after.cache, LiveKey(q), t) == v)
      && (forall t :: t >= now + CacheTimeout ==> Lookup(s.after.cache, LiveKey(q), t) == Null)
      && (forall k, t :: k != LiveKey(q) ==> Lookup(s.after.cache, k, t) == Lookup(w.cache, k, t))
    // A refresh that fails leaves the cache alone and falls back to a truthy stale value.
    ensures !Hit(w, q, now) && Refresh(q, Guarded(w.breaker, now, upstream).result).Err? ==>
      var stale := Lookup(w.cache, StaleKey(LiveKey(q)), now);
      && s.after.cache == w.cache
      && s.result == if Truthy(stale) then Ok(Fetched(stale, true))
                     else Err(Refresh(q, Guarded(w.breaker, now, upstream).result).error)
  {
    var key := LiveKey(q);
    var cached := Lookup(w.cache, key, now);
    if Truthy(cached) then Step(Ok(Fetched(cached, true)), w, false)
    else
      var call := Guarded(w.breaker, now, upstream);
      match Refresh(q, call.result)
      case Ok(v) =>
        Step(Ok(Fetched(v, false)), World(Stored(w.cache, key, v, CacheTimeout, now), call.after), call.invoked)
      case Err(e) =>
        var stale := Lookup(w.cache, StaleKey(key), now);
        if Truthy(stale) then Step(Ok(Fetched(stale, true)), w.(breaker := call.after), call.invoked)
        else Step(Err(e), w.(breaker := call.after), call.invoked)
  }

  /** The outcome of the admin reset. */
  datatype Cleared = Cleared(after: World, ok: bool)

  /** `cache.clear()` then `breaker.reset()` (views.py:147-148). If the clear
      raises, the reset is never reached. */
  function ClearAll(w: World, reachable: bool): (c: Cleared)
    ensures c.ok == reachable
    ensures reachable ==>
      && (forall k, t :: Lookup(c.after.cache, k, t) == Null)
      && c.after.breaker.state == Closed && c.after.breaker.failures == 0
    ensures !reachable ==> c.after == w
  {
    if reachable then Cleared(World(map[], ResetState(w.breaker)), true)
    else Cleared(w, false)
  }

  /** Within 120 s of a refresh that cached a truthy value, the next read of
      the same request is that value, from the cache, with no upstream call. */
  lemma ServedFromCacheWithinTtl(w: World, q: Request, t1: nat, up1: Result<Payload>, t2: nat, up2: Result<Payload>)
    requires !Hit(w, q, t1)
    requires Refresh(q, Guarded(w.breaker, t1, up1).result).Ok?
    requires Truthy(Refresh(q, Guarded(w.breaker, t1, up1).result).value)
    requires t1 <= t2 < t1 + CacheTimeout
    ensures var s1 := Fetch(w, q, t1, up1);
      Fetch(s1.after, q, t2, up2) == Step(Ok(Fetched(s1.result.value.value, true)), s1.after, false)
  {
    var s1 := Fetch(w, q, t1, up1);
    assert Lookup(s1.after.cache, LiveKey(q), t2) == s1.result.value.value;
  }

  /** A falsy refreshed value (a top list with no USDT pair, say) is cached
      but never served: the next read misses and calls through the breaker
      again. */
  lemma FalsyValueIsRefetched(w: World, q: Request, t1: nat, up1: Result<Payload>, t2: nat, up2: Result<Payload>)
    requires !Hit(w, q, t1)
    requires Refresh(q, Guarded(w.breaker, t1, up1).result).Ok?
    requires !Truthy(Refresh(q, Guarded(w.breaker, t1, up1).result).value)
    ensures var s1 := Fetch(w, q, t1, up1);
      Fetch(s1.after, q, t2, up2).invoked == !ShortCircuits(s1.after.breaker, t2)
  {
    var s1 := Fetch(w, q, t1, up1);
    var v := s1.result.value.value;
    assert Lookup(s1.after.cache, LiveKey(q), t2) == v || Lookup(s1.after.cache, LiveKey(q), t2) == Null;
  }

  /** A list refresh from an upstream array caches and returns its top pairs:
      USDT pairs of the snapshot, min(20, #USDT pairs) of them, largest volume
      first, ties in upstream order. */
  lemma ListRefreshIsTopPairs(w: World, now: nat, items: seq<Ticker>)
    requires !Hit(w, TopList, now) && !ShortCircuits(w.breaker, now)
    ensures var s := Fetch(w, TopList, now, Ok(Array(items)));
      && s.result.Ok? && !s.result.value.fromCache && s.result.value.value.Array?
      && var r := s.result.value.value.items;
      && (forall t :: t in r ==> IsUsdtPair(t) && t in items)
      && |r| == (if |UsdtPairs(items)| <= TopN then |UsdtPairs(items)| else TopN)
      && SortedByVolume(r)
      && (forall v :: WithVolume(r, v) <= WithVolume(UsdtPairs(items), v))
  {
    TopPairsMembers(items);
    TopPairsOrder(items);
  }

  /** After a successful reset, the next read of any request goes upstream
      and returns what the refresh makes of the upstream outcome, as if there
      were neither cache nor breaker: no short-circuit from earlier failures,
      no data cached before the reset, no stale fallback. */
  lemma ResetThenFetch(w: World, q: Request, now: nat, upstream: Result<Payload>)
    ensures var s := Fetch(ClearAll(w, true).after, q, now, upstream);
      && s.invoked
      && s.result == match Refresh(q, upstream)
                     case Ok(v) => Ok(Fetched(v, false))
                     case Err(e) => Err(e)
  {
    var w1 := ClearAll(w, true).after;
    assert Lookup(w1.cache, LiveKey(q), now) == Null;
    assert Lookup(w1.cache, StaleKey(LiveKey(q)), now) == Null;
  }

  /** The shared state of views.py: the module-level `cache` and `breaker`,
      held by reference. */
  class CryptoService {
    const cache: Store
    const breaker: CircuitBreaker

    constructor (cache: Store, breaker: CircuitBreaker)
      ensures this.cache == cache && this.breaker == breaker
    {
      this.cache := cache;
      this.breaker := breaker;
    }

    function State(): World
      reads cache, breaker
    {
      World(cache.entries, breaker.Snapshot())
    }

    /** `get_crypto_data(symbol)` */
    method GetCryptoData(symbol: string, now: nat, upstream: Result<Payload>) returns (r: Result<Fetched>)
      modifies cache, breaker
      ensures var s := Fetch(old(State()), Symbol(symbol), now, upstream);
        r == s.result && State() == s.after
    {
      var key := LiveKey(Symbol(symbol));
      var cached := cache.Get(key, now);
      if Truthy(cached) {
        return Ok(Fetched(cached, true));
      }
      var data := breaker.Call(now, upstream);
      match data {
        case Ok(v) =>
          cache.Set(key, v, CacheTimeout, now);
          r := Ok(Fetched(v, false));
        case Err(e) =>
          var stale := cache.Get(StaleKey(key), now);
          if Truthy(stale) {
            r := Ok(Fetched(stale, true));
          } else {
            r := Err(e);
          }
      }
    }

    /** `get_crypto_list()` */
    method GetCryptoList(now: nat, upstream: Result<Payload>) returns (r: Result<Fetched>)
      modifies cache, breaker
      ensures var s := Fetch(old(State()), TopList, now, upstream);
        r == s.result && State() == s.after
    {
      var key := ListKey;
      var cached := cache.Get(key, now);
      if Truthy(cached) {
        return Ok(Fetched(cached, true));
      }
      var data := breaker.Call(now, upstream);
      var top := if data.Ok? then TopOf(data.value) else Err(data.error);
      match top {
        case Ok(v) =>
          cache.Set(key, v, CacheTimeout, now);
          r := Ok(Fetched(v, false));
        case Err(e) =>
          var stale := cache.Get(StaleKey(key), now);
          if Truthy(stale) {
            r := Ok(Fetched(stale, true));
          } else {
            r := Err(e);
          }
      }
    }
  }
}
