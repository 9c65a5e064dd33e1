/** The API views of views.py:77-151 as far as they shape the core: the
    detail view upper-cases the symbol, each view maps a failed read to an
    HTTP status, and the admin view clears the cache and resets the breaker.
    Building the JSON bodies is not modelled. */
module Views {
  import opened Market
  import opened Text
  import opened Keys
  import opened Cache
  import opened Breaker
  import opened Service

  const StatusOk := 200
  const StatusBadRequest := 400
  const StatusServerError := 500
  const StatusUnavailable := 503

  /** The detail view's handlers as written (views.py:98-107): only a
      `requests` exception is reported as 503; every other exception,
      including the breaker's own CircuitBreakerError, as 400. */
  function DetailErrorStatus(e: Error): (status: int)
    ensures status == StatusUnavailable <==> e == RequestError
    ensures status == StatusBadRequest <==> e != RequestError
  {
    if e == RequestError then StatusUnavailable else StatusBadRequest
  }

  /** The evident intent of the same handlers: a failure to get data from
      upstream, whether the fetch failed or the breaker refused it, is 503
      (with the breaker's state in the body); only a malformed payload is 400. */
  function IntendedDetailErrorStatus(e: Error): (status: int)
    ensures status == StatusUnavailable <==> (e == RequestError || e == CircuitOpen)
    ensures status == StatusBadRequest <==> e == Malformed
  {
    match e
    case Malformed => StatusBadRequest
    case RequestError => StatusUnavailable
    case CircuitOpen => StatusUnavailable
  }

  /** With the breaker open and cooling down and no stale value, the detail
      view as written answers 400 Bad Request for a well-formed symbol,
      where a 503 was intended. */
  lemma OpenCircuitAnsweredAsBadRequest(symbol: string, now: nat, upstream: Result<Payload>)
    ensures var w := World(map[], BreakerState(Open, FailMax, now));
      var s := Fetch(w, Symbol(Upper(symbol)), now, upstream);
      && s.result == Err(CircuitOpen) && !s.invoked
      && DetailErrorStatus(s.result.error) == StatusBadRequest
      && IntendedDetailErrorStatus(s.result.error) == StatusUnavailable
  {
    var w := World(map[], BreakerState(Open, FailMax, now));
    assert Lookup(w.cache, LiveKey(Symbol(Upper(symbol))), now) == Null;
  }

  /** `CryptoDetailView.get`: reads the upper-cased symbol; a failed read
      becomes an error status (the intended mapping). */
  method CryptoDetailGet(service: CryptoService, symbol: string, now: nat, upstream: Result<Payload>)
    returns (r: Result<Fetched>, status: int)
    modifies service.cache, service.breaker
    ensures var s := Fetch(old(service.State()), Symbol(Upper(symbol)), now, upstream);
      r == s.result && service.State() == s.after
    ensures status == if r.Ok? then StatusOk else IntendedDetailErrorStatus(r.error)
  {
    r := service.GetCryptoData(Upper(symbol), now, upstream);
    status := if r.Ok? then StatusOk else IntendedDetailErrorStatus(r.error);
  }

  /** `CryptoListView.get`: every failed read is 503. */
  method CryptoListGet(service: CryptoService, now: nat, upstream: Result<Payload>)
    returns (r: Result<Fetched>, status: int)
    modifies service.cache, service.breaker
    ensures var s := Fetch(old(service.State()), TopList, now, upstream);
      r == s.result && service.State() == s.after
    ensures status == if r.Ok? then StatusOk else StatusUnavailable
  {
    r := service.GetCryptoList(now, upstream);
    status := if r.Ok? then StatusOk else StatusUnavailable;
  }

  /** `ClearCacheView.post`: clear, then reset; a clear that raises skips the
      reset and answers 500. */
  method ClearCachePost(service: CryptoService, reachable: bool) returns (status: int)
    modifies service.cache, service.breaker
    ensures var c := ClearAll(old(service.State()), reachable);
      service.State() == c.after && status == if c.ok then StatusOk else StatusServerError
  {
    var ok := service.cache.Clear(reachable);
    if !ok {
      return StatusServerError;
    }
    service.breaker.Reset();
    status := StatusOk;
  }

  /** One request to the API. */
  datatype Event =
    | GetSymbol(symbol: string, now: nat, upstream: Result<Payload>)
    | GetList(now: nat, upstream: Result<Payload>)
    | PostClear(reachable: bool)

  function Handle(w: World, e: Event): World {
    match e
    case GetSymbol(symbol, now, upstream) => Fetch(w, Symbol(Upper(symbol)), now, upstream).after
    case GetList(now, upstream) => Fetch(w, TopList, now, upstream).after
    case PostClear(reachable) => ClearAll(w, reachable).after
  }

  function Replay(w: World, events: seq<Event>): World
    decreases |events|
  {
    if events == [] then w else Replay(Handle(w, events[0]), events[1..])
  }

  predicate NoStaleEntries(c: Entries) {
    forall k :: k in c ==> !EndsWith(k, StaleSuffix)
  }

  /** The detail view treats symbols that agree up to case as one. */
  lemma SymbolCaseIgnored(w: World, a: string, b: string, now: nat, upstream: Result<Payload>)
    requires AgreeUpToCase(a, b)
    ensures Fetch(w, Symbol(Upper(a)), now, upstream) == Fetch(w, Symbol(Upper(b)), now, upstream)
  {
    SameKeyIgnoringCase(a, b);
    LiveKeyInjective(Symbol(Upper(a)), Symbol(Upper(b)));
  }

  /** Nothing the API does writes a "_stale" key: the only write is of a
      live key, and live keys of upper-cased symbols never end in "_stale". */
  lemma {:induction false} StaleKeysNeverWritten(w: World, events: seq<Event>)
    requires NoStaleEntries(w.cache)
    ensures NoStaleEntries(Replay(w, events).cache)
    decreases |events|
  {
    if events != [] {
      var w1 := Handle(w, events[0]);
      match events[0] {
        case GetSymbol(symbol, now, upstream) =>
          LiveKeyNeverStale(Symbol(Upper(symbol)));
        case GetList(now, upstream) =>
          LiveKeyNeverStale(TopList);
        case PostClear(reachable) =>
      }
      assert NoStaleEntries(w1.cache);
      StaleKeysNeverWritten(w1, events[1..]);
    }
  }

  /** So, starting from a cache without stale entries, the stale fallback
      never serves anything: a read from the cache is always a live hit, and
      a miss whose refresh fails surfaces the error. */
  lemma StaleFallbackNeverServes(w: World, events: seq<Event>, q: Request, now: nat, upstream: Result<Payload>)
    requires NoStaleEntries(w.cache)
    ensures var w1 := Replay(w, events);
      var s := Fetch(w1, q, now, upstream);
      && (s.result.Ok? && s.result.value.fromCache ==> Hit(w1, q, now))
      && (!Hit(w1, q, now) && Refresh(q, Guarded(w1.breaker, now, upstream).result).Err? ==> s.result.Err?)
  {
    StaleKeysNeverWritten(w, events);
    var w1 := Replay(w, events);
    var k := StaleKey(LiveKey(q));
    assert k[|k| - |StaleSuffix|..] == StaleSuffix;
    assert Lookup(w1.cache, k, now) == Null;
  }

  /** The breaker is one for all requests: three failed reads of one symbol
      from a fresh breaker open it, and for the next 60 s a read of any other
      symbol or of the top list that misses the cache is refused without an
      upstream call. */
  lemma OneBreakerForAllRequests(w: World, p: Request, t1: nat, t2: nat, t3: nat,
                                 e1: Error, e2: Error, e3: Error,
                                 q: Request, t4: nat, upstream: Result<Payload>)
    requires w.breaker.state == Closed && w.breaker.failures == 0
    requires !Hit(w, p, t1) && !Hit(w, p, t2) && !Hit(w, p, t3)
    requires t3 <= t4 < t3 + ResetTimeout && !Hit(w, q, t4)
    ensures var w1 := Fetch(w, p, t1, Err(e1)).after;
      var w2 := Fetch(w1, p, t2, Err(e2)).after;
      var w3 := Fetch(w2, p, t3, Err(e3)).after;
      var s := Fetch(w3, q, t4, upstream);
      && w3.breaker.state == Open
      && !s.invoked
      && var stale := Lookup(w.cache, StaleKey(LiveKey(q)), t4);
         s.result == if Truthy(stale) then Ok(Fetched(stale, true)) else Err(CircuitOpen)
  {
    var w1 := Fetch(w, p, t1, Err(e1)).after;
    var w2 := Fetch(w1, p, t2, Err(e2)).after;
    var w3 := Fetch(w2, p, t3, Err(e3)).after;
    assert w1.cache == w.cache && w1.breaker.failures == 1;
    assert w2.cache == w.cache && w2.breaker.failures == 2;
    assert w3.cache == w.cache && w3.breaker == BreakerState(Open, 3, t3);
  }
}
