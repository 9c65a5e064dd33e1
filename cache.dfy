/** The shared cache (`django.core.cache.cache`, backed by Redis): a map from
    key to value with a per-key expiry, expired passively when read. */
module Cache {
  import opened Market

  /** `CryptoService.CACHE_TIMEOUT`, in seconds. */
  const CacheTimeout := 120

  datatype Expiry = Never | At(time: nat)

  datatype Entry = Entry(value: Payload, expiry: Expiry)

  type Entries = map<string, Entry>

  predicate Alive(e: Entry, now: nat) {
    e.expiry.Never? || now < e.expiry.time
  }

  /** `cache.get(key)`: the stored value while it has not expired, `None`
      otherwise. */
  function Lookup(m: Entries, key: string, now: nat): (r: Payload)
    ensures key in m && Alive(m[key], now) ==> r == m[key].value
    ensures key !in m || !Alive(m[key], now) ==> r == Null
  {
    if key in m && Alive(m[key], now) then m[key].value else Null
  }

  /** `cache.set(key, value, ttl)` at time `now`. */
  function Stored(m: Entries, key: string, value: Payload, ttl: nat, now: nat): (r: Entries)
    ensures forall t :: now <= t < now + ttl ==> Lookup(r, key, t) == value
    ensures forall t :: t >= now + ttl ==> Lookup(r, key, t) == Null
    ensures forall k, t :: k != key ==> Lookup(r, k, t) == Lookup(m, k, t)
  {
    m[key := Entry(value, At(now + ttl))]
  }

  class Store {
    var entries: Entries

    constructor ()
      ensures entries == map[]
    {
      entries := map[];
    }

    /** `cache.get(key)` on the shared object. */
    function Get(key: string, now: nat): (r: Payload)
      reads this
      ensures key in entries && Alive(entries[key], now) ==> r == entries[key].value
      ensures key !in entries || !Alive(entries[key], now) ==> r == Null
    {
      Lookup(entries, key, now)
    }

    method Set(key: string, value: Payload, ttl: nat, now: nat)
      modifies this
      ensures entries == Stored(old(entries), key, value, ttl, now)
    {
      entries := Stored(entries, key, value, ttl, now);
    }

    /** `cache.clear()`. `reachable` says whether the backend answers; when it
        does not, the call raises and the entries are left as they were. */
    method Clear(reachable: bool) returns (ok: bool)
      modifies this
      ensures ok == reachable
      ensures entries == if reachable then map[] else old(entries)
    {
      ok := reachable;
      if reachable {
        entries := map[];
      }
    }
  }
}
