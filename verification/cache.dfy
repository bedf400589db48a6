/** The client-side response cache of the API gateway: a map from cache key to
    (timestamp, data, ttl) with lazy expiry on read, overwrite on write and
    invalidation by key prefix, plus the in-flight table that keeps at most one
    pending request per key. Time is passed in as `now` (milliseconds). */
module ResponseCache {
  import opened Types

  /** The JSON values a response can carry (the `any` of the source). */
  datatype Json =
    | JNull
    | JBool(b: bool)
    | JNum(n: int)
    | JStr(s: string)
    | JArr(items: seq<Json>)
    | JObj(fields: seq<(string, Json)>)

  /** JavaScript truthiness: null, false, 0 and "" are falsy; arrays and
      objects are truthy even when empty. */
  predicate Truthy(v: Json) {
    match v
    case JNull => false
    case JBool(b) => b
    case JNum(n) => n != 0
    case JStr(s) => s != ""
    case JArr(_) => true
    case JObj(_) => true
  }

  /** One cached response; `ttl` is in milliseconds. */
  datatype CacheItem = CacheItem(timestamp: int, data: Json, ttl: int)

  /** An entry is stale once its age is strictly greater than its ttl. */
  predicate Expired(item: CacheItem, now: int) {
    now - item.timestamp > item.ttl
  }

  // ---------------------------------------------------------------------------
  // The cache as a value: what each operation does to the map
  // ---------------------------------------------------------------------------

  /** The value `get(key)` returns at time `now`. */
  function Read(c: map<string, CacheItem>, key: string, now: int): (r: Option<Json>)
    ensures r.Some? <==> key in c && !Expired(c[key], now)
    ensures r.Some? ==> r.value == c[key].data
  {
    if key in c && !Expired(c[key], now) then Some(c[key].data) else None
  }

  /** The map left behind by `get(key)`: an expired entry is purged. */
  function AfterRead(c: map<string, CacheItem>, key: string, now: int): (c': map<string, CacheItem>)
    ensures key in c && Expired(c[key], now) ==> key !in c'
    ensures forall k :: k in c' <==> k in c && (k != key || !Expired(c[k], now))
    ensures forall k :: k in c' ==> c'[k] == c[k]
  {
    if key in c && Expired(c[key], now) then c - {key} else c
  }

  /** The map after `set(key, data, ttlSeconds)` at time `now`. */
  function Store(c: map<string, CacheItem>, key: string, data: Json, ttlSeconds: int, now: int)
    : (c': map<string, CacheItem>)
    ensures c'.Keys == c.Keys + {key}
    ensures c'[key] == CacheItem(now, data, ttlSeconds * 1000)
    ensures forall k :: k in c && k != key ==> c'[k] == c[k]
  {
    c[key := CacheItem(now, data, ttlSeconds * 1000)]
  }

  /** The map after `invalidate(prefix)`. */
  function Invalidated(c: map<string, CacheItem>, prefix: string): (c': map<string, CacheItem>)
    ensures forall k :: k in c' <==> k in c && !StartsWith(k, prefix)
    ensures forall k :: k in c' ==> c'[k] == c[k]
  {
    map k | k in c && !StartsWith(k, prefix) :: c[k]
  }

  /** The map after invalidating each prefix of `prefixes` in turn. */
  function InvalidatedAll(c: map<string, CacheItem>, prefixes: seq<string>): (c': map<string, CacheItem>)
    decreases |prefixes|
  {
    if prefixes == [] then c else InvalidatedAll(Invalidated(c, prefixes[0]), prefixes[1..])
  }

  lemma {:induction false} InvalidatedAllSpec(c: map<string, CacheItem>, prefixes: seq<string>)
    ensures forall k :: k in InvalidatedAll(c, prefixes) <==>
      k in c && forall i :: 0 <= i < |prefixes| ==> !StartsWith(k, prefixes[i])
    ensures forall k :: k in InvalidatedAll(c, prefixes) ==> InvalidatedAll(c, prefixes)[k] == c[k]
    decreases |prefixes|
  {
    if prefixes != [] {
      var c1 := Invalidated(c, prefixes[0]);
      InvalidatedAllSpec(c1, prefixes[1..]);
      forall k ensures k in InvalidatedAll(c, prefixes) <==>
        k in c && forall i :: 0 <= i < |prefixes| ==> !StartsWith(k, prefixes[i])
      {
        if k in c && forall i :: 0 <= i < |prefixes| ==> !StartsWith(k, prefixes[i]) {
          assert !StartsWith(k, prefixes[0]);
          forall i | 0 <= i < |prefixes[1..]| ensures !StartsWith(k, prefixes[1..][i]) {
            assert prefixes[1..][i] == prefixes[i + 1];
          }
        }
        if k in InvalidatedAll(c, prefixes) {
          forall i | 0 <= i < |prefixes| ensures !StartsWith(k, prefixes[i]) {
            if i > 0 { assert prefixes[i] == prefixes[1..][i - 1]; }
          }
        }
      }
    }
  }

  // ---------------------------------------------------------------------------
  // Properties of the cache as a value
  // ---------------------------------------------------------------------------

  /** A fresh write is read back until its ttl has elapsed, and not after. */
  lemma ReadAfterStore(c: map<string, CacheItem>, key: string, data: Json, ttlSeconds: int, t0: int, now: int)
    ensures Read(Store(c, key, data, ttlSeconds, t0), key, now) ==
      if now - t0 <= ttlSeconds * 1000 then Some(data) else None
  {
  }

  /** Writing one key is invisible to reads of every other key. */
  lemma ReadOtherAfterStore(c: map<string, CacheItem>, key: string, other: string, data: Json,
                            ttlSeconds: int, t0: int, now: int)
    requires other != key
    ensures Read(Store(c, key, data, ttlSeconds, t0), other, now) == Read(c, other, now)
  {
  }

  /** Invalidating the same prefix twice is the same as invalidating it once. */
  lemma InvalidateIdempotent(c: map<string, CacheItem>, prefix: string)
    ensures Invalidated(Invalidated(c, prefix), prefix) == Invalidated(c, prefix)
  {
  }

  /** After invalidation no key with the prefix can be read, and every other
      read is unaffected. */
  lemma ReadAfterInvalidate(c: map<string, CacheItem>, prefix: string, key: string, now: int)
    ensures StartsWith(key, prefix) ==> Read(Invalidated(c, prefix), key, now) == None
    ensures !StartsWith(key, prefix) ==> Read(Invalidated(c, prefix), key, now) == Read(c, key, now)
  {
  }

  /** Lazy expiry never changes what a later read of any key returns. */
  lemma {:induction false} PurgeIsUnobservable(c: map<string, CacheItem>, key: string, now: int, other: string)
    ensures Read(AfterRead(c, key, now), other, now) == Read(c, other, now)
  {
    if other == key && key in c && Expired(c[key], now) {
      assert other !in AfterRead(c, key, now);
    }
  }

  // ---------------------------------------------------------------------------
  // The in-flight table
  // ---------------------------------------------------------------------------

  /** The answer of `fetchDeduped` when it is entered: either the pending
      request already registered for the key, or a freshly started one. */
  datatype Begin = Existing(ticket: nat) | Started(ticket: nat)

  /** The in-flight table as a value: pending tickets by key, and the number of
      underlying fetches started so far (which is also the next ticket). */
  datatype Flights = Flights(pending: map<string, nat>, started: nat)

  /** Entering `fetchDeduped(key, fetchFn)`. */
  function Enter(f: Flights, key: string): (r: (Begin, Flights))
    ensures key in f.pending ==> r.0 == Existing(f.pending[key]) && r.1 == f
    ensures key !in f.pending ==>
      r.0 == Started(f.started) && r.1.started == f.started + 1 && key in r.1.pending &&
      r.1.pending[key] == f.started &&
      forall k :: k != key ==> (k in r.1.pending <==> k in f.pending)
    ensures forall k :: k in f.pending ==> k in r.1.pending && r.1.pending[k] == f.pending[k]
  {
    if key in f.pending then (Existing(f.pending[key]), f)
    else (Started(f.started), Flights(f.pending[key := f.started], f.started + 1))
  }

  /** The `finally` of a fetch: the key leaves the table. */
  function Leave(f: Flights, key: string): (r: Flights)
    ensures key !in r.pending && r.started == f.started
    ensures forall k :: k != key ==> (k in r.pending <==> k in f.pending)
    ensures forall k :: k in r.pending ==> r.pending[k] == f.pending[k]
  {
    Flights(f.pending - {key}, f.started)
  }

  /** Any number of callers entering with the same key before it settles share
      one pending request, and exactly one fetch is started. */
  lemma {:induction false} ConcurrentCallersShareOneFetch(f: Flights, key: string, n: nat)
    requires key !in f.pending
    ensures EnterN(f, key, n + 1).started == f.started + 1
    ensures forall i :: 1 <= i <= n ==> Enter(EnterN(f, key, i), key).0 == Existing(f.started)
  {
    EnterNAfterFirst(f, key, n + 1);
    forall i | 1 <= i <= n ensures Enter(EnterN(f, key, i), key).0 == Existing(f.started) {
      EnterNAfterFirst(f, key, i);
    }
  }

  /** The table after `n` callers entered with `key`. */
  function EnterN(f: Flights, key: string, n: nat): Flights
  {
    if n == 0 then f else Enter(EnterN(f, key, n - 1), key).1
  }

  lemma {:induction false} EnterNAfterFirst(f: Flights, key: string, n: nat)
    requires key !in f.pending && n >= 1
    ensures EnterN(f, key, n) == Enter(f, key).1
  {
    if n > 1 {
      EnterNAfterFirst(f, key, n - 1);
    }
  }

  /** Once the pending request settled, the next caller starts a new fetch
      (a failed request can be retried). */
  lemma RetryAfterSettle(f: Flights, key: string)
    requires key !in f.pending
    ensures var f1 := Enter(f, key).1;
            Enter(Leave(f1, key), key).0 == Started(f.started + 1)
  {
  }

  // ---------------------------------------------------------------------------
  // The cache object
  // ---------------------------------------------------------------------------

  class RequestCache {
    /** key -> cached response */
    var cache: map<string, CacheItem>
    /** key -> the pending request (identified by a ticket) */
    var inflight: map<string, nat>
    /** Number of underlying fetches started so far; also the next ticket. */
    var started: nat

    /** Every pending ticket was issued by a fetch that was started. */
    ghost predicate Valid()
      reads this
    {
      forall k :: k in inflight ==> inflight[k] < started
    }

    constructor ()
      ensures Valid()
      ensures cache == map[] && inflight == map[] && started == 0
    {
      cache := map[];
      inflight := map[];
      started := 0;
    }

    /** `get(key)`: absent or expired gives None (and purges the expired entry). */
    method Get(key: string, now: int) returns (r: Option<Json>)
      requires Valid()
      modifies this`cache
      ensures Valid()
      ensures r == Read(old(cache), key, now)
      ensures cache == AfterRead(old(cache), key, now)
      ensures key !in old(cache) ==> r == None && cache == old(cache)
      ensures key in old(cache) && Expired(old(cache)[key], now) ==> r == None && cache == old(cache) - {key}
      ensures key in old(cache) && !Expired(old(cache)[key], now) ==>
        r == Some(old(cache)[key].data) && cache == old(cache)
    {
      if key !in cache {
        return None;
      }
      var item := cache[key];
      if now - item.timestamp > item.ttl {
        cache := cache - {key};
        return None;
      }
      return Some(item.data);
    }

    /** `set(key, data, ttlSeconds)`: overwrites with a fresh timestamp. */
    method Set(key: string, data: Json, ttlSeconds: int, now: int)
      requires Valid()
      modifies this`cache
      ensures Valid()
      ensures cache == Store(old(cache), key, data, ttlSeconds, now)
    {
      cache := cache[key := CacheItem(now, data, ttlSeconds * 1000)];
    }

    /** `invalidate(prefix)`: a scan over the current keys deleting those that
        start with the prefix. */
    method Invalidate(prefix: string)
      requires Valid()
      modifies this`cache
      ensures Valid()
      ensures cache == Invalidated(old(cache), prefix)
    {
      var keys := cache.Keys;
      while keys != {}
        invariant keys <= old(cache).Keys
        invariant forall k :: k in cache <==> k in old(cache) && (k in keys || !StartsWith(k, prefix))
        invariant forall k :: k in cache ==> cache[k] == old(cache)[k]
        decreases keys
      {
        var k :| k in keys;
        if StartsWith(k, prefix) {
          cache := cache - {k};
        }
        keys := keys - {k};
      }
    }

    /** Entering `fetchDeduped(key, fetchFn)`: a key already in flight yields
        its pending request and starts nothing; otherwise a new fetch is
        started and registered under the key. */
    method BeginFetch(key: string) returns (b: Begin)
      requires Valid()
      modifies this`inflight, this`started
      ensures Valid()
      ensures (b, Flights(inflight, started)) == Enter(Flights(old(inflight), old(started)), key)
    {
      if key in inflight {
        return Existing(inflight[key]);
      }
      b := Started(started);
      inflight := inflight[key := started];
      started := started + 1;
    }

    /** The `finally` of a fetch: the key leaves the in-flight table, whether
        the fetch succeeded or failed. */
    method Settle(key: string)
      requires Valid()
      modifies this`inflight
      ensures Valid()
      ensures Flights(inflight, started) == Leave(Flights(old(inflight), started), key)
    {
      inflight := inflight - {key};
    }
  }
}
