/** The browser-side cache of `useOfflineData` and the request queue of
    `queueForSync`, over `localStorage`. Stored texts are modelled by what
    they parse to; the clock reading is passed in as `now`. */
module OfflineSync {
  import opened Common

  /** One hour in milliseconds: older cache entries are stale. */
  const StaleAfter: int := 60 * 60 * 1000

  /** What a stored text parses to: a cache entry, a queued request, or text
      that `JSON.parse` refuses. */
  datatype Stored<T> =
    | CacheEntry(data: T, timestamp: int)
    | PendingRequest(url: string, timestamp: int)
    | Unparseable

  function CacheKey(key: string): string {
    "cache_" + key
  }

  function PendingKey(timestamp: int): string {
    "pending_request_" + IntToString(timestamp)
  }

  /** Distinct hook keys use distinct storage keys, queued requests never
      land on a cache key, and requests queued at different instants use
      different keys. */
  lemma StorageKeysSeparate(k1: string, k2: string, t1: int, t2: int)
    ensures CacheKey(k1) == CacheKey(k2) ==> k1 == k2
    ensures CacheKey(k1) != PendingKey(t1)
    ensures PendingKey(t1) == PendingKey(t2) ==> t1 == t2
  {
    if CacheKey(k1) == CacheKey(k2) {
      assert k1 == CacheKey(k1)[6..] == CacheKey(k2)[6..] == k2;
    }
    assert CacheKey(k1)[0] == 'c' && PendingKey(t1)[0] == 'p';
    if PendingKey(t1) == PendingKey(t2) {
      var n := |"pending_request_"|;
      assert IntToString(t1) == PendingKey(t1)[n..] == PendingKey(t2)[n..] == IntToString(t2);
      IntToStringInjective(t1, t2);
    }
  }

  /** The state the load effect leaves: the cached data and whether it is
      older than an hour, or the fallback (not stale) when there is no entry
      or it does not parse. */
  function Load<T>(items: map<string, Stored<T>>, key: string, fallback: T, now: int): (r: (T, bool))
    ensures CacheKey(key) !in items ==> r == (fallback, false)
    ensures CacheKey(key) in items && items[CacheKey(key)].CacheEntry? ==>
              r == (items[CacheKey(key)].data, now - items[CacheKey(key)].timestamp > StaleAfter)
  {
    if CacheKey(key) in items && items[CacheKey(key)].CacheEntry? then
      var e := items[CacheKey(key)];
      (e.data, now - e.timestamp > StaleAfter)
    else (fallback, false)
  }

  /** Staleness is strict: an entry exactly one hour old is still fresh. */
  lemma StaleBoundary<T>(items: map<string, Stored<T>>, key: string, fallback: T, d: T, t: int)
    requires CacheKey(key) in items && items[CacheKey(key)] == CacheEntry(d, t)
    ensures !Load(items, key, fallback, t + StaleAfter).1
    ensures Load(items, key, fallback, t + StaleAfter + 1).1
  {
  }

  class LocalStorage<T> {
    var items: map<string, Stored<T>>

    constructor ()
      ensures items == map[]
    {
      items := map[];
    }
  }

  /** `queueForSync`: when background sync is supported the request is stored
      under the current instant's key (overwriting one queued in the same
      millisecond); otherwise nothing is stored. */
  method QueueForSync<T>(storage: LocalStorage<T>, url: string, now: int, syncSupported: bool)
    modifies storage
    ensures syncSupported ==> storage.items == old(storage.items)[PendingKey(now) := PendingRequest(url, now)]
    ensures !syncSupported ==> storage.items == old(storage.items)
  {
    if syncSupported {
      storage.items := storage.items[PendingKey(now) := PendingRequest(url, now)];
    }
  }

  /** Two requests queued in the same millisecond leave only the second. */
  lemma SameInstantOverwrites<T>(items: map<string, Stored<T>>, u1: string, u2: string, now: int)
    ensures items[PendingKey(now) := PendingRequest(u1, now)][PendingKey(now) := PendingRequest(u2, now)]
            == items[PendingKey(now) := PendingRequest(u2, now)]
  {
  }

  /** The state of one `useOfflineData(key, fallbackData)` hook. */
  class OfflineData<T(==)> {
    const key: string
    const fallback: T
    const storage: LocalStorage<T>
    var data: T
    var isStale: bool

    /** Mounting the hook runs the load effect. */
    constructor (key: string, fallback: T, storage: LocalStorage<T>, now: int)
      ensures this.key == key && this.fallback == fallback && this.storage == storage
      ensures (data, isStale) == Load(storage.items, key, fallback, now)
    {
      this.key := key;
      this.fallback := fallback;
      this.storage := storage;
      var loaded := Load(storage.items, key, fallback, now);
      data := loaded.0;
      isStale := loaded.1;
    }

    /** `updateCache`: stores the data with the current instant under this
        hook's key only, shows it, and marks it fresh. */
    method UpdateCache(newData: T, now: int)
      modifies this, storage
      ensures storage.items == old(storage.items)[CacheKey(key) := CacheEntry(newData, now)]
      ensures data == newData && !isStale
    {
      storage.items := storage.items[CacheKey(key) := CacheEntry(newData, now)];
      data := newData;
      isStale := false;
    }

    /** `clearCache`: removes this hook's entry only, and shows the fallback. */
    method ClearCache()
      modifies this, storage
      ensures storage.items == old(storage.items) - {CacheKey(key)}
      ensures data == fallback && !isStale
    {
      storage.items := storage.items - {CacheKey(key)};
      data := fallback;
      isStale := false;
    }
  }

  /** After `updateCache`, a remount within the hour loads the same data as
      fresh; after `clearCache` it loads the fallback; and the entries of
      other keys are untouched by both. */
  lemma CacheRoundTrip<T>(items: map<string, Stored<T>>, key: string, other: string, fallback: T, d: T, t: int, now: int)
    requires t <= now <= t + StaleAfter && other != key
    ensures Load(items[CacheKey(key) := CacheEntry(d, t)], key, fallback, now) == (d, false)
    ensures Load(items - {CacheKey(key)}, key, fallback, now) == (fallback, false)
    ensures Load(items[CacheKey(key) := CacheEntry(d, t)], other, fallback, now) == Load(items, other, fallback, now)
    ensures Load(items - {CacheKey(key)}, other, fallback, now) == Load(items, other, fallback, now)
  {
    StorageKeysSeparate(key, other, 0, 0);
  }

  /** A text that does not parse leaves the fallback shown, not stale. */
  lemma UnparseableKeepsFallback<T>(items: map<string, Stored<T>>, key: string, fallback: T, now: int)
    requires CacheKey(key) in items && items[CacheKey(key)] == Unparseable
    ensures Load(items, key, fallback, now) == (fallback, false)
  {
  }
}
