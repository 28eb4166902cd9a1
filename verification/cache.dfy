/** The in-memory response cache behind both provider endpoints: entries stamped with the
    time they were stored, valid for one minute, refreshed through an abstract fetcher. */
module Cache {
  import opened Wrappers

  /** Milliseconds an entry stays valid. */
  const CacheDuration: int := 60 * 1000

  /** A stored response and the clock reading (ms) at which it was stored. */
  datatype Entry<T> = Entry(data: T, timestamp: int)

  /** The cache map, keyed by exact, case-sensitive strings. Entries are never evicted. */
  type Store<T> = map<string, Entry<T>>

  /** How a request can fail: an HTTP error with the provider's status code, or a failure
      with no HTTP response at all (network failure, or an error that is not an HTTP error). */
  datatype FetchError = HttpError(status: int) | NetworkError

  /** What the fetcher does when it is invoked: resolve with a value (the clock reads
      `settledAt` when the promise settles) or reject. */
  datatype Fetched<T> = Resolved(value: T, settledAt: int) | Rejected(error: FetchError)

  /** One call of the cache: what it returned or threw, the cache afterwards, and how many
      times it invoked the fetcher. */
  datatype Step<T> = Step(result: Result<T, FetchError>, store: Store<T>, fetches: nat)

  /** `cache.get(key)`. */
  function Lookup<T>(store: Store<T>, key: string): (e: Option<Entry<T>>)
    ensures e.Some? <==> key in store
    ensures e.Some? ==> e.value == store[key]
  {
    if key in store then Some(store[key]) else None
  }

  /** Caches that answer every lookup alike are equal. */
  lemma SameLookupsSameStore<T>(a: Store<T>, b: Store<T>)
    requires forall k :: Lookup(a, k) == Lookup(b, k)
    ensures a == b
  {
    assert a.Keys == b.Keys by {
      forall k | k in a ensures k in b {
        assert Lookup(a, k).Some?;
      }
      forall k | k in b ensures k in a {
        assert Lookup(b, k).Some?;
      }
    }
    forall k | k in a ensures a[k] == b[k] {
      assert Lookup(a, k) == Lookup(b, k);
    }
  }

  /** Writes confined to two different keys commute: applying them in either order from the
      same cache gives the same cache, provided each key ends up the same both ways. */
  lemma DisjointWritesCommute<T>(s: Store<T>, a1: Store<T>, b1: Store<T>, b2: Store<T>, a2: Store<T>,
                                 ka: string, kb: string)
    requires ka != kb
    requires forall k :: k != ka ==> Lookup(a1, k) == Lookup(s, k)
    requires forall k :: k != kb ==> Lookup(b1, k) == Lookup(a1, k)
    requires forall k :: k != kb ==> Lookup(b2, k) == Lookup(s, k)
    requires forall k :: k != ka ==> Lookup(a2, k) == Lookup(b2, k)
    requires Lookup(a2, ka) == Lookup(a1, ka)
    requires Lookup(b1, kb) == Lookup(b2, kb)
    ensures b1 == a2
  {
    forall k
      ensures Lookup(b1, k) == Lookup(a2, k)
    {
      if k != ka && k != kb {
        assert Lookup(b1, k) == Lookup(a1, k) == Lookup(s, k);
      }
    }
    SameLookupsSameStore(b1, a2);
  }

  /** `isCacheValid`: an entry is present and younger than `CacheDuration` at time `now`. */
  function IsCacheValid<T>(entry: Option<Entry<T>>, now: int): (valid: bool)
    ensures entry.None? ==> !valid
    ensures entry.Some? ==> (valid <==> now - entry.value.timestamp < CacheDuration)
  {
    match entry
    case None => false
    case Some(e) => now - e.timestamp < CacheDuration
  }

  /** Validity is a window: an entry valid at `later` was valid at every earlier time, and
      it has lapsed exactly `CacheDuration` ms after it was stored. */
  lemma ValidityWindow<T>(e: Entry<T>, earlier: int, later: int)
    requires earlier <= later
    ensures IsCacheValid(Some(e), later) ==> IsCacheValid(Some(e), earlier)
    ensures IsCacheValid(Some(e), e.timestamp)
    ensures !IsCacheValid(Some(e), e.timestamp + CacheDuration)
    ensures IsCacheValid(Some(e), e.timestamp + CacheDuration - 1)
  {
  }

  /** `fetchWithCache(key, fetcher)` at time `now`: a valid entry is returned without invoking
      the fetcher; otherwise the fetcher is invoked once, and only a resolved value is stored. */
  function FetchWithCache<T>(store: Store<T>, key: string, now: int, fetcher: Fetched<T>): (s: Step<T>)
    ensures IsCacheValid(Lookup(store, key), now) ==>
              s.result == Ok(store[key].data) && s.store == store && s.fetches == 0
    ensures !IsCacheValid(Lookup(store, key), now) ==> s.fetches == 1
    ensures !IsCacheValid(Lookup(store, key), now) && fetcher.Resolved? ==>
              s.result == Ok(fetcher.value) && s.store == store[key := Entry(fetcher.value, fetcher.settledAt)]
    ensures !IsCacheValid(Lookup(store, key), now) && fetcher.Rejected? ==>
              s.result == Err(fetcher.error) && s.store == store
    ensures s.store.Keys == store.Keys || s.store.Keys == store.Keys + {key}
    ensures forall k :: k != key && k in store ==> k in s.store && s.store[k] == store[k]
  {
    var cached := Lookup(store, key);
    if IsCacheValid(cached, now) then
      Step(Ok(cached.value.data), store, 0)
    else
      match fetcher
      case Rejected(err) => Step(Err(err), store, 1)
      case Resolved(data, at) => Step(Ok(data), store[key := Entry(data, at)], 1)
  }

  /** On a hit the fetcher is not consulted: any two fetchers give the same step. */
  lemma HitIgnoresFetcher<T>(store: Store<T>, key: string, now: int, f1: Fetched<T>, f2: Fetched<T>)
    requires IsCacheValid(Lookup(store, key), now)
    ensures FetchWithCache(store, key, now, f1) == FetchWithCache(store, key, now, f2)
  {
  }

  /** Deduplication: when a call misses and its fetch settles at time `t`, a second call
      for the same key before `t + CacheDuration` returns the same data with no fetch of its
      own, whatever its fetcher would have done. */
  lemma SecondCallIsHit<T>(store: Store<T>, key: string, now: int, f: Fetched<T>, later: int, g: Fetched<T>)
    requires !IsCacheValid(Lookup(store, key), now)
    requires f.Resolved? && later - f.settledAt < CacheDuration
    ensures var first := FetchWithCache(store, key, now, f);
            var second := FetchWithCache(first.store, key, later, g);
            && first.fetches == 1
            && second.fetches == 0
            && second.store == first.store
            && second.result == first.result == Ok(f.value)
  {
  }
}
