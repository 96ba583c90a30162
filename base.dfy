/**
 * The GitHub client base: every API call goes through `_make_request`, which
 * answers from the cache when it can and otherwise waits on the rate
 * limiter, performs the request and caches its result.
 *
 * The request function is what it does, `response`, taken as a parameter:
 * it returns a value or raises. `called` says whether the request was
 * performed. `now` is the time of the cache read and of the limiter's clock
 * read, `doneAt` the time the result is written to the cache.
 */
module GithubBase {
  import opened Wrappers
  import opened Cache
  import opened RateLimiting

  /** The limiter's budget: the GitHub API's 5000 calls per hour. */
  const LimitCalls := 5000
  const LimitPeriod := 3600
  /** The cache's default time to live, in seconds. */
  const CacheTtl := 3600

  /** What a call ends with: a returned value (a JSON `null` is `None`) or an exception. */
  datatype Reply<V> = Returned(value: Option<V>) | Raised

  /**
   * What `_make_request` leaves behind, as a function of the state before:
   * the reply, whether the request ran, the limiter's list and the cache
   * directory after the call. An exception from the request passes through
   * after the limiter has recorded the call, and nothing is cached.
   */
  function RequestStep<V>(files: Dir<V>, ttl: int, ts: seq<real>, key: string, response: Reply<V>, now: real, doneAt: real)
    : (r: (Reply<V>, bool, seq<real>, Dir<V>))
    ensures r.1 <==> Lookup(files, ttl, key, now).0 == None
    ensures !r.1 ==> r.0 == Returned(Lookup(files, ttl, key, now).0) && r.2 == ts && r.3 == files
    ensures r.1 ==> r.0 == response && r.2 == WaitStep(ts, LimitCalls, LimitPeriod, now).0
    ensures r.1 && response.Returned? ==> CachePath(key) in r.3 && r.3[CachePath(key)] == Stored(doneAt, response.value)
    ensures r.1 && response.Raised? ==> r.3 == Lookup(files, ttl, key, now).1
  {
    var (cached, afterGet) := Lookup(files, ttl, key, now);
    if cached.Some? then (Returned(cached), false, ts, afterGet)
    else
      var (waited, _) := WaitStep(ts, LimitCalls, LimitPeriod, now);
      match response
      case Raised => (Raised, true, waited, afterGet)
      case Returned(v) => (response, true, waited, Store(afterGet, key, v, doneAt))
  }

  /**
   * `_make_request` exactly as written: `set` raises when the key's file
   * lies in a sub-directory that does not exist, after the request ran and
   * the limiter recorded it, and that exception is what the caller gets.
   */
  function RequestStepAsWritten<V>(files: Dir<V>, ttl: int, ts: seq<real>, key: string, response: Reply<V>, now: real, doneAt: real)
    : (r: (Reply<V>, bool, seq<real>, Dir<V>))
    ensures r.1 <==> Lookup(files, ttl, key, now).0 == None
    ensures r.1 ==> r.2 == WaitStep(ts, LimitCalls, LimitPeriod, now).0
    ensures r.1 && response.Returned? ==>
      (r.0 == response <==> Writable(Lookup(files, ttl, key, now).1, key)) &&
      (r.0.Raised? <==> !Writable(Lookup(files, ttl, key, now).1, key))
  {
    var (cached, afterGet) := Lookup(files, ttl, key, now);
    if cached.Some? then (Returned(cached), false, ts, afterGet)
    else
      var (waited, _) := WaitStep(ts, LimitCalls, LimitPeriod, now);
      match response
      case Raised => (Raised, true, waited, afterGet)
      case Returned(v) =>
        var (written, after) := StoreAsWritten(afterGet, key, v, doneAt);
        (if written then response else Raised, true, waited, after)
  }

  /**
   * Wherever the key's file can be opened, the call as written is the
   * intended one: for every key without '/', and for a key whose
   * sub-directory already holds a file.
   */
  lemma AsWrittenAgreesWhenWritable<V>(files: Dir<V>, ttl: int, ts: seq<real>, key: string, response: Reply<V>, now: real, doneAt: real)
    requires Writable(Lookup(files, ttl, key, now).1, key)
    ensures RequestStepAsWritten(files, ttl, ts, key, response, now, doneAt) == RequestStep(files, ttl, ts, key, response, now, doneAt)
  {
  }

  /**
   * As written, a key with a '/' raises on every call: with a directory only
   * the cache writes into, the request runs, the limiter records it, the
   * reply is an exception whatever the request returned, and the directory
   * is left as it was, so the next call does the same.
   */
  lemma SlashKeyAlwaysRaises<V>(files: Dir<V>, ttl: int, ts: seq<real>, key: string, response: Reply<V>, now: real, doneAt: real)
    requires Flat(files) && !TopLevel(key)
    ensures RequestStepAsWritten(files, ttl, ts, key, response, now, doneAt) ==
      (Raised, true, WaitStep(ts, LimitCalls, LimitPeriod, now).0, files)
  {
    FlatPreserved(files, ttl, key, None, now);
    FlatWritable(Lookup(files, ttl, key, now).1, key);
    assert CachePath(key) !in files by {
      var i :| 0 <= i < |key| && key[i] == '/';
      assert CachePath(key)[i] == '/';
    }
  }

  /** A fresh cached value is returned without a request and without touching the limiter. */
  lemma HitIsReturned<V>(files: Dir<V>, ttl: int, ts: seq<real>, key: string, v: V, at: real, response: Reply<V>, now: real, doneAt: real)
    requires CachePath(key) in files && files[CachePath(key)] == Stored(at, Some(v))
    requires now - at <= ttl as real
    ensures RequestStep(files, ttl, ts, key, response, now, doneAt) == (Returned(Some(v)), false, ts, files)
  {
  }

  /** A cached JSON `null` is treated like a miss: the request runs again. */
  lemma CachedNullIsMiss<V>(files: Dir<V>, ttl: int, ts: seq<real>, key: string, at: real, response: Reply<V>, now: real, doneAt: real)
    requires CachePath(key) in files && files[CachePath(key)] == Stored(at, None)
    requires now - at <= ttl as real
    ensures RequestStep(files, ttl, ts, key, response, now, doneAt).1
  {
  }

  /**
   * On a miss the limiter sees exactly one `wait` at `now`; a returned
   * result is both returned and cached under the key, and an exception
   * leaves the cache as the read left it.
   */
  lemma MissWaitsOnceAndStores<V>(files: Dir<V>, ttl: int, ts: seq<real>, key: string, response: Reply<V>, now: real, doneAt: real)
    requires Lookup(files, ttl, key, now).0 == None
    ensures var r := RequestStep(files, ttl, ts, key, response, now, doneAt);
      r.0 == response && r.1 && r.2 == WaitStep(ts, LimitCalls, LimitPeriod, now).0 &&
      r.3 == if response.Returned? then Store(Lookup(files, ttl, key, now).1, key, response.value, doneAt)
             else Lookup(files, ttl, key, now).1
  {
  }

  /** A second request for the same key within the time to live is answered from the cache with the first one's result. */
  lemma SecondRequestHits<V>(files: Dir<V>, ttl: int, ts: seq<real>, key: string, v: V, now: real, doneAt: real, later: real, response2: Reply<V>, doneAt2: real)
    requires Lookup(files, ttl, key, now).0 == None
    requires later - doneAt <= ttl as real
    ensures var r := RequestStep(files, ttl, ts, key, Returned(Some(v)), now, doneAt);
      RequestStep(r.3, ttl, r.2, key, response2, later, doneAt2) == (Returned(Some(v)), false, r.2, r.3)
  {
    var r := RequestStep(files, ttl, ts, key, Returned(Some(v)), now, doneAt);
    SetThenGet(Lookup(files, ttl, key, now).1, ttl, key, Some(v), doneAt, later);
    assert r.3 == Store(Lookup(files, ttl, key, now).1, key, Some(v), doneAt);
  }

  /** After a request that raised, the next request for the key runs it again: nothing was cached. */
  lemma RaisedIsRetried<V>(files: Dir<V>, ttl: int, ts: seq<real>, key: string, now: real, doneAt: real, later: real, response2: Reply<V>, doneAt2: real)
    requires Lookup(files, ttl, key, now).0 == None
    ensures var r := RequestStep(files, ttl, ts, key, Raised, now, doneAt);
      r.0 == Raised && RequestStep(r.3, ttl, r.2, key, response2, later, doneAt2).1
  {
    var after := Lookup(files, ttl, key, now).1;
    if CachePath(key) in after {
      assert after[CachePath(key)] == files[CachePath(key)];
    }
  }

  /** `BaseGitHubClient`: the cache and the limiter it owns. */
  class BaseGitHubClient<V> {
    const cache: CacheManager<V>
    const limiter: RateLimiter

    /** The limiter has the GitHub budget and holds no more times than it allows. */
    predicate Valid()
      reads this, limiter
    {
      limiter.calls == LimitCalls && limiter.period == LimitPeriod && limiter.Bounded()
    }

    /** `RateLimiter(calls=5000, period=3600)` and `CacheManager(cache_dir)` with its default time to live. */
    constructor (existing: Dir<V>)
      ensures Valid() && fresh(cache) && fresh(limiter)
      ensures cache.ttl == CacheTtl && cache.files == existing && limiter.timestamps == []
    {
      limiter := new RateLimiter(LimitCalls, LimitPeriod);
      cache := new CacheManager(CacheTtl, existing);
    }

    /** `_make_request(cache_key, request_func)`, with `set` storing under the key itself. */
    method MakeRequest(key: string, response: Reply<V>, now: real, doneAt: real) returns (r: Reply<V>, called: bool)
      requires Valid()
      modifies cache, limiter
      ensures Valid()
      ensures (r, called, limiter.timestamps, cache.files) ==
        RequestStep(old(cache.files), cache.ttl, old(limiter.timestamps), key, response, now, doneAt)
    {
      var cached := cache.Get(key, now);
      if cached.Some? {
        return Returned(cached), false;
      }
      var outcome := limiter.Wait(now);
      assert outcome.Waited?;
      called := true;
      r := response;
      if response.Returned? {
        cache.Set(key, response.value, doneAt);
      }
    }

    /** `_make_request(cache_key, request_func)` exactly as written. */
    method MakeRequestAsWritten(key: string, response: Reply<V>, now: real, doneAt: real) returns (r: Reply<V>, called: bool)
      requires Valid()
      modifies cache, limiter
      ensures Valid()
      ensures (r, called, limiter.timestamps, cache.files) ==
        RequestStepAsWritten(old(cache.files), cache.ttl, old(limiter.timestamps), key, response, now, doneAt)
    {
      var cached := cache.Get(key, now);
      if cached.Some? {
        return Returned(cached), false;
      }
      var outcome := limiter.Wait(now);
      assert outcome.Waited?;
      called := true;
      r := response;
      if response.Returned? {
        var written := cache.SetAsWritten(key, response.value, doneAt);
        if !written {
          r := Raised;
        }
      }
    }
  }
}
