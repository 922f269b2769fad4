/**
  The request queue (js/request-queue.js): callers enqueue asynchronous operations, which
  run one at a time in submission order; a successful result stored under a cache key
  answers later requests with that key for `CacheTimeout` milliseconds.

  Time is the explicit argument `now` (or the `clock` oracle while draining), and each
  awaited operation is the oracle `run`, which gives the outcome of the operation that the
  caller with a given ticket submitted. The inter-request delay is left out.
*/
module Requests {
  import opened Wrappers

  /** How long a cached result answers requests, in milliseconds. */
  const CacheTimeout: int := 5000

  /** A cache key takes part only when it is truthy: present and not the empty string. */
  predicate Truthy(key: Option<string>)
  {
    key.Some? && key.value != ""
  }

  /** What an awaited operation yields: a result, or the error it threw. */
  datatype Outcome<D, E> = Ok(data: D) | Err(error: E)

  /** A cached result and the time it was stored. */
  datatype CacheEntry<D> = CacheEntry(data: D, timestamp: int)

  /** A pending request: the ticket of the caller whose promise it settles, and its key. */
  datatype Entry = Entry(caller: nat, cacheKey: Option<string>)

  /** The settlement of one caller's promise: resolved or rejected with its own outcome. */
  datatype Settled<D, E> = Settled(caller: nat, outcome: Outcome<D, E>)

  /** The cache holds a result for `key` that is younger than the timeout at time `now`. */
  predicate IsFresh<D>(cache: map<string, CacheEntry<D>>, key: string, now: int)
  {
    key in cache && now - cache[key].timestamp < CacheTimeout
  }

  /** The effect on the cache of one drained entry whose operation had `outcome` at time `at`. */
  function Store<D, E>(cache: map<string, CacheEntry<D>>, e: Entry, outcome: Outcome<D, E>, at: int)
    : map<string, CacheEntry<D>>
  {
    if Truthy(e.cacheKey) && outcome.Ok? then cache[e.cacheKey.value := CacheEntry(outcome.data, at)]
    else cache
  }

  /** The cache after draining `done` in order, starting from `cache`. */
  function StoreAll<D, E>(cache: map<string, CacheEntry<D>>, done: seq<Entry>,
                          run: nat -> Outcome<D, E>, clock: nat -> int): map<string, CacheEntry<D>>
    decreases |done|
  {
    if done == [] then cache
    else
      var last := done[|done| - 1];
      Store(StoreAll(cache, done[..|done| - 1], run, clock), last, run(last.caller), clock(last.caller))
  }

  /** Entry `e` stored a result under `key` when it was drained. */
  predicate StoresUnder<D, E>(e: Entry, key: string, run: nat -> Outcome<D, E>)
  {
    e.cacheKey == Some(key) && key != "" && run(e.caller).Ok?
  }

  /** A key that no drained entry stored under keeps whatever the cache had for it. */
  lemma {:induction false} StoreAllLeavesOthers<D, E>(cache: map<string, CacheEntry<D>>, done: seq<Entry>,
                                                      run: nat -> Outcome<D, E>, clock: nat -> int, key: string)
    requires forall i :: 0 <= i < |done| ==> !StoresUnder(done[i], key, run)
    ensures key in StoreAll(cache, done, run, clock) <==> key in cache
    ensures key in cache ==> StoreAll(cache, done, run, clock)[key] == cache[key]
    decreases |done|
  {
    if done != [] {
      StoreAllLeavesOthers(cache, done[..|done| - 1], run, clock, key);
    }
  }

  /** The last entry that stored under a key decides the cached value: the later write wins. */
  lemma {:induction false} StoreAllLastWriterWins<D, E>(cache: map<string, CacheEntry<D>>, done: seq<Entry>,
                                                        run: nat -> Outcome<D, E>, clock: nat -> int, i: nat)
    requires i < |done| && Truthy(done[i].cacheKey) && run(done[i].caller).Ok?
    requires forall j :: i < j < |done| ==> !StoresUnder(done[j], done[i].cacheKey.value, run)
    ensures var key := done[i].cacheKey.value;
            key in StoreAll(cache, done, run, clock) &&
            StoreAll(cache, done, run, clock)[key] == CacheEntry(run(done[i].caller).data, clock(done[i].caller))
    decreases |done|
  {
    if i < |done| - 1 {
      StoreAllLastWriterWins(cache, done[..|done| - 1], run, clock, i);
    }
  }

  /** Failed operations never store: a drain in which every operation failed leaves the cache as it was. */
  lemma {:induction false} FailuresStoreNothing<D, E>(cache: map<string, CacheEntry<D>>, done: seq<Entry>,
                                                     run: nat -> Outcome<D, E>, clock: nat -> int)
    requires forall i :: 0 <= i < |done| ==> run(done[i].caller).Err?
    ensures StoreAll(cache, done, run, clock) == cache
    decreases |done|
  {
    if done != [] {
      FailuresStoreNothing(cache, done[..|done| - 1], run, clock);
    }
  }

  /**
    A request with the key of the last successful keyed entry of a drain, made less than
    `CacheTimeout` after that entry completed, is answered from the cache with its result.
  */
  lemma CachedAfterSuccess<D, E>(cache: map<string, CacheEntry<D>>, done: seq<Entry>,
                                 run: nat -> Outcome<D, E>, clock: nat -> int, i: nat, now: int)
    requires i < |done| && Truthy(done[i].cacheKey) && run(done[i].caller).Ok?
    requires forall j :: i < j < |done| ==> !StoresUnder(done[j], done[i].cacheKey.value, run)
    requires now - clock(done[i].caller) < CacheTimeout
    ensures IsFresh(StoreAll(cache, done, run, clock), done[i].cacheKey.value, now)
    ensures StoreAll(cache, done, run, clock)[done[i].cacheKey.value].data == run(done[i].caller).data
  {
    StoreAllLastWriterWins(cache, done, run, clock, i);
  }

  class RequestQueue<D, E> {
    var queue: seq<Entry>
    var processing: bool
    var requestCache: map<string, CacheEntry<D>>
    const cacheTimeout: int

    /** The timeout is the fixed one, and no falsy key is ever cached. */
    ghost predicate Valid()
      reads this
    {
      cacheTimeout == CacheTimeout && "" !in requestCache
    }

    constructor ()
      ensures Valid()
      ensures queue == [] && !processing && requestCache == map[]
    {
      queue := [];
      processing := false;
      requestCache := map[];
      cacheTimeout := CacheTimeout;
    }

    /**
      Answers from the cache when `cacheKey` is truthy and holds a fresh result; otherwise
      evicts a stale entry for the key and appends the request at the tail of the queue.
      `cached` is the value returned at once; `None` stands for the still pending promise.
    */
    method Enqueue(caller: nat, cacheKey: Option<string>, now: int) returns (cached: Option<D>)
      requires Valid()
      modifies this
      ensures Valid()
      ensures cached.Some? <==> Truthy(cacheKey) && IsFresh(old(requestCache), cacheKey.value, now)
      ensures cached.Some? ==> cached.value == old(requestCache)[cacheKey.value].data
      ensures cached.Some? ==> queue == old(queue) && requestCache == old(requestCache)
      ensures cached.None? ==> queue == old(queue) + [Entry(caller, cacheKey)]
      ensures cached.None? && Truthy(cacheKey) ==> requestCache == old(requestCache) - {cacheKey.value}
      ensures !Truthy(cacheKey) ==> requestCache == old(requestCache)
      ensures processing == old(processing)
    {
      if Truthy(cacheKey) && cacheKey.value in requestCache {
        var entry := requestCache[cacheKey.value];
        if now - entry.timestamp < cacheTimeout {
          return Some(entry.data);
        }
        requestCache := requestCache - {cacheKey.value};
      }
      queue := queue + [Entry(caller, cacheKey)];
      cached := None;
    }

    /**
      The drain loop. A no-op while another drain is running. Otherwise it settles every
      pending entry head first, each with its own operation's outcome, stores each keyed
      success in the cache, and ends with an empty queue and `processing` cleared.
    */
    method Process(run: nat -> Outcome<D, E>, clock: nat -> int) returns (settled: seq<Settled<D, E>>)
      requires Valid()
      modifies this
      ensures Valid()
      ensures old(processing) ==>
                settled == [] && processing && queue == old(queue) && requestCache == old(requestCache)
      ensures !old(processing) ==> queue == [] && !processing
      ensures !old(processing) ==> |settled| == |old(queue)|
      ensures !old(processing) ==>
                forall i :: 0 <= i < |settled| ==>
                  settled[i] == Settled(old(queue)[i].caller, run(old(queue)[i].caller))
      ensures !old(processing) ==> requestCache == StoreAll(old(requestCache), old(queue), run, clock)
    {
      settled := [];
      if processing || |queue| == 0 {
        return;
      }
      processing := true;
      ghost var pending := queue;
      ghost var start := requestCache;
      while |queue| > 0
        invariant Valid() && processing
        invariant |settled| <= |pending| && queue == pending[|settled|..]
        invariant forall i :: 0 <= i < |settled| ==>
                    settled[i] == Settled(pending[i].caller, run(pending[i].caller))
        invariant requestCache == StoreAll(start, pending[..|settled|], run, clock)
        decreases |queue|
      {
        var item := queue[0];
        queue := queue[1..];
        var result := run(item.caller);
        if Truthy(item.cacheKey) && result.Ok? {
          requestCache := requestCache[item.cacheKey.value := CacheEntry(result.data, clock(item.caller))];
        }
        assert pending[..|settled| + 1][..|settled|] == pending[..|settled|];
        settled := settled + [Settled(item.caller, result)];
      }
      assert pending[..|settled|] == pending;
      processing := false;
    }

    /** Empties the cache; the queue and the drain flag are untouched. */
    method ClearCache()
      requires Valid()
      modifies this
      ensures Valid()
      ensures requestCache == map[]
      ensures queue == old(queue) && processing == old(processing)
    {
      requestCache := map[];
    }

    /** Removes the entry for `key` only; the queue and the drain flag are untouched. */
    method ClearCacheEntry(key: string)
      requires Valid()
      modifies this
      ensures Valid()
      ensures requestCache == old(requestCache) - {key}
      ensures queue == old(queue) && processing == old(processing)
    {
      requestCache := requestCache - {key};
    }
  }

  /**
    Two requests with the same key, both made before either has completed, both run their
    operations: the cache only knows about completed successes.
  */
  method SameKeyBeforeCompletionBothRun(run: nat -> Outcome<int, string>, clock: nat -> int)
  {
    var q := new RequestQueue<int, string>();
    var first := q.Enqueue(1, Some("x"), 0);
    var second := q.Enqueue(2, Some("x"), 1);
    assert first == None && second == None;
    var settled := q.Process(run, clock);
    assert |settled| == 2;
    assert settled[0].caller == 1 && settled[1].caller == 2;
  }
}
