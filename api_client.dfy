/**
 * The shared base of the weather clients: a response cache with absolute
 * expiry times, keyed by endpoint and sorted parameters, in front of a
 * bounded retry loop with exponential backoff.
 */
module ApiClients {
  import opened Wrappers
  import opened Dicts
  import opened JsonValues
  import opened Fields
  import opened Net

  /** The defaults of `_make_request`. */
  const MAX_RETRIES := 3
  const RETRY_DELAY := 1.0

  type Params = Dict<string, Field>

  /**
   * What the cache key digests: the endpoint and the parameters serialised
   * with sorted keys.
   */
  datatype RequestKey = RequestKey(endpoint: string, params: seq<(string, Field)>)

  function CacheKey(endpoint: string, params: Params): (k: RequestKey)
    ensures k.endpoint == endpoint
    ensures StrictlySorted(k.params) && Elems(k.params) == Elems(params)
  {
    RequestKey(endpoint, SortByKey(params))
  }

  /**
   * Two requests share a cache key exactly when they go to the same endpoint
   * with the same parameters, in whatever order those were inserted.
   */
  lemma CacheKeyCanonical(e1: string, p1: Params, e2: string, p2: Params)
    ensures CacheKey(e1, p1) == CacheKey(e2, p2) <==> e1 == e2 && Elems(p1) == Elems(p2)
  {
    SortByKeyCanonical(p1, p2);
  }

  // ---------------------------------------------------------------------
  // The retry loop, as a function of the scripted replies

  /** What a request came to, and how many network attempts it made. */
  datatype Outcome = Outcome(result: Result<Json, PyError>, attempts: nat)

  /** `f"{base_url}/{endpoint}"`. */
  function EndpointUrl(baseUrl: string, endpoint: string): string {
    baseUrl + "/" + endpoint
  }

  function UnknownFailure(url: string): PyError {
    Exception("Request to " + url + " failed for unknown reason")
  }

  /**
   * The retry loop from attempt j on, attempts j.. being answered by replies
   * start + j.. of the script; `last` is what the loop raises if it makes no
   * further attempt.  The first success is returned; otherwise every
   * attempt up to maxRetries is made and the last failure is raised.
   */
  function Retry(script: seq<Reply>, start: nat, j: nat, maxRetries: int, last: PyError): (o: Outcome)
    ensures j <= o.attempts <= (if j < maxRetries then maxRetries else j)
    ensures forall k :: start + j <= k < start + o.attempts - 1 ==> FailsAt(script, k)
    ensures o.result.Ok? ==> o.attempts > j && At(script, start + o.attempts - 1) == Success(o.result.value)
    ensures o.result.Err? ==> o.attempts == (if j < maxRetries then maxRetries else j)
    ensures o.result.Err? && o.attempts > j ==>
      FailsAt(script, start + o.attempts - 1) &&
      o.result.error == RequestError(At(script, start + o.attempts - 1).reason)
    ensures o.attempts == j ==> o.result == Err(last)
    decreases maxRetries - j
  {
    if j >= maxRetries then Outcome(Err(last), j)
    else
      match At(script, start + j)
      case Success(body) => Outcome(Ok(body), j + 1)
      case Failure(reason) => Retry(script, start, j + 1, maxRetries, RequestError(reason))
  }

  /** A request: the cached payload when there is one, else the retry loop. */
  function Request(hit: Option<Json>, script: seq<Reply>, start: nat, maxRetries: int, url: string): (o: Outcome)
    ensures hit.Some? ==> o == Outcome(Ok(hit.value), 0)
  {
    if hit.Some? then Outcome(Ok(hit.value), 0)
    else Retry(script, start, 0, maxRetries, UnknownFailure(url))
  }

  /** With no attempts allowed, the loop raises the generic error. */
  lemma NoAttemptsAllowed(script: seq<Reply>, start: nat, maxRetries: int, url: string)
    requires maxRetries <= 0
    ensures Request(None, script, start, maxRetries, url) == Outcome(Err(UnknownFailure(url)), 0)
  {
  }

  /** When every allowed attempt fails, all of them are made and the last failure is raised. */
  lemma AllAttemptsFail(script: seq<Reply>, start: nat, maxRetries: int, url: string)
    requires maxRetries >= 1
    requires forall k :: start <= k < start + maxRetries ==> FailsAt(script, k)
    ensures var o := Request(None, script, start, maxRetries, url);
      o.attempts == maxRetries && FailsAt(script, start + maxRetries - 1) &&
      o.result == Err(RequestError(At(script, start + maxRetries - 1).reason))
  {
    RetryAllFail(script, start, 0, maxRetries, UnknownFailure(url));
  }

  lemma {:induction false} RetryAllFail(script: seq<Reply>, start: nat, j: nat, maxRetries: int, last: PyError)
    requires j < maxRetries
    requires forall k :: start + j <= k < start + maxRetries ==> FailsAt(script, k)
    ensures FailsAt(script, start + maxRetries - 1)
    ensures Retry(script, start, j, maxRetries, last) ==
      Outcome(Err(RequestError(At(script, start + maxRetries - 1).reason)), maxRetries)
    decreases maxRetries - j
  {
    assert FailsAt(script, start + j);
    if j + 1 < maxRetries {
      RetryAllFail(script, start, j + 1, maxRetries, RequestError(At(script, start + j).reason));
    }
  }

  // ---------------------------------------------------------------------
  // Backoff

  function Pow2(k: nat): (p: nat)
    ensures p >= 1
  {
    if k == 0 then 1 else 2 * Pow2(k - 1)
  }

  /** The sleep after failure j + 1: retry_delay * 2^j. */
  function BackoffDelay(delay: real, j: nat): real {
    delay * Pow2(j) as real
  }

  /** The sleeps of the first n retries: retry_delay * 2^(r-1) after failure r. */
  function BackoffSchedule(delay: real, n: nat): (s: seq<Pause>)
    ensures |s| == n
    ensures forall j :: 0 <= j < n ==> s[j] == Backoff(BackoffDelay(delay, j))
  {
    if n == 0 then []
    else
      var s := BackoffSchedule(delay, n - 1) + [Backoff(BackoffDelay(delay, n - 1))];
      assert forall j :: 0 <= j < n - 1 ==> s[j] == BackoffSchedule(delay, n - 1)[j];
      s
  }

  lemma BackoffSnoc(delay: real, n: nat)
    ensures BackoffSchedule(delay, n + 1) == BackoffSchedule(delay, n) + [Backoff(BackoffDelay(delay, n))]
  {
  }

  /** Sleeps taken in a request that made `attempts` attempts: none after the last one. */
  function SleepsFor(attempts: nat): nat {
    if attempts == 0 then 0 else attempts - 1
  }

  /** Each backoff sleep is twice the one before. */
  lemma BackoffDoubles(delay: real, n: nat, j: nat)
    requires 0 < j < n
    ensures BackoffSchedule(delay, n)[j].seconds == 2.0 * BackoffSchedule(delay, n)[j - 1].seconds
  {
    assert Pow2(j) == 2 * Pow2(j - 1);
  }

  /** The backoff schedule holds no pacing sleep. */
  lemma {:induction false} BackoffHasNoPacing(delay: real, n: nat)
    ensures PacingCount(BackoffSchedule(delay, n)) == 0
  {
    if n > 0 {
      var last := [Backoff(BackoffDelay(delay, n - 1))];
      BackoffSnoc(delay, n - 1);
      BackoffHasNoPacing(delay, n - 1);
      PacingCountAppend(BackoffSchedule(delay, n - 1), last);
      assert last[..0] == [];
    }
  }

  // ---------------------------------------------------------------------
  // The client

  class ApiClient {
    const apiKey: string
    const baseUrl: string
    const cacheEnabled: bool
    const ttl: int
    const net: Network
    var cache: map<RequestKey, Json>
    var cacheExpiry: map<RequestKey, int>

    constructor(apiKey: string, baseUrl: string, cacheEnabled: bool, ttl: int, net: Network)
      ensures this.apiKey == apiKey && this.baseUrl == baseUrl && this.cacheEnabled == cacheEnabled
      ensures this.net == net && this.ttl == ttl
      ensures cache == map[] && cacheExpiry == map[]
    {
      this.apiKey := apiKey;
      this.baseUrl := baseUrl;
      this.cacheEnabled := cacheEnabled;
      this.net := net;
      this.ttl := ttl;
      cache := map[];
      cacheExpiry := map[];
    }

    function Url(endpoint: string): string {
      EndpointUrl(baseUrl, endpoint)
    }

    /** A cached response is usable while `now` is strictly before its expiry. */
    predicate IsCacheValid(key: RequestKey, now: int)
      reads this
    {
      key in cache && key in cacheExpiry && now < cacheExpiry[key]
    }

    /** The payload a request for `key` is answered with from the cache, if any. */
    function Lookup(key: RequestKey, now: int): (hit: Option<Json>)
      reads this
      ensures hit.Some? <==> cacheEnabled && IsCacheValid(key, now)
      ensures hit.Some? ==> hit.value == cache[key]
    {
      if cacheEnabled && IsCacheValid(key, now) then Some(cache[key]) else None
    }

    /** Store a payload for ttl seconds; every other entry is left as it was. */
    method CacheResponse(key: RequestKey, response: Json, now: int)
      modifies this
      ensures cache == old(cache)[key := response]
      ensures cacheExpiry == old(cacheExpiry)[key := now + ttl]
      ensures forall t :: IsCacheValid(key, t) <==> t < now + ttl
      ensures forall k, t :: k != key ==> (IsCacheValid(k, t) <==> old(IsCacheValid(k, t)))
    {
      cache := cache[key := response];
      cacheExpiry := cacheExpiry[key := now + ttl];
    }

    /**
     * The `while` loop of `_make_request`: up to maxRetries attempts, a
     * doubling sleep after every failure but the last, the first success
     * returned and the last failure raised.
     */
    method RetryLoop(url: string, maxRetries: int, retryDelay: real) returns (r: Result<Json, PyError>)
      modifies net
      ensures var o := Retry(net.script, old(net.calls), 0, maxRetries, UnknownFailure(url));
        r == o.result && net.calls == old(net.calls) + o.attempts &&
        net.pauses == old(net.pauses) + BackoffSchedule(retryDelay, SleepsFor(o.attempts))
    {
      ghost var start := net.calls;
      ghost var spec := Retry(net.script, start, 0, maxRetries, UnknownFailure(url));
      var retries := 0;
      var last := UnknownFailure(url);
      ghost var sleeps := 0;
      while retries < maxRetries
        invariant 0 <= retries && (maxRetries >= 0 ==> retries <= maxRetries)
        invariant net.calls == start + retries
        invariant Retry(net.script, start, retries, maxRetries, last) == spec
        invariant sleeps == (if retries < maxRetries then retries else SleepsFor(retries))
        invariant net.pauses == old(net.pauses) + BackoffSchedule(retryDelay, sleeps)
        decreases maxRetries - retries
      {
        var reply := net.Fetch();
        if reply.Success? {
          return Ok(reply.body);
        }
        last := RequestError(reply.reason);
        retries := retries + 1;
        if retries < maxRetries {
          BackoffSnoc(retryDelay, sleeps);
          net.Sleep(Backoff(BackoffDelay(retryDelay, retries - 1)));
          sleeps := sleeps + 1;
        }
      }
      r := Err(last);
    }

    /**
     * `_make_request`: answer from the cache when it holds a valid entry;
     * otherwise run the retry loop and cache its success.
     */
    method MakeRequest(endpoint: string, params: Params, maxRetries: int, retryDelay: real, now: int)
      returns (r: Result<Json, PyError>)
      modifies this, net
      ensures var key := CacheKey(endpoint, params);
        var o := Request(old(Lookup(key, now)), net.script, old(net.calls), maxRetries, Url(endpoint));
        r == o.result && net.calls == old(net.calls) + o.attempts &&
        net.pauses == old(net.pauses) + BackoffSchedule(retryDelay, SleepsFor(o.attempts)) &&
        if old(Lookup(key, now)).None? && cacheEnabled && r.Ok? then
          cache == old(cache)[key := r.value] && cacheExpiry == old(cacheExpiry)[key := now + ttl]
        else
          cache == old(cache) && cacheExpiry == old(cacheExpiry)
      ensures PacingCount(net.pauses) == PacingCount(old(net.pauses))
    {
      var key := CacheKey(endpoint, params);
      if cacheEnabled && IsCacheValid(key, now) {
        r := Ok(cache[key]);
        assert net.pauses == old(net.pauses) + BackoffSchedule(retryDelay, 0);
        return;
      }
      ghost var o := Retry(net.script, net.calls, 0, maxRetries, UnknownFailure(Url(endpoint)));
      r := RetryLoop(Url(endpoint), maxRetries, retryDelay);
      if r.Ok? && cacheEnabled {
        CacheResponse(key, r.value, now);
      }
      BackoffHasNoPacing(retryDelay, SleepsFor(o.attempts));
      PacingCountAppend(old(net.pauses), BackoffSchedule(retryDelay, SleepsFor(o.attempts)));
    }
  }
}
