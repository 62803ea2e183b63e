/**
 * The catalogue gateway (services/tmdb/client.ts): the request rate
 * limiter, query-string construction, the mapping of failures to
 * `TMDBError`, the load-once genre cache, the search defaults and the
 * create-once client.
 *
 * `fetch` and `response.json()` are not modelled: a request is given the
 * outcome they produced. The clock (`Date.now()`) and the end of a
 * `setTimeout` are arguments of the limiter's steps. Promises are not
 * modelled: the limiter's asynchronous steps are separate method calls.
 */
module TmdbClient {
  import opened Common
  import opened MovieTypes

  /** `TMDB_API_BASE_URL` */
  const ApiBaseUrl: string := "https://api.themoviedb.org/3"

  /** The limiter's default rate: `requestsPerSecond = 4`. */
  const DefaultRequestsPerSecond: real := 4.0

  // ---------------------------------------------------------------------
  // RateLimiter
  // ---------------------------------------------------------------------

  /** Successive instants, the first at least `gap` after `start`, each at least `gap` after the one before. */
  ghost predicate SpacedBy(start: int, times: seq<int>, gap: real) {
    && (|times| > 0 ==> (times[0] - start) as real >= gap)
    && forall i :: 0 < i < |times| ==> (times[i] - times[i - 1]) as real >= gap
  }

  /** Two stamped requests are at least one minimum interval apart per request in between. */
  lemma {:induction false} SpacedByGap(start: int, times: seq<int>, gap: real, i: int, j: int)
    requires SpacedBy(start, times, gap)
    requires 0 <= i <= j < |times|
    ensures (times[j] - times[i]) as real >= gap * (j - i) as real
    ensures (times[j] - start) as real >= gap * (j + 1) as real
    decreases j
  {
    if j > 0 {
      SpacedByGap(start, times, gap, if i < j then i else j - 1, j - 1);
      assert (times[j] - times[j - 1]) as real >= gap;
    }
  }

  /** A request stamped a minimum interval after the previous one (or the start) keeps the spacing. */
  lemma SpacedByAppend(start: int, times: seq<int>, gap: real, t: int)
    requires SpacedBy(start, times, gap)
    requires (t - (if times == [] then start else times[|times| - 1])) as real >= gap
    ensures SpacedBy(start, times + [t], gap)
  {
    var ts := times + [t];
    forall i | 0 < i < |ts|
      ensures (ts[i] - ts[i - 1]) as real >= gap
    {
      if i < |times| {
        assert ts[i] == times[i] && ts[i - 1] == times[i - 1];
      } else {
        assert ts[i] == t && ts[i - 1] == times[|times| - 1];
      }
    }
  }

  /** How long a task sleeps before its request: what is left of the minimum interval. */
  function Delay(now: int, lastRequestTime: int, minInterval: real): (d: real)
    ensures d >= 0.0
    ensures d == 0.0 <==> (now - lastRequestTime) as real >= minInterval
    ensures d > 0.0 ==> (now - lastRequestTime) as real + d == minInterval
  {
    var since := (now - lastRequestTime) as real;
    if since < minInterval then minInterval - since else 0.0
  }

  /** Where the limiter's running task is: none, dequeued but not yet stamped, or awaiting `fn()`. */
  datatype Phase = Idle | Waiting(task: int) | Running(task: int)

  /** How a task's `fn()` settled: its caller's promise resolved or rejected. */
  datatype Settlement = Settlement(task: int, resolved: bool)

  /**
   * `RateLimiter`. A queued closure is represented by the number of the
   * task it runs. Besides the source's fields the model keeps, as ghost
   * state, the phase of the running job and the logs of submitted,
   * started and settled tasks and of the request instants.
   */
  class RateLimiter {
    var queue: seq<int>
    var processing: bool
    var lastRequestTime: int
    const minInterval: real

    ghost var phase: Phase
    ghost var submitted: seq<int>
    ghost var started: seq<int>
    ghost var settled: seq<Settlement>
    ghost var stamps: seq<int>

    ghost predicate Inv()
      reads this
    {
      && minInterval > 0.0
      && submitted == started + queue
      && (!phase.Idle? ==> |started| > 0 && phase.task == started[|started| - 1])
      && |settled| == |started| - (if phase.Idle? then 0 else 1)
      && (forall i :: 0 <= i < |settled| ==> settled[i].task == started[i])
      && |stamps| == |started| - (if phase.Waiting? then 1 else 0)
      && SpacedBy(0, stamps, minInterval)
      && lastRequestTime == (if stamps == [] then 0 else stamps[|stamps| - 1])
    }

    /**
     * The invariant: tasks start in the order they were submitted, at most
     * one runs at a time, `processing` holds exactly while one runs and
     * the queue is empty whenever none does, and request instants are a
     * minimum interval apart.
     */
    ghost predicate Valid()
      reads this
    {
      && Inv()
      && (processing <==> !phase.Idle?)
      && (!processing ==> queue == [])
    }

    /** `new RateLimiter(requestsPerSecond)` */
    constructor (requestsPerSecond: real := DefaultRequestsPerSecond)
      requires requestsPerSecond > 0.0
      ensures Valid()
      ensures minInterval == 1000.0 / requestsPerSecond
      ensures queue == [] && !processing && lastRequestTime == 0
      ensures phase == Idle && submitted == [] && started == [] && settled == [] && stamps == []
    {
      minInterval := 1000.0 / requestsPerSecond;
      queue := [];
      processing := false;
      lastRequestTime := 0;
      phase := Idle;
      submitted := [];
      started := [];
      settled := [];
      stamps := [];
    }

    /** `processQueue()`, called when no task is running. */
    method ProcessQueue()
      requires Inv() && phase == Idle
      modifies this`queue, this`processing, this`phase, this`started
      ensures Valid()
      ensures old(queue) == [] ==> !processing && queue == [] && phase == Idle && started == old(started)
      ensures old(queue) != [] ==>
        && processing && queue == old(queue)[1..]
        && phase == Waiting(old(queue)[0]) && started == old(started) + [old(queue)[0]]
    {
      if queue == [] {
        processing := false;
        return;
      }
      processing := true;
      var next := queue[0];
      queue := queue[1..];
      started := started + [next];
      phase := Waiting(next);
    }

    /** `execute(fn)` for task `task`: enqueue, and start it at once when nothing runs. */
    method Execute(task: int)
      requires Valid()
      modifies this`queue, this`processing, this`phase, this`started, this`submitted
      ensures Valid()
      ensures submitted == old(submitted) + [task]
      ensures old(processing) ==> queue == old(queue) + [task] && phase == old(phase) && started == old(started)
      ensures !old(processing) ==> queue == [] && phase == Waiting(task) && started == old(started) + [task]
    {
      queue := queue + [task];
      submitted := submitted + [task];
      if !processing {
        ProcessQueue();
      }
    }

    /**
     * The dequeued task reads the clock (`now`), sleeps for the rest of the
     * minimum interval if any, reads the clock again (`later`), records it
     * as `lastRequestTime` and calls `fn()`. The clock is assumed monotone
     * and the sleep at least as long as requested.
     */
    method Dispatch(now: int, later: int)
      requires Valid() && phase.Waiting?
      requires now >= lastRequestTime
      requires (later - now) as real >= Delay(now, lastRequestTime, minInterval)
      modifies this`lastRequestTime, this`phase, this`stamps
      ensures Valid()
      ensures lastRequestTime == later && stamps == old(stamps) + [later]
      ensures phase == Running(old(phase).task)
      ensures (later - old(lastRequestTime)) as real >= minInterval
    {
      ghost var t := phase.task;
      ghost var last := lastRequestTime;
      assert (later - last) as real >= minInterval;
      lastRequestTime := later;
      SpacedByAppend(0, stamps, minInterval, later);
      stamps := stamps + [later];
      phase := Running(t);
    }

    /**
     * `fn()` settled: its own caller is resolved or rejected, and
     * the `finally` moves on to the next task, whatever the outcome.
     */
    method Complete(resolved: bool)
      requires Valid() && phase.Running?
      modifies this`queue, this`processing, this`phase, this`started, this`settled
      ensures Valid()
      ensures settled == old(settled) + [Settlement(old(phase).task, resolved)]
      ensures processing <==> old(queue) != []
      ensures old(queue) != [] ==> phase == Waiting(old(queue)[0]) && queue == old(queue)[1..]
    {
      settled := settled + [Settlement(phase.task, resolved)];
      phase := Idle;
      ProcessQueue();
    }
  }

  // ---------------------------------------------------------------------
  // Query strings
  // ---------------------------------------------------------------------

  /** A parameter value as passed in a `Record<string, unknown>`. */
  datatype ParamValue = PStr(s: string) | PNum(n: int) | PBool(b: bool) | PUndefined | PNull

  function BoolString(b: bool): string {
    if b then "true" else "false"
  }

  /** `String(value)` for a defined value; numbers are integers here. */
  function ParamString(v: ParamValue): string
    requires !v.PUndefined? && !v.PNull?
  {
    match v
    case PStr(s) => s
    case PNum(n) => IntToString(n)
    case PBool(b) => BoolString(b)
  }

  type Pairs = seq<(string, string)>

  /** `URLSearchParams.get(key)`: the first value under the key. */
  function Lookup(ps: Pairs, key: string): Option<string>
    decreases |ps|
  {
    if ps == [] then None else if ps[0].0 == key then Some(ps[0].1) else Lookup(ps[1..], key)
  }

  ghost predicate DistinctKeys(ps: Pairs) {
    forall i, j :: 0 <= i < j < |ps| ==> ps[i].0 != ps[j].0
  }

  function WithoutKey(ps: Pairs, key: string): Pairs {
    Filter(ps, (p: (string, string)) => p.0 != key)
  }

  /**
   * `URLSearchParams.set(key, value)`: the first pair under the key gets
   * the value and the others under it go; with none, the pair is appended.
   */
  function SetParam(ps: Pairs, key: string, value: string): (r: Pairs)
    decreases |ps|
  {
    if ps == [] then [(key, value)]
    else if ps[0].0 == key then [(key, value)] + WithoutKey(ps[1..], key)
    else [ps[0]] + SetParam(ps[1..], key, value)
  }

  lemma {:induction false} LookupWithout(ps: Pairs, key: string, other: string)
    ensures Lookup(WithoutKey(ps, key), other) == if other == key then None else Lookup(ps, other)
    decreases |ps|
  {
    if ps != [] {
      LookupWithout(ps[1..], key, other);
      var w := WithoutKey(ps, key);
      var head: Pairs := if ps[0].0 != key then [ps[0]] else [];
      assert w == head + WithoutKey(ps[1..], key);
      if ps[0].0 != key {
        assert w[0] == ps[0] && w[1..] == WithoutKey(ps[1..], key);
        assert Lookup(w, other) == if ps[0].0 == other then Some(ps[0].1) else Lookup(WithoutKey(ps[1..], key), other);
      } else {
        assert w == WithoutKey(ps[1..], key);
      }
    }
  }

  /** After `set`, the key reads back the value and every other key reads as before. */
  lemma {:induction false} SetParamLookup(ps: Pairs, key: string, value: string, other: string)
    ensures Lookup(SetParam(ps, key, value), other) == if other == key then Some(value) else Lookup(ps, other)
    decreases |ps|
  {
    if ps != [] {
      if ps[0].0 == key {
        LookupWithout(ps[1..], key, other);
      } else {
        SetParamLookup(ps[1..], key, value, other);
      }
    }
  }

  lemma {:induction false} SetParamKeys(ps: Pairs, key: string, value: string)
    requires DistinctKeys(ps)
    ensures DistinctKeys(SetParam(ps, key, value))
    ensures forall p :: p in SetParam(ps, key, value) ==> p.0 == key || p in ps
    decreases |ps|
  {
    if ps != [] {
      assert DistinctKeys(ps[1..]);
      var r := SetParam(ps, key, value);
      if ps[0].0 == key {
        var w := WithoutKey(ps[1..], key);
        assert w == Filter(ps[1..], (p: (string, string)) => p.0 != key);
        forall i, j | 0 <= i < j < |r| ensures r[i].0 != r[j].0 {
          assert r[j] == w[j - 1] && w[j - 1] in w;
          if i > 0 {
            assert r[i] == w[i - 1] && w[i - 1] in w;
            FilterPreservesDistinct(ps[1..], key, i - 1, j - 1);
          }
        }
      } else {
        SetParamKeys(ps[1..], key, value);
        var r1 := SetParam(ps[1..], key, value);
        assert r == [ps[0]] + r1;
        forall j | 0 <= j < |r1| ensures r1[j].0 != ps[0].0 {
          assert r1[j] in r1;
          if r1[j].0 != key {
            var k :| 0 <= k < |ps[1..]| && ps[1..][k] == r1[j];
            assert ps[k + 1] == r1[j];
          }
        }
        forall i, j | 0 <= i < j < |r| ensures r[i].0 != r[j].0 {
          if i > 0 {
            assert r[i] == r1[i - 1] && r[j] == r1[j - 1];
          } else {
            assert r[j] == r1[j - 1];
          }
        }
      }
    }
  }

  /** Filtering out a key keeps the other keys distinct. */
  lemma FilterPreservesDistinct(ps: Pairs, key: string, i: int, j: int)
    requires DistinctKeys(ps)
    requires 0 <= i < j < |WithoutKey(ps, key)|
    ensures WithoutKey(ps, key)[i].0 != WithoutKey(ps, key)[j].0
  {
    WithoutKeyDistinct(ps, key);
  }

  lemma {:induction false} WithoutKeyDistinct(ps: Pairs, key: string)
    requires DistinctKeys(ps)
    ensures DistinctKeys(WithoutKey(ps, key))
    decreases |ps|
  {
    if ps != [] {
      assert DistinctKeys(ps[1..]);
      WithoutKeyDistinct(ps[1..], key);
      var w := WithoutKey(ps, key);
      var w1 := WithoutKey(ps[1..], key);
      forall j | 0 <= j < |w1| ensures w1[j].0 != ps[0].0 {
        assert w1[j] in w1;
        var k :| 0 <= k < |ps[1..]| && ps[1..][k] == w1[j];
        assert ps[k + 1] == w1[j];
      }
    }
  }

  /** One step of the `forEach`: a defined value is set, `null` and `undefined` are skipped. */
  function ApplyParam(ps: Pairs, entry: (string, ParamValue)): Pairs {
    if entry.1.PUndefined? || entry.1.PNull? then ps else SetParam(ps, entry.0, ParamString(entry.1))
  }

  /** The `forEach` over `Object.entries(params)`, in order. */
  function ApplyParams(ps: Pairs, params: seq<(string, ParamValue)>): Pairs
    decreases |params|
  {
    if params == [] then ps else ApplyParams(ApplyParam(ps, params[0]), params[1..])
  }

  /** The last defined value given for a key, as a string. */
  function LastDefined(params: seq<(string, ParamValue)>, key: string): Option<string>
    decreases |params|
  {
    if params == [] then None
    else
      var rest := LastDefined(params[1..], key);
      if rest.Some? then rest
      else if params[0].0 == key && !params[0].1.PUndefined? && !params[0].1.PNull? then Some(ParamString(params[0].1))
      else None
  }

  /** A key given once reads that value, when defined. */
  lemma {:induction false} LastDefinedOnce(params: seq<(string, ParamValue)>, key: string, i: int)
    requires 0 <= i < |params| && params[i].0 == key
    requires forall j :: 0 <= j < |params| && j != i ==> params[j].0 != key
    ensures LastDefined(params, key) ==
      if params[i].1.PUndefined? || params[i].1.PNull? then None else Some(ParamString(params[i].1))
    decreases |params|
  {
    if i == 0 {
      LastDefinedAbsent(params[1..], key);
    } else {
      LastDefinedOnce(params[1..], key, i - 1);
    }
  }

  /** A key never given reads as absent. */
  lemma {:induction false} LastDefinedAbsent(params: seq<(string, ParamValue)>, key: string)
    requires forall j :: 0 <= j < |params| ==> params[j].0 != key
    ensures LastDefined(params, key).None?
    decreases |params|
  {
    if params != [] {
      LastDefinedAbsent(params[1..], key);
    }
  }

  /** Each key reads back the last defined value given for it, else what it had before. */
  lemma {:induction false} ApplyParamsLookup(ps: Pairs, params: seq<(string, ParamValue)>, key: string)
    ensures Lookup(ApplyParams(ps, params), key) == if LastDefined(params, key).Some? then LastDefined(params, key) else Lookup(ps, key)
    decreases |params|
  {
    if params != [] {
      ApplyParamsLookup(ApplyParam(ps, params[0]), params[1..], key);
      if !params[0].1.PUndefined? && !params[0].1.PNull? {
        SetParamLookup(ps, params[0].0, ParamString(params[0].1), key);
      }
    }
  }

  lemma {:induction false} ApplyParamsKeys(ps: Pairs, params: seq<(string, ParamValue)>)
    requires DistinctKeys(ps)
    ensures DistinctKeys(ApplyParams(ps, params))
    decreases |params|
  {
    if params != [] {
      if !params[0].1.PUndefined? && !params[0].1.PNull? {
        SetParamKeys(ps, params[0].0, ParamString(params[0].1));
      }
      ApplyParamsKeys(ApplyParam(ps, params[0]), params[1..]);
    }
  }

  /** The query string `buildUrl` produces: `language` first, then the parameters. */
  function SearchParams(language: string, params: seq<(string, ParamValue)>): Pairs {
    ApplyParams([("language", language)], params)
  }

  /**
   * `language` is always present: the last defined `language` parameter,
   * else the client's language; any other key holds its last defined value
   * and is absent when it was never given a defined one; and no key occurs
   * twice.
   */
  lemma SearchParamsLookup(language: string, params: seq<(string, ParamValue)>, key: string)
    ensures var sp := SearchParams(language, params);
      && Lookup(sp, "language") == (if LastDefined(params, "language").Some? then LastDefined(params, "language") else Some(language))
      && (key != "language" ==> Lookup(sp, key) == LastDefined(params, key))
      && DistinctKeys(sp)
  {
    ApplyParamsLookup([("language", language)], params, "language");
    ApplyParamsLookup([("language", language)], params, key);
    ApplyParamsKeys([("language", language)], params);
  }

  /** A URL before serialisation: the endpoint under the API base, and its query pairs. */
  datatype Url = Url(path: string, search: Pairs)

  /** `config.includeAdult` etc. may be omitted. */
  datatype ClientConfig = ClientConfig(apiKey: string, language: Option<string>, region: Option<string>, includeAdult: Option<bool>)

  /** `a || fallback` for an optional string. */
  function OrDefault(s: Option<string>, fallback: string): string {
    if s.Some? && s.value != "" then s.value else fallback
  }

  // ---------------------------------------------------------------------
  // Request outcomes and errors
  // ---------------------------------------------------------------------

  /** What `response.json()` gave: the value, or a parse failure with its message. */
  datatype JsonBody<T> = Parsed(value: T) | ParseFailed(message: string)

  /**
   * What the transport produced: `fetch` threw (with the message of an
   * `Error`, or a non-`Error` value); a 2xx response; or another status,
   * with the error payload if it could be read.
   */
  datatype FetchOutcome<T> =
    | FetchThrew(errorMessage: Option<string>)
    | OkResponse(body: JsonBody<T>)
    | ErrorResponse(status: int, statusText: string, payload: Option<TmdbErrorResponse>)

  /** The `try`/`catch` of `request`. */
  function RequestResult<T>(outcome: FetchOutcome<T>): Result<T, TmdbError> {
    match outcome
    case OkResponse(Parsed(v)) => Ok(v)
    case OkResponse(ParseFailed(m)) => Err(TmdbError("Failed to fetch from TMDB: " + m, 0, "Network Error"))
    case FetchThrew(m) => Err(TmdbError("Failed to fetch from TMDB: " + m.GetOr("Unknown error"), 0, "Network Error"))
    case ErrorResponse(status, text, payload) =>
      var code := if payload.Some? then payload.value.statusCode else status;
      var message := if payload.Some? then payload.value.statusMessage else text;
      Err(TmdbError("TMDB API Error: " + message, code, message))
  }

  /**
   * A request succeeds exactly on a 2xx response whose body parses. A
   * non-2xx response becomes an API error carrying the payload's code and
   * message, or the HTTP status and status text when there is no payload.
   * Every other failure, including a body that does not parse, becomes a
   * network error with code 0.
   */
  lemma RequestErrors<T>(outcome: FetchOutcome<T>)
    ensures var r := RequestResult(outcome);
      && (r.Ok? <==> outcome.OkResponse? && outcome.body.Parsed?)
      && (r.Ok? ==> r.value == outcome.body.value)
      && (outcome.ErrorResponse? ==>
            r == Err(TmdbError("TMDB API Error: " + r.error.statusMessage, r.error.statusCode, r.error.statusMessage))
            && (outcome.payload.Some? ==>
                  r.error.statusCode == outcome.payload.value.statusCode
                  && r.error.statusMessage == outcome.payload.value.statusMessage)
            && (outcome.payload.None? ==>
                  r.error.statusCode == outcome.status && r.error.statusMessage == outcome.statusText))
      && (outcome.FetchThrew? || (outcome.OkResponse? && outcome.body.ParseFailed?) ==>
            && r.Err? && r.error.statusCode == 0 && r.error.statusMessage == "Network Error"
            && |r.error.message| >= 27 && r.error.message[..27] == "Failed to fetch from TMDB: ")
  {
  }

  // ---------------------------------------------------------------------
  // searchMovies
  // ---------------------------------------------------------------------

  /** `Partial<TMDBSearchParams>` as `searchMovies` reads it. */
  datatype SearchOptions = SearchOptions(page: Option<int>, includeAdult: Option<bool>, primaryReleaseYear: Option<int>, year: Option<int>)

  function OptNum(n: Option<int>): ParamValue {
    if n.Some? then PNum(n.value) else PUndefined
  }

  /** The parameter object `searchMovies` passes to `request`. */
  function SearchMoviesParams(query: string, opts: SearchOptions, includeAdult: bool, region: string): seq<(string, ParamValue)> {
    [ ("query", PStr(query)),
      ("page", PNum(if opts.page.Some? && opts.page.value != 0 then opts.page.value else 1)),
      ("include_adult", PBool(if opts.includeAdult.Some? then opts.includeAdult.value else includeAdult)),
      ("region", PStr(region)),
      ("primary_release_year", OptNum(opts.primaryReleaseYear)),
      ("year", OptNum(opts.year)) ]
  }

  /**
   * The page is the given one unless it is missing or 0 (`||`), then 1;
   * adult content follows an explicit `include_adult`, even `false`, and
   * the client setting only when it is missing (`??`); the years appear
   * only when given; the language stays the client's.
   */
  lemma SearchMoviesDefaults(language: string, query: string, opts: SearchOptions, includeAdult: bool, region: string)
    ensures var sp := SearchParams(language, SearchMoviesParams(query, opts, includeAdult, region));
      && Lookup(sp, "query") == Some(query)
      && Lookup(sp, "page") == Some(IntToString(if opts.page.None? || opts.page == Some(0) then 1 else opts.page.value))
      && Lookup(sp, "include_adult") == Some(BoolString(if opts.includeAdult.Some? then opts.includeAdult.value else includeAdult))
      && Lookup(sp, "region") == Some(region)
      && Lookup(sp, "language") == Some(language)
      && Lookup(sp, "year") == (if opts.year.Some? then Some(IntToString(opts.year.value)) else None)
      && Lookup(sp, "primary_release_year") ==
           (if opts.primaryReleaseYear.Some? then Some(IntToString(opts.primaryReleaseYear.value)) else None)
  {
    var params := SearchMoviesParams(query, opts, includeAdult, region);
    LastDefinedOnce(params, "query", 0);
    LastDefinedOnce(params, "page", 1);
    LastDefinedOnce(params, "include_adult", 2);
    LastDefinedOnce(params, "region", 3);
    LastDefinedOnce(params, "primary_release_year", 4);
    LastDefinedOnce(params, "year", 5);
    LastDefinedAbsent(params, "language");
    SearchParamsLookup(language, params, "query");
    SearchParamsLookup(language, params, "page");
    SearchParamsLookup(language, params, "include_adult");
    SearchParamsLookup(language, params, "region");
    SearchParamsLookup(language, params, "year");
    SearchParamsLookup(language, params, "primary_release_year");
  }

  // ---------------------------------------------------------------------
  // TMDBClient
  // ---------------------------------------------------------------------

  /** `TMDBClient`; `requests` logs the URLs it asked the limiter to fetch. */
  class Client {
    const apiKey: string
    const language: string
    const region: string
    const includeAdult: bool
    const rateLimiter: RateLimiter
    var genresCache: Option<seq<TmdbGenre>>
    ghost var requests: seq<Url>

    /** `new TMDBClient(config)`: language 'en-US', region 'US' and no adult content unless configured. */
    constructor (config: ClientConfig)
      ensures apiKey == config.apiKey
      ensures language == OrDefault(config.language, "en-US")
      ensures region == OrDefault(config.region, "US")
      ensures includeAdult == (config.includeAdult == Some(true))
      ensures genresCache.None? && requests == []
      ensures fresh(rateLimiter) && rateLimiter.Valid() && rateLimiter.minInterval == 250.0
    {
      apiKey := config.apiKey;
      language := OrDefault(config.language, "en-US");
      region := OrDefault(config.region, "US");
      includeAdult := config.includeAdult == Some(true);
      rateLimiter := new RateLimiter();
      genresCache := None;
      requests := [];
    }

    /** `buildUrl(endpoint, params)` */
    method BuildUrl(endpoint: string, params: seq<(string, ParamValue)>) returns (url: Url)
      ensures url.path == ApiBaseUrl + endpoint
      ensures url.search == SearchParams(language, params)
    {
      var search: Pairs := [("language", language)];
      var i := 0;
      while i < |params|
        invariant 0 <= i <= |params|
        invariant ApplyParams(search, params[i..]) == SearchParams(language, params)
        decreases |params| - i
      {
        var entry := params[i];
        assert params[i..] == [entry] + params[i + 1..];
        if !entry.1.PUndefined? && !entry.1.PNull? {
          search := SetParam(search, entry.0, ParamString(entry.1));
        }
        i := i + 1;
      }
      url := Url(ApiBaseUrl + endpoint, search);
    }

    /** `request(endpoint, params)` given what the transport produced. */
    method Request<T>(endpoint: string, params: seq<(string, ParamValue)>, outcome: FetchOutcome<T>)
      returns (r: Result<T, TmdbError>)
      modifies this`requests
      ensures requests == old(requests) + [Url(ApiBaseUrl + endpoint, SearchParams(language, params))]
      ensures r == RequestResult(outcome)
    {
      var url := BuildUrl(endpoint, params);
      requests := requests + [url];
      r := RequestResult(outcome);
    }

    /**
     * `getGenres()`: while nothing is cached it requests the list (with the
     * given outcome) and caches a success; once a list is cached, even an
     * empty one, it returns it without a request.
     */
    method GetGenres(outcome: FetchOutcome<seq<TmdbGenre>>) returns (r: Result<seq<TmdbGenre>, TmdbError>)
      modifies this`genresCache, this`requests
      ensures old(genresCache).Some? ==>
        r == Ok(old(genresCache).value) && genresCache == old(genresCache) && requests == old(requests)
      ensures old(genresCache).None? ==>
        && requests == old(requests) + [Url(ApiBaseUrl + "/genre/movie/list", SearchParams(language, []))]
        && r == RequestResult(outcome)
        && genresCache == (if r.Ok? then Some(r.value) else None)
    {
      if genresCache.Some? {
        return Ok(genresCache.value);
      }
      r := Request("/genre/movie/list", [], outcome);
      if r.Ok? {
        genresCache := Some(r.value);
      }
    }

    /** `searchMovies(query, params)` */
    method SearchMovies<T>(query: string, opts: SearchOptions, outcome: FetchOutcome<T>) returns (r: Result<T, TmdbError>)
      modifies this`requests
      ensures requests == old(requests) +
        [Url(ApiBaseUrl + "/search/movie", SearchParams(language, SearchMoviesParams(query, opts, includeAdult, region)))]
      ensures r == RequestResult(outcome)
    {
      r := Request("/search/movie", SearchMoviesParams(query, opts, includeAdult, region), outcome);
    }
  }

  /** The message `getTMDBClient` throws before any client exists. */
  const NotInitialized: string := "TMDB client not initialized. Call createTMDBClient first."

  /** The module-level `tmdbClient` slot. */
  class Registry {
    var client: Client?

    constructor ()
      ensures client == null
    {
      client := null;
    }

    /** `createTMDBClient(config)`: the first call creates the client; later calls return it and ignore their config. */
    method CreateClient(config: ClientConfig) returns (c: Client)
      modifies this
      ensures client == c
      ensures old(client) != null ==> c == old(client)
      ensures old(client) == null ==>
        (fresh(c) && c.apiKey == config.apiKey
         && c.language == OrDefault(config.language, "en-US") && c.region == OrDefault(config.region, "US")
         && c.includeAdult == (config.includeAdult == Some(true)) && c.genresCache.None?)
    {
      if client == null {
        client := new Client(config);
      }
      c := client;
    }

    /** `getTMDBClient()`: the client, or the not-initialised error before any creation. */
    method GetClient() returns (r: Result<Client, string>)
      ensures client == null <==> r.Err?
      ensures r.Err? ==> r.error == NotInitialized
      ensures r.Ok? ==> r.value == client
    {
      if client == null {
        return Err(NotInitialized);
      }
      return Ok(client);
    }
  }
}
