/**
 * The query cache configuration (lib/queryClient.ts): the retry backoff,
 * the cache and retry settings, and the browser-side single instance.
 */
module QueryClientConfig {
  import opened Common

  /** `CACHE_TIMES.default`: five minutes in milliseconds. */
  const DefaultCacheTime: int := 1000 * 60 * 5

  /** The backoff ceiling, milliseconds. */
  const MaxRetryDelay: int := 30000

  function Pow2(n: nat): (r: nat)
    ensures r >= 1
  {
    if n == 0 then 1 else 2 * Pow2(n - 1)
  }

  lemma {:induction false} Pow2Monotone(a: nat, b: nat)
    requires a <= b
    ensures Pow2(a) <= Pow2(b)
    decreases b
  {
    if a < b {
      Pow2Monotone(a, b - 1);
    }
  }

  /** `retryDelay(attemptIndex) = Math.min(1000 * 2 ** attemptIndex, 30000)` */
  function RetryDelay(attempt: nat): (d: int)
    ensures 1000 <= d <= MaxRetryDelay
  {
    Min(1000 * Pow2(attempt), MaxRetryDelay)
  }

  /**
   * The first retry waits one second; each later one waits at least as
   * long as the one before, twice as long until the ceiling, and 30 s
   * from the sixth attempt on.
   */
  lemma RetryDelayShape(a: nat, b: nat)
    ensures RetryDelay(0) == 1000
    ensures a <= b ==> RetryDelay(a) <= RetryDelay(b)
    ensures a >= 5 ==> RetryDelay(a) == MaxRetryDelay
    ensures a < 4 ==> RetryDelay(a + 1) == 2 * RetryDelay(a)
  {
    if a <= b {
      Pow2Monotone(a, b);
    }
    if a >= 5 {
      Pow2Monotone(5, a);
    }
    if a < 4 {
      Pow2Monotone(a + 1, 4);
    }
  }

  /** The default options for queries. */
  datatype QueryOptions = QueryOptions(
    staleTime: int,
    gcTime: int,
    retry: int,
    refetchOnWindowFocus: bool,
    refetchOnReconnect: bool,
    refetchOnMount: bool,
    networkMode: string)

  /** The default options for mutations: a fixed retry delay. */
  datatype MutationOptions = MutationOptions(retry: int, retryDelay: int, networkMode: string)

  /** `defaultQueryOptions` */
  datatype DefaultOptions = DefaultOptions(queries: QueryOptions, mutations: MutationOptions)

  function QueryDefaults(): (o: DefaultOptions)
    ensures o.queries.gcTime == 5 * o.queries.staleTime == 25 * 60 * 1000
    ensures o.queries.retry == 3 && o.mutations.retry == 1 && o.mutations.retryDelay == 1000
    ensures !o.queries.refetchOnWindowFocus && o.queries.refetchOnReconnect && o.queries.refetchOnMount
  {
    DefaultOptions(
      QueryOptions(DefaultCacheTime, DefaultCacheTime * 5, 3, false, true, true, "online"),
      MutationOptions(1, 1000, "online"))
  }

  /** A cache client created with the default options. */
  class QueryClient {
    const options: DefaultOptions

    /** `createQueryClient()` */
    constructor ()
      ensures options == QueryDefaults()
    {
      options := QueryDefaults();
    }
  }

  /** The module-level `queryClient` slot. */
  class QueryClientSlot {
    var instance: QueryClient?

    /** A kept client was created with the defaults. */
    ghost predicate Valid()
      reads this
    {
      instance != null ==> instance.options == QueryDefaults()
    }

    constructor ()
      ensures Valid() && instance == null
    {
      instance := null;
    }

    /**
     * `getQueryClient()`: on the server (no `window`) a fresh client on
     * every call, the slot untouched; in the browser the client of the
     * first call, created then.
     */
    method GetQueryClient(onServer: bool) returns (c: QueryClient)
      requires Valid()
      modifies this
      ensures Valid()
      ensures onServer ==> fresh(c) && instance == old(instance)
      ensures !onServer && old(instance) != null ==> c == old(instance) && instance == c
      ensures !onServer && old(instance) == null ==> fresh(c) && instance == c
      ensures c.options == QueryDefaults()
    {
      if onServer {
        c := new QueryClient();
        return;
      }
      if instance == null {
        instance := new QueryClient();
      }
      c := instance;
    }
  }
}
