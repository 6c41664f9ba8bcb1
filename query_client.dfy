/**
 * The query-cache client configuration (src/utils/lib/tanstack-query/query-client.ts):
 * query defaults, the retry predicate, the mutation-cache callbacks as the
 * effects they request (toasts and invalidations), and the browser-side
 * singleton. The cache library itself is not modelled; a client records the
 * queries it holds and the keys it was asked to prefetch.
 */
module QueryClientConfig {
  import opened Wrappers
  import opened JsStrings

  /** One element of a query key: a string or a number. */
  datatype KeyPart = KeyString(s: string) | KeyNumber(n: int)

  type QueryKey = seq<KeyPart>

  /** The key a cached query carries: normally an array, but the cache does not enforce it. */
  datatype QueryKeyValue = ArrayKey(parts: QueryKey) | NonArrayKey

  /** A thrown value: an `Error` with its message, or anything else. */
  datatype Thrown = ErrorObject(message: string) | NonError

  /** Extra settings a mutation may carry; absent fields are `None`. */
  datatype MutationMeta = MutationMeta(
    invalidatesQuery: Option<QueryKey>,
    successMessage: Option<string>,
    errorMessage: Option<string>)

  /** An effect a mutation callback requests. */
  datatype Effect = SuccessToast(message: string) | ErrorToast(message: string) | Invalidate(queryKey: QueryKey)

  datatype QueryDefaults = QueryDefaults(staleTimeMs: nat, gcTimeMs: nat, refetchOnWindowFocus: bool)

  const FIVE_MINUTES_MS: nat := 1000 * 60 * 5
  const MAX_RETRIES: nat := 3
  const AUTHORIZATION := "Authorization"
  const GENERIC_ERROR := "An unexpected error occurred."

  /** Defaults for every query: cached data is fresh, and kept, for five minutes; no refetch on focus. */
  function DefaultQueryOptions(): (d: QueryDefaults)
    ensures d.staleTimeMs == d.gcTimeMs
    ensures d.staleTimeMs % 60000 == 0 && d.staleTimeMs / 60000 == 5
    ensures !d.refetchOnWindowFocus
  {
    QueryDefaults(1000 * 60 * 5, 5 * 60 * 1000, false)
  }

  predicate IsAuthorizationError(error: Thrown) {
    error.ErrorObject? && Contains(error.message, AUTHORIZATION)
  }

  /** The retry predicate, asked with the number of failures so far. */
  function Retry(failureCount: int, error: Thrown): (r: bool)
    ensures r ==> failureCount < MAX_RETRIES && !IsAuthorizationError(error)
  {
    if IsAuthorizationError(error) then false else failureCount < MAX_RETRIES
  }

  /** How many of the failure counts 0 .. n-1 the predicate allows a retry for. */
  function RetriesGranted(error: Thrown, n: nat): nat {
    if n == 0 then 0 else RetriesGranted(error, n - 1) + (if Retry(n - 1, error) then 1 else 0)
  }

  /** An authorization error is never retried; any other error is retried for the first three failures and no more. */
  lemma {:induction false} RetryBudget(error: Thrown, n: nat)
    ensures RetriesGranted(error, n) == if IsAuthorizationError(error) then 0 else if n < MAX_RETRIES then n else MAX_RETRIES
  {
    if n > 0 {
      RetryBudget(error, n - 1);
    }
  }

  /** A message counts only when it is a non-empty string. */
  predicate Truthy(s: Option<string>) {
    s.Some? && s.value != ""
  }

  function MetaSuccessMessage(meta: Option<MutationMeta>): Option<string> {
    if meta.Some? then meta.value.successMessage else None
  }

  function MetaErrorMessage(meta: Option<MutationMeta>): Option<string> {
    if meta.Some? then meta.value.errorMessage else None
  }

  function MetaInvalidates(meta: Option<MutationMeta>): Option<QueryKey> {
    if meta.Some? then meta.value.invalidatesQuery else None
  }

  /** `onSuccess`: a success toast only when the mutation names a success message. */
  function OnSuccess(meta: Option<MutationMeta>): (effects: seq<Effect>)
    ensures |effects| <= 1
    ensures effects != [] <==> Truthy(MetaSuccessMessage(meta))
    ensures effects != [] ==> effects[0] == SuccessToast(MetaSuccessMessage(meta).value)
  {
    if Truthy(MetaSuccessMessage(meta)) then [SuccessToast(MetaSuccessMessage(meta).value)] else []
  }

  /** `onError`: exactly one error toast, whose message falls back from the error, to the mutation's, to a generic one. */
  method OnError(error: Thrown, meta: Option<MutationMeta>) returns (effects: seq<Effect>)
    ensures |effects| == 1 && effects[0].ErrorToast? && effects[0].message != ""
    ensures error.ErrorObject? && error.message != "" ==> effects[0].message == error.message
    ensures !(error.ErrorObject? && error.message != "") && Truthy(MetaErrorMessage(meta)) ==>
      effects[0].message == MetaErrorMessage(meta).value
    ensures !(error.ErrorObject? && error.message != "") && !Truthy(MetaErrorMessage(meta)) ==>
      effects[0].message == GENERIC_ERROR
  {
    var message: Option<string> := None;
    if error.ErrorObject? && error.message != "" {
      message := Some(error.message);
    }
    if !Truthy(message) && Truthy(MetaErrorMessage(meta)) {
      message := MetaErrorMessage(meta);
    }
    if !Truthy(message) {
      message := Some(GENERIC_ERROR);
    }
    effects := [ErrorToast(message.value)];
  }

  /** `onSettled`: invalidate exactly the key the mutation names, if any. */
  function OnSettled(meta: Option<MutationMeta>): (effects: seq<Effect>)
    ensures MetaInvalidates(meta).None? ==> effects == []
    ensures MetaInvalidates(meta).Some? ==> effects == [Invalidate(MetaInvalidates(meta).value)]
  {
    match MetaInvalidates(meta)
    case None => []
    case Some(key) => [Invalidate(key)]
  }

  /** A query client: the queries in its cache and the keys it was asked to prefetch, in order. */
  class QueryClient {
    var queries: seq<QueryKeyValue>
    var prefetched: seq<QueryKey>
    const defaults: QueryDefaults

    /** `makeQueryClient`: an empty cache with the default query options. */
    constructor ()
      ensures queries == [] && prefetched == [] && defaults == DefaultQueryOptions()
    {
      queries := [];
      prefetched := [];
      defaults := DefaultQueryOptions();
    }

    /** `prefetchQuery`: records the request and leaves a query with that key in the cache. */
    method PrefetchQuery(key: QueryKey)
      modifies this
      ensures prefetched == old(prefetched) + [key]
      ensures queries == if ArrayKey(key) in old(queries) then old(queries) else old(queries) + [ArrayKey(key)]
    {
      prefetched := prefetched + [key];
      if ArrayKey(key) !in queries {
        queries := queries + [ArrayKey(key)];
      }
    }
  }

  /** The module-level slot that holds the browser's client. */
  class ClientRegistry {
    var browserQueryClient: QueryClient?

    constructor ()
      ensures browserQueryClient == null
    {
      browserQueryClient := null;
    }

    /** `getQueryClient`: a fresh client per call on the server; in the browser, one client made on first use. */
    method GetQueryClient(onServer: bool) returns (client: QueryClient)
      modifies this
      ensures onServer ==> fresh(client) && browserQueryClient == old(browserQueryClient)
      ensures !onServer && old(browserQueryClient) != null ==>
        client == old(browserQueryClient) && browserQueryClient == old(browserQueryClient)
      ensures !onServer && old(browserQueryClient) == null ==> fresh(client) && browserQueryClient == client
      ensures fresh(client) ==> client.queries == [] && client.prefetched == [] && client.defaults == DefaultQueryOptions()
    {
      if onServer {
        client := new QueryClient();
      } else {
        if browserQueryClient == null {
          browserQueryClient := new QueryClient();
        }
        client := browserQueryClient;
      }
    }
  }

  /** Two browser-side calls hand out the same client, while two server-side calls never do. */
  method SingletonInBrowser(registry: ClientRegistry) returns (first: QueryClient, second: QueryClient, a: QueryClient, b: QueryClient)
    modifies registry
    ensures first == second
    ensures a != b
  {
    first := registry.GetQueryClient(false);
    second := registry.GetQueryClient(false);
    a := registry.GetQueryClient(true);
    b := registry.GetQueryClient(true);
  }
}
