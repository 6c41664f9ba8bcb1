/**
 * Selective prefetch and dehydration of cached queries
 * (src/utils/lib/tanstack-query/prefetch-dehydrate-keys.tsx): per-key fetch
 * options, the "some fetch key is a prefix of the query key" predicate, and
 * the prefetch-then-dehydrate sequence.
 */
module PrefetchDehydrate {
  import opened QueryClientConfig

  /** The options built for one key. */
  datatype FetchOptions = FetchOptions(queryKey: QueryKey, staleTimeMs: nat)

  const CUSTOM_STALE_TIME_MS: nat := 1000 * 60 * 5

  /** `getCustomQueryOptions`: one option per key, in the same order, each fresh for five minutes. */
  function GetCustomQueryOptions(keys: seq<QueryKey>): (options: seq<FetchOptions>)
    ensures |options| == |keys|
    ensures forall i :: 0 <= i < |keys| ==> options[i].queryKey == keys[i] && options[i].staleTimeMs == 300000
  {
    if keys == [] then [] else [FetchOptions(keys[0], CUSTOM_STALE_TIME_MS)] + GetCustomQueryOptions(keys[1..])
  }

  /** The length check followed by the element-wise `===` comparison: exactly the sequence-prefix relation. */
  predicate FetchKeyMatches(fetchKey: QueryKey, queryKey: QueryKey)
    ensures FetchKeyMatches(fetchKey, queryKey) <==> fetchKey <= queryKey
  {
    |fetchKey| <= |queryKey| && forall i :: 0 <= i < |fetchKey| ==> queryKey[i] == fetchKey[i]
  }

  /** `keysToFetch.some(...)`, scanned left to right. */
  function SomeFetchKeyMatches(keysToFetch: seq<QueryKey>, queryKey: QueryKey): (r: bool)
    ensures r <==> exists fetchKey :: fetchKey in keysToFetch && fetchKey <= queryKey
  {
    if keysToFetch == [] then false
    else if FetchKeyMatches(keysToFetch[0], queryKey) then
      assert keysToFetch[0] in keysToFetch;
      true
    else
      assert forall k :: k in keysToFetch <==> k == keysToFetch[0] || k in keysToFetch[1..];
      SomeFetchKeyMatches(keysToFetch[1..], queryKey)
  }

  /** `shouldDehydrateQuery`: array keys only, and only when some fetch key is a prefix of the key. */
  function ShouldDehydrateQuery(keysToFetch: seq<QueryKey>, key: QueryKeyValue): (r: bool)
    ensures r <==> key.ArrayKey? && exists fetchKey :: fetchKey in keysToFetch && fetchKey <= key.parts
  {
    if !key.ArrayKey? then false else SomeFetchKeyMatches(keysToFetch, key.parts)
  }

  /** `dehydrate` with that predicate: the cached queries it keeps, in cache order. */
  function Dehydrate(queries: seq<QueryKeyValue>, keysToFetch: seq<QueryKey>): (kept: seq<QueryKeyValue>)
    ensures forall q :: q in kept <==> q in queries && ShouldDehydrateQuery(keysToFetch, q)
    ensures |kept| <= |queries|
  {
    if queries == [] then []
    else
      (if ShouldDehydrateQuery(keysToFetch, queries[0]) then [queries[0]] else [])
      + Dehydrate(queries[1..], keysToFetch)
  }

  /** A fetch key longer than the query key never matches it. */
  lemma LongerFetchKeyNeverMatches(fetchKey: QueryKey, queryKey: QueryKey)
    requires |fetchKey| > |queryKey|
    ensures !FetchKeyMatches(fetchKey, queryKey)
  {
  }

  /** A query whose key is one of the fetch keys is dehydrated: the prefix relation is reflexive. */
  lemma ExactKeyDehydrated(keysToFetch: seq<QueryKey>, key: QueryKey)
    requires key in keysToFetch
    ensures ShouldDehydrateQuery(keysToFetch, ArrayKey(key))
  {
  }

  /** Nothing is dehydrated without fetch keys; an empty fetch key matches every array key; non-array keys never match. */
  lemma DehydrateEdgeCases(keysToFetch: seq<QueryKey>, key: QueryKeyValue)
    ensures !ShouldDehydrateQuery([], key)
    ensures [] in keysToFetch && key.ArrayKey? ==> ShouldDehydrateQuery(keysToFetch, key)
    ensures key.NonArrayKey? ==> !ShouldDehydrateQuery(keysToFetch, key)
  {
  }

  /** Extending a query key keeps it dehydrated: a match on a prefix is a match on every longer key. */
  lemma DehydrationClosedUnderExtension(keysToFetch: seq<QueryKey>, key: QueryKey, more: QueryKey)
    requires ShouldDehydrateQuery(keysToFetch, ArrayKey(key))
    ensures ShouldDehydrateQuery(keysToFetch, ArrayKey(key + more))
  {
    var fetchKey :| fetchKey in keysToFetch && fetchKey <= key;
    assert fetchKey <= key + more;
  }

  /**
   * `prefetchAndDehydrateQueries`: prefetches the keys one at a time in list
   * order, then dehydrates the cache. Every fetched key's own query is in the
   * result.
   */
  method PrefetchAndDehydrateQueries(client: QueryClient, keysToFetch: seq<QueryKey>)
    returns (dehydrated: seq<QueryKeyValue>)
    modifies client
    ensures client.prefetched == old(client.prefetched) + keysToFetch
    ensures forall q :: q in old(client.queries) ==> q in client.queries
    ensures forall q :: q in client.queries ==> q in old(client.queries) || q in Keys(keysToFetch)
    ensures dehydrated == Dehydrate(client.queries, keysToFetch)
    ensures forall key :: key in keysToFetch ==> ArrayKey(key) in dehydrated
  {
    for i := 0 to |keysToFetch|
      invariant client.prefetched == old(client.prefetched) + keysToFetch[..i]
      invariant forall q :: q in old(client.queries) ==> q in client.queries
      invariant forall q :: q in client.queries ==> q in old(client.queries) || q in Keys(keysToFetch)
      invariant forall j :: 0 <= j < i ==> ArrayKey(keysToFetch[j]) in client.queries
    {
      client.PrefetchQuery(keysToFetch[i]);
      assert keysToFetch[..i + 1] == keysToFetch[..i] + [keysToFetch[i]];
    }
    assert keysToFetch[..|keysToFetch|] == keysToFetch;
    dehydrated := Dehydrate(client.queries, keysToFetch);
  }

  /** The cache entries the fetch keys stand for. */
  function Keys(keysToFetch: seq<QueryKey>): (r: seq<QueryKeyValue>)
    ensures |r| == |keysToFetch| && forall i :: 0 <= i < |r| ==> r[i] == ArrayKey(keysToFetch[i])
  {
    seq(|keysToFetch|, i requires 0 <= i < |keysToFetch| => ArrayKey(keysToFetch[i]))
  }
}
