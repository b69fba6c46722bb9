/**
 * The read-through timelock cache in front of the timelock store
 * (`GetTimelockByVault`, `GetTimelockByVaultBatch`), modelled sequentially:
 * the cache is a plain map from vault address to the cached record and the
 * time it was last refreshed, the clock is the `now` parameter, and the store's
 * answer is an input. A missing cache (`None`) is the test provider's nil cache.
 */
module TimelockCache {
  import opened Shared
  import opened Accounts

  /** Cached values are served for at most this long. */
  const Ttl: int := 5 * Second

  datatype Entry = Entry(record: TimelockRecord, lastUpdatedAt: Time)

  type Cache = Option<map<Account, Entry>>

  /** A read's answer, the cache afterwards, and whether the store was consulted. */
  datatype Read = Read(result: Result<TimelockRecord, string>, cache: Cache, storeRead: bool)

  /** The cache holds an entry for `vault` refreshed less than the TTL before `now`. */
  predicate IsFresh(cache: Cache, vault: Account, now: Time)
  {
    cache.Some? && vault in cache.value && now - cache.value[vault].lastUpdatedAt < Ttl
  }

  /** `fetch` is the store's answer for `vault`, used only when the store is read. */
  function GetTimelockByVault(cache: Cache, vault: Account, now: Time, fetch: Result<TimelockRecord, string>)
    : (r: Read)
    ensures r.storeRead <==> !IsFresh(cache, vault, now)
    ensures r.storeRead ==> r.result == fetch
    ensures !r.storeRead ==> r.result == Ok(cache.value[vault].record) && r.cache == cache
    ensures cache.None? ==> r.cache.None?
    ensures cache.Some? && r.storeRead && fetch.Ok? ==> r.cache == Some(cache.value[vault := Entry(fetch.value, now)])
    ensures r.storeRead && fetch.Err? ==> r.cache == cache
  {
    match cache
    case None => Read(fetch, None, true)
    case Some(m) =>
      if vault in m && now - m[vault].lastUpdatedAt < Ttl then Read(Ok(m[vault].record), cache, false)
      else if fetch.Ok? then Read(fetch, Some(m[vault := Entry(fetch.value, now)]), true)
      else Read(fetch, cache, true)
  }

  /**
   * After a successful read through a configured cache, any read of the same
   * vault within the TTL returns the same record without touching the store,
   * whatever the store would have answered.
   */
  lemma ReadWithinTtlIsServedFromCache(
    m: map<Account, Entry>, vault: Account, t1: Time, t2: Time,
    first: Result<TimelockRecord, string>, second: Result<TimelockRecord, string>)
    requires t1 <= t2 < t1 + Ttl
    requires GetTimelockByVault(Some(m), vault, t1, first).result.Ok?
    requires GetTimelockByVault(Some(m), vault, t1, first).storeRead
    ensures var r1 := GetTimelockByVault(Some(m), vault, t1, first);
            var r2 := GetTimelockByVault(r1.cache, vault, t2, second);
            !r2.storeRead && r2.result == r1.result && r2.cache == r1.cache
  {
  }

  /** Without a cache every read goes to the store and nothing is remembered. */
  lemma NilCachePassesThrough(vault: Account, now: Time, fetch: Result<TimelockRecord, string>)
    ensures GetTimelockByVault(None, vault, now, fetch) == Read(fetch, None, true)
  {
  }

  /** The vault addresses of a batch of records. */
  ghost function VaultsOf(records: seq<TimelockRecord>): set<Account>
  {
    set r | r in records :: r.vaultAddress
  }

  /**
   * A batch read always goes to the store; every record it returns refreshes or
   * inserts the entry under its own vault address, stamped `now`. Other entries
   * are untouched, and a failed read changes nothing.
   */
  method GetTimelockByVaultBatch(cache: Cache, fetched: Result<seq<TimelockRecord>, string>, now: Time)
    returns (result: Result<seq<TimelockRecord>, string>, cache': Cache)
    ensures result == fetched
    ensures fetched.Err? || cache.None? ==> cache' == cache
    ensures fetched.Ok? && cache.Some? ==>
              && cache'.Some?
              && cache'.value.Keys == cache.value.Keys + VaultsOf(fetched.value)
              && (forall v | v in cache.value && v !in VaultsOf(fetched.value) :: cache'.value[v] == cache.value[v])
              && (forall v | v in VaultsOf(fetched.value) ::
                    cache'.value[v].lastUpdatedAt == now
                    && cache'.value[v].record in fetched.value
                    && cache'.value[v].record.vaultAddress == v)
  {
    result := fetched;
    if fetched.Err? || cache.None? {
      cache' := cache;
      return;
    }
    var batch := fetched.value;
    var m := cache.value;
    var i := 0;
    while i < |batch|
      invariant 0 <= i <= |batch|
      invariant m.Keys == cache.value.Keys + VaultsOf(batch[..i])
      invariant forall v | v in cache.value && v !in VaultsOf(batch[..i]) :: m[v] == cache.value[v]
      invariant forall v | v in VaultsOf(batch[..i]) ::
                  m[v].lastUpdatedAt == now && m[v].record in batch[..i] && m[v].record.vaultAddress == v
    {
      var record := batch[i];
      assert batch[..i + 1] == batch[..i] + [record];
      assert VaultsOf(batch[..i + 1]) == VaultsOf(batch[..i]) + {record.vaultAddress};
      m := m[record.vaultAddress := Entry(record, now)];
      i := i + 1;
    }
    assert batch[..i] == batch;
    cache' := Some(m);
  }
}
