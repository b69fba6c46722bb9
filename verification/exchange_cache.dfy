/**
 * The exchange-rate cache in front of the currency store (`GetExchangeRate`,
 * `GetAllExchangeRates`). Rates are cached per five-minute bucket: a request
 * time is truncated down to a multiple of five minutes since Go's zero time,
 * and the cache key names the currency (or "everything") and that bucket in
 * RFC 3339 text. The text shows the bucket's instant together with the UTC
 * offset of the request time's location, so the key is modelled as the pair
 * (bucket, offset): RFC 3339 text determines both, and both determine it.
 * Times are nanoseconds since Go's zero time. The cache's weight budget and
 * eviction are not modelled: the cache is a map that only grows.
 */
module ExchangeRateCache {
  import opened Shared

  const BucketWidth: int := 5 * Minute

  /** `t` rounded down to a multiple of `d`. */
  function Truncate(t: Time, d: int): (r: Time)
    requires d > 0
    ensures r <= t < r + d
    ensures r == d * (t / d)
  {
    t - t % d
  }

  lemma MulMonotone(d: int, a: int, b: int)
    requires d > 0 && a <= b
    ensures d * a <= d * b
  {
  }

  /** The truncation is the only multiple of `d` in the window (t - d, t]. */
  lemma {:induction false} TruncateIsUnique(t: Time, d: int, k: int)
    requires d > 0 && d * k <= t < d * k + d
    ensures d * k == Truncate(t, d)
  {
    var q := t / d;
    if k < q {
      MulMonotone(d, k + 1, q);
    } else if k > q {
      MulMonotone(d, q + 1, k);
    }
  }

  /** Truncation is idempotent. */
  lemma TruncateIdempotent(t: Time, d: int)
    requires d > 0
    ensures Truncate(Truncate(t, d), d) == Truncate(t, d)
  {
    TruncateIsUnique(Truncate(t, d), d, t / d);
  }

  /** A time's location, as the UTC offset (in seconds) it has at each instant. */
  type Location = Time -> int

  /** Cache keys: one rate of one currency, or the whole rate table, for a bucket rendered at an offset. */
  datatype Key = Rate(code: string, bucket: Time, offset: int) | AllRates(bucket: Time, offset: int)

  function RateKey(code: string, t: Time, loc: Location): Key
  {
    var bucket := Truncate(t, BucketWidth);
    Rate(code, bucket, loc(bucket))
  }

  function AllRatesKey(t: Time, loc: Location): Key
  {
    var bucket := Truncate(t, BucketWidth);
    AllRates(bucket, loc(bucket))
  }

  /**
   * Two request times share a key exactly when they fall in the same
   * five-minute bucket and their locations render that bucket with the same
   * UTC offset.
   */
  lemma {:induction false} SameKeyIffSameBucket(code: string, t1: Time, loc1: Location, t2: Time, loc2: Location)
    ensures RateKey(code, t1, loc1) == RateKey(code, t2, loc2) <==>
              t1 / BucketWidth == t2 / BucketWidth && loc1(Truncate(t1, BucketWidth)) == loc2(Truncate(t2, BucketWidth))
    ensures AllRatesKey(t1, loc1) == AllRatesKey(t2, loc2) <==>
              t1 / BucketWidth == t2 / BucketWidth && loc1(Truncate(t1, BucketWidth)) == loc2(Truncate(t2, BucketWidth))
  {
    var q1, q2 := t1 / BucketWidth, t2 / BucketWidth;
    if q1 < q2 {
      MulMonotone(BucketWidth, q1 + 1, q2);
    } else if q2 < q1 {
      MulMonotone(BucketWidth, q2 + 1, q1);
    }
  }

  /** The same instant read in two locations with different offsets gets two keys, and so two cache entries. */
  lemma OffsetSplitsTheKey(code: string, t: Time, loc1: Location, loc2: Location)
    requires loc1(Truncate(t, BucketWidth)) != loc2(Truncate(t, BucketWidth))
    ensures RateKey(code, t, loc1) != RateKey(code, t, loc2)
    ensures AllRatesKey(t, loc1) != AllRatesKey(t, loc2)
  {
  }

  datatype ExchangeRateRecord = ExchangeRateRecord(symbol: string, rate: real, time: Time)
  datatype MultiRateRecord = MultiRateRecord(rates: map<string, real>, time: Time)

  datatype Cached = SingleRate(single: ExchangeRateRecord) | MultiRate(multi: MultiRateRecord)

  type Cache = map<Key, Cached>

  /** Single-rate keys hold single rates and rate-table keys hold rate tables. */
  ghost predicate WellTyped(cache: Cache)
  {
    forall k | k in cache :: k.Rate? <==> cache[k].SingleRate?
  }

  datatype Fetched<V> = Fetched(result: Result<V, string>, cache: Cache, storeRead: bool)

  /** `fetch` is the store's answer for (`code`, `t`), used only on a cache miss; `loc` is `t`'s location. */
  function GetExchangeRate(cache: Cache, code: string, t: Time, loc: Location, fetch: Result<ExchangeRateRecord, string>)
    : (r: Fetched<ExchangeRateRecord>)
    requires WellTyped(cache)
    ensures WellTyped(r.cache)
    ensures r.storeRead <==> RateKey(code, t, loc) !in cache
    ensures !r.storeRead ==> r.result == Ok(cache[RateKey(code, t, loc)].single) && r.cache == cache
    ensures r.storeRead ==> r.result == fetch
    ensures r.storeRead && fetch.Ok? ==> r.cache == cache[RateKey(code, t, loc) := SingleRate(fetch.value)]
    ensures r.storeRead && fetch.Err? ==> r.cache == cache
  {
    var key := RateKey(code, t, loc);
    if key in cache then Fetched(Ok(cache[key].single), cache, false)
    else if fetch.Ok? then Fetched(fetch, cache[key := SingleRate(fetch.value)], true)
    else Fetched(fetch, cache, true)
  }

  /** `fetch` is the store's rate table for `t`, used only on a cache miss. */
  function GetAllExchangeRates(cache: Cache, t: Time, loc: Location, fetch: Result<MultiRateRecord, string>)
    : (r: Fetched<MultiRateRecord>)
    requires WellTyped(cache)
    ensures WellTyped(r.cache)
    ensures r.storeRead <==> AllRatesKey(t, loc) !in cache
    ensures !r.storeRead ==> r.result == Ok(cache[AllRatesKey(t, loc)].multi) && r.cache == cache
    ensures r.storeRead ==> r.result == fetch
    ensures r.storeRead && fetch.Ok? ==> r.cache == cache[AllRatesKey(t, loc) := MultiRate(fetch.value)]
    ensures r.storeRead && fetch.Err? ==> r.cache == cache
  {
    var key := AllRatesKey(t, loc);
    if key in cache then Fetched(Ok(cache[key].multi), cache, false)
    else if fetch.Ok? then Fetched(fetch, cache[key := MultiRate(fetch.value)], true)
    else Fetched(fetch, cache, true)
  }

  /**
   * Once a rate has been read for a bucket, every later read of the same
   * currency in the same bucket, from a location with the same offset there,
   * returns it without consulting the store.
   */
  lemma {:induction false} SameBucketReadIsCached(
    cache: Cache, code: string, t1: Time, loc1: Location, t2: Time, loc2: Location,
    first: Result<ExchangeRateRecord, string>, second: Result<ExchangeRateRecord, string>)
    requires WellTyped(cache)
    requires GetExchangeRate(cache, code, t1, loc1, first).result.Ok?
    requires t1 / BucketWidth == t2 / BucketWidth
    requires loc1(Truncate(t1, BucketWidth)) == loc2(Truncate(t2, BucketWidth))
    ensures var r1 := GetExchangeRate(cache, code, t1, loc1, first);
            var r2 := GetExchangeRate(r1.cache, code, t2, loc2, second);
            !r2.storeRead && r2.result == r1.result
  {
    SameKeyIffSameBucket(code, t1, loc1, t2, loc2);
  }

  /** The same for the whole rate table. */
  lemma {:induction false} SameBucketTableReadIsCached(
    cache: Cache, t1: Time, loc1: Location, t2: Time, loc2: Location,
    first: Result<MultiRateRecord, string>, second: Result<MultiRateRecord, string>)
    requires WellTyped(cache)
    requires GetAllExchangeRates(cache, t1, loc1, first).result.Ok?
    requires t1 / BucketWidth == t2 / BucketWidth
    requires loc1(Truncate(t1, BucketWidth)) == loc2(Truncate(t2, BucketWidth))
    ensures var r1 := GetAllExchangeRates(cache, t1, loc1, first);
            var r2 := GetAllExchangeRates(r1.cache, t2, loc2, second);
            !r2.storeRead && r2.result == r1.result
  {
    SameKeyIffSameBucket("", t1, loc1, t2, loc2);
  }

  /** Reads in different buckets never share a cached answer, whatever their locations. */
  lemma {:induction false} DifferentBucketsDoNotShare(code: string, t1: Time, loc1: Location, t2: Time, loc2: Location)
    requires t1 / BucketWidth != t2 / BucketWidth
    ensures RateKey(code, t1, loc1) != RateKey(code, t2, loc2)
    ensures AllRatesKey(t1, loc1) != AllRatesKey(t2, loc2)
  {
    SameKeyIffSameBucket(code, t1, loc1, t2, loc2);
  }
}
