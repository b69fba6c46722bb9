/**
 * The decision logic of the data provider: transaction dispatch, payment
 * create-versus-update, query-option validation for payment and exchange-rate
 * history, the fulfillment-to-intent error translation, and the phone-link check.
 * Every store read is an input: either the store's answer itself or a lookup
 * function standing for the store.
 */
module DataProvider {
  import opened Shared

  datatype StoreError =
    | QueryNotSupported
    | FulfillmentNotFound
    | IntentNotFound
    | PaymentNotFound
    | Backend(message: string)   // any other failure, passed through unchanged

  // ---------------------------------------------------------------------------
  // ExecuteInTx

  datatype IsolationLevel = Default | ReadCommitted | RepeatableRead | Serializable

  /**
   * Runs `fn` directly when no database is configured, otherwise through the
   * transaction helper `inTx` at the requested isolation level. The helper is
   * a parameter: its body is not part of this model.
   */
  function ExecuteInTx<T>(hasDatabase: bool, isolation: IsolationLevel, fn: () -> T,
                          inTx: (IsolationLevel, () -> T) -> T): (r: T)
    ensures !hasDatabase ==> r == fn()
    ensures hasDatabase ==> r == inTx(isolation, fn)
  {
    if !hasDatabase then fn() else inTx(isolation, fn)
  }

  /** Without a database neither the isolation level nor the transaction helper matters. */
  lemma NoDatabaseIgnoresTransactionHelper<T>(
    i1: IsolationLevel, i2: IsolationLevel, fn: () -> T,
    inTx1: (IsolationLevel, () -> T) -> T, inTx2: (IsolationLevel, () -> T) -> T)
    ensures ExecuteInTx(false, i1, fn, inTx1) == ExecuteInTx(false, i2, fn, inTx2) == fn()
  {
  }

  /** A helper that returns the callback's own result makes both paths agree. */
  lemma TransparentHelperMakesPathsAgree<T>(
    isolation: IsolationLevel, fn: () -> T, inTx: (IsolationLevel, () -> T) -> T)
    requires inTx(isolation, fn) == fn()
    ensures ExecuteInTx(true, isolation, fn, inTx) == ExecuteInTx(false, isolation, fn, inTx)
  {
  }

  // ---------------------------------------------------------------------------
  // Payments

  /** A payment record; an id of 0 means the record has not been persisted yet. */
  datatype PaymentRecord = PaymentRecord(id: nat, signature: string, index: nat, quantity: nat)

  datatype PaymentWrite = Update(record: PaymentRecord) | Create(record: PaymentRecord)

  function UpdateOrCreatePayment(record: PaymentRecord): (w: PaymentWrite)
    ensures w.record == record
    ensures w.Update? <==> record.id > 0
  {
    if record.id > 0 then Update(record) else Create(record)
  }

  /**
   * The payment store as the data provider relies on it: records by id, and
   * the next id `Put` assigns. The store's own code is not part of this model;
   * `Put` gives the record a fresh id, and `Update` replaces the record with
   * the same id or reports it missing.
   */
  datatype PaymentStore = PaymentStore(records: map<nat, PaymentRecord>, nextId: nat)

  ghost predicate PaymentStoreValid(store: PaymentStore)
  {
    && store.nextId > 0
    && (forall id | id in store.records :: 0 < id < store.nextId && store.records[id].id == id)
  }

  datatype Written = Written(store: PaymentStore, id: nat)

  function ApplyPaymentWrite(store: PaymentStore, w: PaymentWrite): (r: Result<Written, StoreError>)
    requires PaymentStoreValid(store)
    ensures r.Ok? ==> PaymentStoreValid(r.value.store)
    ensures r.Err? <==> w.Update? && w.record.id !in store.records
    ensures r.Err? ==> r.error == PaymentNotFound
  {
    match w
    case Create(record) =>
      var id := store.nextId;
      Ok(Written(PaymentStore(store.records[id := record.(id := id)], id + 1), id))
    case Update(record) =>
      if record.id in store.records then Ok(Written(store.(records := store.records[record.id := record]), record.id))
      else Err(PaymentNotFound)
  }

  /**
   * Saving a payment through `UpdateOrCreatePayment`: a new record gets an id
   * no stored payment had, an existing one keeps its id, a lookup of that id
   * returns the record, and every other payment is unchanged.
   */
  lemma SavedPaymentIsReadBack(store: PaymentStore, record: PaymentRecord)
    requires PaymentStoreValid(store)
    ensures var r := ApplyPaymentWrite(store, UpdateOrCreatePayment(record));
            && (r.Err? <==> record.id > 0 && record.id !in store.records)
            && (r.Ok? ==>
                  && (record.id == 0 ==> r.value.id !in store.records)
                  && (record.id > 0 ==> r.value.id == record.id)
                  && r.value.id in r.value.store.records
                  && r.value.store.records[r.value.id] == record.(id := r.value.id)
                  && (forall id | id != r.value.id :: (id in r.value.store.records <==> id in store.records)))
            && (r.Ok? ==> forall id | id != r.value.id && id in store.records :: r.value.store.records[id] == store.records[id])
  {
  }

  // ---------------------------------------------------------------------------
  // Query options

  datatype SortOrder = Ascending | Descending
  datatype Interval = Raw | Hour | Day | Week | Month

  datatype QueryOptions = QueryOptions(
    limit: nat,
    cursor: seq<bv8>,
    sortBy: SortOrder,
    filterBy: Option<int>,    // a valid filter carries its value
    start: Time,              // 0 is Go's zero time
    end: Time,
    interval: Interval)

  /** One caller-supplied option; each overwrites one field of the defaults. */
  datatype QueryOption =
    | WithLimit(limit: nat)
    | WithCursor(cursor: seq<bv8>)
    | WithDirection(sortBy: SortOrder)
    | WithFilter(value: int)
    | WithStartTime(start: Time)
    | WithEndTime(end: Time)
    | WithInterval(interval: Interval)

  function ApplyOne(q: QueryOptions, o: QueryOption): QueryOptions
  {
    match o
    case WithLimit(n) => q.(limit := n)
    case WithCursor(c) => q.(cursor := c)
    case WithDirection(s) => q.(sortBy := s)
    case WithFilter(v) => q.(filterBy := Some(v))
    case WithStartTime(t) => q.(start := t)
    case WithEndTime(t) => q.(end := t)
    case WithInterval(i) => q.(interval := i)
  }

  /** Applies the options in order, so a later option overrides an earlier one. */
  function Apply(q: QueryOptions, opts: seq<QueryOption>): QueryOptions
    decreases |opts|
  {
    if |opts| == 0 then q else Apply(ApplyOne(q, opts[0]), opts[1..])
  }

  /** The payment-history defaults: the maximum page size, ascending order. */
  function PaymentDefaults(maxSize: nat): QueryOptions
  {
    QueryOptions(maxSize, [], Ascending, None, 0, 0, Raw)
  }

  /** The store query a payment-history request turns into. */
  datatype PaymentQuery =
    | AllForAccount(account: Account, cursor: nat, limit: nat, sortBy: SortOrder)
    | AllForAccountByType(account: Account, cursor: nat, limit: nat, sortBy: SortOrder, paymentType: int)
    | ByTypeWithinBlockRange(account: Account, lower: nat, upper: nat, cursor: nat, limit: nat,
                             sortBy: SortOrder, paymentType: int)

  /** The cursor handed to the store: the decoded cursor, or 0 when none was given. */
  function CursorValue(cursor: seq<bv8>, fromCursor: seq<bv8> -> nat): nat
  {
    if |cursor| > 0 then fromCursor(cursor) else 0
  }

  function GetPaymentHistory(account: Account, opts: seq<QueryOption>, maxSize: nat, fromCursor: seq<bv8> -> nat)
    : (r: Result<PaymentQuery, StoreError>)
    ensures var q := Apply(PaymentDefaults(maxSize), opts);
            && (r.Err? <==> q.limit > maxSize)
            && (r.Err? ==> r.error == QueryNotSupported)
            && (r.Ok? ==> r.value.account == account && r.value.limit == q.limit <= maxSize
                          && r.value.sortBy == q.sortBy
                          && r.value.cursor == CursorValue(q.cursor, fromCursor))
            && (r.Ok? ==> (r.value.AllForAccountByType? <==> q.filterBy.Some?))
            && (r.Ok? && q.filterBy.Some? ==> r.value.paymentType == q.filterBy.value)
            && (r.Ok? ==> !r.value.ByTypeWithinBlockRange?)
  {
    var q := Apply(PaymentDefaults(maxSize), opts);
    if q.limit > maxSize then Err(QueryNotSupported)
    else
      var cursor := CursorValue(q.cursor, fromCursor);
      if q.filterBy.Some? then Ok(AllForAccountByType(account, cursor, q.limit, q.sortBy, q.filterBy.value))
      else Ok(AllForAccount(account, cursor, q.limit, q.sortBy))
  }

  function GetPaymentHistoryWithinBlockRange(
    account: Account, lower: nat, upper: nat, opts: seq<QueryOption>, maxSize: nat, fromCursor: seq<bv8> -> nat)
    : (r: Result<PaymentQuery, StoreError>)
    ensures var q := Apply(PaymentDefaults(maxSize), opts);
            && (r.Ok? <==> q.limit <= maxSize && q.filterBy.Some?)
            && (r.Err? ==> r.error == QueryNotSupported)
            && (r.Ok? ==> r.value == ByTypeWithinBlockRange(account, lower, upper, CursorValue(q.cursor, fromCursor),
                                                            q.limit, q.sortBy, q.filterBy.value))
  {
    var q := Apply(PaymentDefaults(maxSize), opts);
    if q.limit > maxSize then Err(QueryNotSupported)
    else if q.filterBy.Some? then
      Ok(ByTypeWithinBlockRange(account, lower, upper, CursorValue(q.cursor, fromCursor), q.limit, q.sortBy, q.filterBy.value))
    else Err(QueryNotSupported)
  }

  /** Applying no options leaves the defaults, so a bare request reads the first full page in ascending order. */
  lemma BarePaymentHistoryRequest(account: Account, maxSize: nat, fromCursor: seq<bv8> -> nat)
    ensures GetPaymentHistory(account, [], maxSize, fromCursor) == Ok(AllForAccount(account, 0, maxSize, Ascending))
  {
  }

  /** Options never touch fields they do not name: a filter-free option list keeps the filter unset. */
  lemma {:induction false} ApplyKeepsFilterUnlessSet(q: QueryOptions, opts: seq<QueryOption>)
    requires forall i | 0 <= i < |opts| :: !opts[i].WithFilter?
    ensures Apply(q, opts).filterBy == q.filterBy
    decreases |opts|
  {
    if |opts| > 0 {
      ApplyKeepsFilterUnlessSet(ApplyOne(q, opts[0]), opts[1..]);
    }
  }

  /** Without a filter option, the block-range history is never supported. */
  lemma BlockRangeNeedsFilter(
    account: Account, lower: nat, upper: nat, opts: seq<QueryOption>, maxSize: nat, fromCursor: seq<bv8> -> nat)
    requires forall i | 0 <= i < |opts| :: !opts[i].WithFilter?
    ensures GetPaymentHistoryWithinBlockRange(account, lower, upper, opts, maxSize, fromCursor) == Err(QueryNotSupported)
  {
    ApplyKeepsFilterUnlessSet(PaymentDefaults(maxSize), opts);
  }

  // ---------------------------------------------------------------------------
  // Exchange-rate history

  /** The exchange-rate-history defaults: maximum page size, ending now, ascending. */
  function CurrencyHistoryDefaults(maxSize: nat, now: Time): QueryOptions
  {
    QueryOptions(maxSize, [], Ascending, None, 0, now, Raw)
  }

  datatype RangeQuery = RangeQuery(currency: string, interval: Interval, start: Time, end: Time, sortBy: SortOrder)

  function GetExchangeRateHistory(currency: string, opts: seq<QueryOption>, maxSize: nat, now: Time)
    : (r: Result<RangeQuery, StoreError>)
    ensures var q := Apply(CurrencyHistoryDefaults(maxSize, now), opts);
            && (r.Err? <==> q.start == 0 || q.limit > maxSize)
            && (r.Err? ==> r.error == QueryNotSupported)
            && (r.Ok? ==> r.value == RangeQuery(currency, q.interval, q.start, q.end, q.sortBy))
  {
    var q := Apply(CurrencyHistoryDefaults(maxSize, now), opts);
    if q.start == 0 then Err(QueryNotSupported)
    else if q.limit > maxSize then Err(QueryNotSupported)
    else Ok(RangeQuery(currency, q.interval, q.start, q.end, q.sortBy))
  }

  /** A history request without a start time is refused, whatever else it asks for. */
  lemma {:induction false} ApplyKeepsStartUnlessSet(q: QueryOptions, opts: seq<QueryOption>)
    requires forall i | 0 <= i < |opts| :: !opts[i].WithStartTime?
    ensures Apply(q, opts).start == q.start
    decreases |opts|
  {
    if |opts| > 0 {
      ApplyKeepsStartUnlessSet(ApplyOne(q, opts[0]), opts[1..]);
    }
  }

  lemma HistoryNeedsStart(currency: string, opts: seq<QueryOption>, maxSize: nat, now: Time)
    requires forall i | 0 <= i < |opts| :: !opts[i].WithStartTime?
    ensures GetExchangeRateHistory(currency, opts, maxSize, now) == Err(QueryNotSupported)
  {
    ApplyKeepsStartUnlessSet(CurrencyHistoryDefaults(maxSize, now), opts);
  }

  // ---------------------------------------------------------------------------
  // Intent by signature

  datatype Fulfillment = Fulfillment(signature: string, intent: string)

  /**
   * The intent owning the fulfillment with a signature. `lookup` is the
   * fulfillment store's answer for the signature; `getIntent` is the intent store.
   */
  function GetIntentBySignature<I>(lookup: Result<Fulfillment, StoreError>, getIntent: string -> Result<I, StoreError>)
    : (r: Result<I, StoreError>)
    ensures lookup == Err(FulfillmentNotFound) ==> r == Err(IntentNotFound)
    ensures lookup.Err? && lookup.error != FulfillmentNotFound ==> r == Err(lookup.error)
    ensures lookup.Ok? ==> r == getIntent(lookup.value.intent)
  {
    match lookup
    case Err(FulfillmentNotFound) => Err(IntentNotFound)
    case Err(e) => Err(e)
    case Ok(f) => getIntent(f.intent)
  }

  /** The fulfillment not-found error never escapes: callers only see the intent one. */
  lemma IntentBySignatureHidesFulfillmentNotFound<I>(
    lookup: Result<Fulfillment, StoreError>, getIntent: string -> Result<I, StoreError>)
    requires forall id :: getIntent(id) != Err(FulfillmentNotFound)
    ensures GetIntentBySignature(lookup, getIntent) != Err(FulfillmentNotFound)
  {
  }

  // ---------------------------------------------------------------------------
  // Phone linking

  datatype Verification = Verification(phoneNumber: string, ownerAccount: Account)
  datatype OwnerAccountSetting = OwnerAccountSetting(isUnlinked: Option<bool>)
  datatype PhoneSettings = PhoneSettings(byOwnerAccount: map<Account, OwnerAccountSetting>)

  /** The phone's latest verification is for `owner` and the owner has not unlinked it. */
  ghost predicate Linked(owner: Account, latest: Verification, settings: PhoneSettings)
  {
    && latest.ownerAccount == owner
    && (owner in settings.byOwnerAccount ==> settings.byOwnerAccount[owner].isUnlinked != Some(true))
  }

  /**
   * Whether a phone number is linked to an owner account. `latest` is the latest
   * verification for the number and `settings` the number's settings, as the
   * stores return them; the settings are only consulted when the owners match.
   */
  function IsPhoneNumberLinkedToAccount(
    owner: Account, latest: Result<Verification, StoreError>, settings: Result<PhoneSettings, StoreError>)
    : (r: Result<bool, StoreError>)
    ensures latest.Err? ==> r == Err(latest.error)
    ensures latest.Ok? && latest.value.ownerAccount != owner ==> r == Ok(false)
    ensures latest.Ok? && latest.value.ownerAccount == owner && settings.Err? ==> r == Err(settings.error)
  {
    if latest.Err? then Err(latest.error)
    else if latest.value.ownerAccount != owner then Ok(false)
    else if settings.Err? then Err(settings.error)
    else if owner !in settings.value.byOwnerAccount then Ok(true)
    else
      var setting := settings.value.byOwnerAccount[owner];
      if setting.isUnlinked.None? then Ok(true)
      else Ok(!setting.isUnlinked.value)
  }

  /** The check answers true exactly when the number is linked, and errs exactly when a consulted store erred. */
  lemma PhoneLinkedIff(owner: Account, latest: Result<Verification, StoreError>, settings: Result<PhoneSettings, StoreError>)
    ensures var r := IsPhoneNumberLinkedToAccount(owner, latest, settings);
            && (r == Ok(true) <==> latest.Ok? && settings.Ok? && Linked(owner, latest.value, settings.value))
            && (r.Err? <==> latest.Err? || (latest.value.ownerAccount == owner && settings.Err?))
  {
  }

  /** Remote send to a number is enabled exactly when the number is linked. */
  function IsPhoneNumberEnabledForRemoteSendToAccount(
    owner: Account, latest: Result<Verification, StoreError>, settings: Result<PhoneSettings, StoreError>)
    : (r: Result<bool, StoreError>)
    ensures r == Ok(true) <==> latest.Ok? && settings.Ok? && Linked(owner, latest.value, settings.value)
    ensures r.Err? <==> latest.Err? || (latest.value.ownerAccount == owner && settings.Err?)
    ensures r.Err? ==> r.error == (if latest.Err? then latest.error else settings.error)
    ensures r == IsPhoneNumberLinkedToAccount(owner, latest, settings)
  {
    PhoneLinkedIff(owner, latest, settings);
    IsPhoneNumberLinkedToAccount(owner, latest, settings)
  }
}
