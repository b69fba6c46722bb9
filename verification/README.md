# code-server core, modelled in Dafny

This project models five small pieces of the Code payments server and proves
properties about them:

- **Cash-transactions chat messages** (`CashTransactions`). An intent record is
  mapped to an outcome: nothing, deleting the message of the gift card being
  voided, or a set of `receiver → verb` assignments under a message id. The
  outcome is then applied to an abstract chat store.
- **Third-party domains** (`Domain`, on top of `Strings`). The ASCII base
  domain is the last two dot-separated labels. The `app.getcode.com` host
  override and the registered-key scan decide domain ownership.
- **Data-provider decisions** (`DataProvider`, `TimelockCache`,
  `ExchangeRateCache`). This covers:
  - create-vs-update of payments;
  - query-option validation for the payment and exchange-rate history reads;
  - the fulfillment-to-intent not-found mapping;
  - the phone-link decision;
  - the read-through timelock cache with its five-second TTL;
  - the five-minute bucketing of exchange-rate cache keys.
- **The messaging relay** (`RelayValidation`, `Relay`, `Amounts`). A validator
  checks the request signature first, then maps a client message to the set
  of faults it has. Alongside it sits a state
  machine over the messages pending per rendezvous key, the open streams
  (presence) and the recorded payment requests.
- **Account classification** (`Owner`, `AccountInfo`). This covers:
  - the latest account records per type;
  - the owner metadata;
  - the blockchain, management and gift-card claim states of a token account;
  - rotation of temporary incoming accounts;
  - the `IsCodeAccount` and `GetTokenAccountInfos` results.

The relay and account parts are defined by the repository's tests, because
their implementations are not part of this model. Their contracts restate the
behaviour those tests pin down.

Stores, clocks, the network and signature checks are parameters:
- a store's answer is a `Result` argument;
- `now` is a `Time` in nanoseconds since Go's zero time;
- a fetched key list is a function argument;
- a signature check is a boolean.

## Model

| member | source | states |
|---|---|---|
| Strings.Split | pkg/code/thirdparty/domain.go:84 | splitting on a separator yields at least one part, no part contains the separator, and joining the parts gives back the input |
| Strings.SplitJoin | pkg/code/thirdparty/domain.go:84 | splitting a join of separator-free parts gives back exactly those parts |
| Strings.SplitCountsSeparator | pkg/code/thirdparty/domain.go:84-85 | a string splits into two or more labels exactly when it contains the separator |
| Domain.GetAsciiBaseDomain | pkg/code/thirdparty/domain.go:74-89 | an invalid domain, a failed ASCII conversion and a single-label name each give their own error; otherwise the result is a two-label suffix of the ASCII name, ending on a label boundary |
| Domain.TwoLabelNameIsItsOwnBaseDomain | pkg/code/thirdparty/domain.go:79-88 | a valid two-label ASCII name that converts to itself is its own base domain |
| Domain.BaseDomainIdempotent | pkg/code/thirdparty/domain.go:84-88 | taking the base domain of a base domain changes nothing |
| Domain.LastTwoIsLabelSuffix | pkg/code/thirdparty/domain.go:88 | the last two labels joined by a dot are a suffix of the name that starts right after a dot or at its start |
| Domain.WellKnownHost | pkg/code/thirdparty/domain.go:34-40 | base-domain errors propagate; `app.getcode.com` is used whole; any other domain uses its base domain |
| Domain.IsRegistered | pkg/code/thirdparty/domain.go:65-70 | the scan finds the owner exactly when its key is in the registered list |
| Domain.VerifyDomainNameOwnership | pkg/code/thirdparty/domain.go:28-71 | host errors and fetch errors propagate; otherwise ownership holds iff the owner's key is listed |
| CashTransactions.MessageId | pkg/code/chat/message_cash_transactions.go:88-89 | the message id is the intent id, except for an external deposit, where it is the prefix before the first `-` |
| CashTransactions.Derive | pkg/code/chat/message_cash_transactions.go:21-94 | no exchange data or an unhandled intent type gives nothing; receivers are parties of the intent; a delete or a failure happens only for a gift-card void |
| CashTransactions.NothingWithoutExchangeData | pkg/code/chat/message_cash_transactions.go:22-25 | an intent without exchange data sends nothing |
| CashTransactions.PrivateSkips | pkg/code/chat/message_cash_transactions.go:31-38 | a private micro-payment, or a private withdrawal to the initiator's own account, sends nothing |
| CashTransactions.WithdrawalVerbs | pkg/code/chat/message_cash_transactions.go:39-58 | a withdrawal gives the initiator WITHDREW and a non-empty destination owner DEPOSITED |
| CashTransactions.PublicSelfWithdrawalOverwrites | pkg/code/chat/message_cash_transactions.go:54-58 | a public withdrawal to oneself leaves one message, DEPOSITED, because the later assignment to the same key wins |
| CashTransactions.PublicNonWithdrawalIsSilent | pkg/code/chat/message_cash_transactions.go:53-59 | a public payment that is not a withdrawal has no receivers |
| CashTransactions.PrivateRemoteSendVerbs | pkg/code/chat/message_cash_transactions.go:44-45 | a private remote send gives only the initiator SENT |
| CashTransactions.PrivatePaymentVerbs | pkg/code/chat/message_cash_transactions.go:46-50 | a plain private payment gives the initiator GAVE and a non-empty destination owner RECEIVED |
| CashTransactions.RemoteSendReceiveOutcome | pkg/code/chat/message_cash_transactions.go:61-81 | a public remote-send receive gives RETURNED or RECEIVED to the initiator; voiding deletes the issuer's message, or fails when the issuing intent is missing |
| CashTransactions.MigrationVerbs | pkg/code/chat/message_cash_transactions.go:83-86 | a migration deposits to the initiator only when its quantity is positive |
| CashTransactions.ExternalDepositOutcome | pkg/code/chat/message_cash_transactions.go:88-90 | an external deposit gives its destination owner DEPOSITED under the shortened id |
| CashTransactions.ExternalDepositIdWithoutDash | pkg/code/chat/message_cash_transactions.go:89 | an intent id without `-` is used unchanged |
| CashTransactions.Record | pkg/code/chat/message_cash_transactions.go:119-131 | recording a message adds it unless its id is already there, in which case the chat is unchanged and this is not an error |
| CashTransactions.DeliverAll | pkg/code/chat/message_cash_transactions.go:96-132 | every receiver is recorded iff every receiver key is valid and every message can be built and persisted; an abort reports a receiver that failed and leaves its chat untouched; each receiver either has the message or is untouched; non-receivers are untouched |
| CashTransactions.DeleteMessage | pkg/code/chat/message_cash_transactions.go:71-73 | deleting removes only that id from that owner's chat |
| CashTransactions.SendCashTransactionsExchangeMessage | pkg/code/chat/message_cash_transactions.go:21-135 | nothing, a failure, a delete or a send is applied as derived; a failed delete changes nothing; a failed send reports a failing receiver, and each receiver either has the message or is untouched |
| CashTransactions.DeliveryIsIdempotent | pkg/code/chat/message_cash_transactions.go:129-131 | delivering the same message again after a delivery that went through changes no chat |
| DataProvider.ExecuteInTx | pkg/code/data/internal.go:527-533 | without a database the callback runs directly and its result is returned; otherwise the transaction helper runs it at the requested isolation level |
| DataProvider.NoDatabaseIgnoresTransactionHelper | pkg/code/data/internal.go:527-530 | without a database the isolation level and the transaction helper do not affect the result |
| DataProvider.TransparentHelperMakesPathsAgree | pkg/code/data/internal.go:527-533 | a transaction helper that returns the callback's result makes the database and no-database paths agree |
| DataProvider.UpdateOrCreatePayment | pkg/code/data/internal.go:862-867 | a payment with a positive id is updated, any other is created |
| DataProvider.ApplyPaymentWrite | pkg/code/data/internal.go:856-861 | a create stores the record under a fresh id; an update replaces the record with its id, or reports it missing |
| DataProvider.SavedPaymentIsReadBack | pkg/code/data/internal.go:856-867 | after saving, a lookup of the returned id gives the record, a new record gets an id no stored payment had, and every other payment is unchanged |
| DataProvider.GetPaymentHistory | pkg/code/data/internal.go:868-892 | an over-limit request is not supported; an empty cursor starts at 0; a valid filter selects the by-type query |
| DataProvider.BarePaymentHistoryRequest | pkg/code/data/internal.go:868-892 | a request without options reads everything for the account, ascending, from 0, at the maximum size |
| DataProvider.GetPaymentHistoryWithinBlockRange | pkg/code/data/internal.go:893-917 | without a valid filter the request is not supported; otherwise the block-range query is used |
| DataProvider.BlockRangeNeedsFilter | pkg/code/data/internal.go:912-916 | options that never set a filter always give query-not-supported |
| DataProvider.GetExchangeRateHistory | pkg/code/data/internal.go:602-619 | a zero start or an over-limit request is not supported; otherwise the range query uses the applied options |
| DataProvider.HistoryNeedsStart | pkg/code/data/internal.go:611-613 | options that never set a start always give query-not-supported |
| DataProvider.GetIntentBySignature | pkg/code/data/internal.go:772-781 | fulfillment not-found becomes intent not-found; other errors pass through; a found fulfillment reads its intent |
| DataProvider.IntentBySignatureHidesFulfillmentNotFound | pkg/code/data/internal.go:772-781 | the lookup never reports fulfillment not-found |
| DataProvider.IsPhoneNumberLinkedToAccount | pkg/code/data/internal.go:974-996 | errors propagate; a latest verification by another owner gives false |
| DataProvider.PhoneLinkedIff | pkg/code/data/internal.go:974-996 | the number is linked iff the latest verification is by the owner and there is no per-owner setting, or its unlink flag is nil, or false |
| DataProvider.IsPhoneNumberEnabledForRemoteSendToAccount | pkg/code/data/internal.go:997-1000 | the answer is the phone-link answer, errors included: true iff the number is linked, and an error exactly when a consulted store errs, with that store's error |
| TimelockCache.GetTimelockByVault | pkg/code/data/internal.go:1105-1153 | the store is read iff there is no fresh entry. A fresh entry is returned and the cache is unchanged. A nil cache passes through. A successful read stores the record stamped `now`. A failed read changes nothing |
| TimelockCache.ReadWithinTtlIsServedFromCache | pkg/code/data/internal.go:1105-1153 | after a successful read, a read of the same vault within five seconds returns the same record without a store read |
| TimelockCache.NilCachePassesThrough | pkg/code/data/internal.go:1105-1153 | without a cache every read goes to the store and nothing is kept |
| TimelockCache.GetTimelockByVaultBatch | pkg/code/data/internal.go:1075-1104 | the batch answer is returned as read; on success every returned record refreshes or inserts its vault's entry, stamped `now`, and other entries are untouched |
| ExchangeRateCache.Truncate | pkg/code/data/internal.go:574 | the truncated time is the multiple of five minutes at or just below the request time |
| ExchangeRateCache.TruncateIsUnique | pkg/code/data/internal.go:574 | the truncation is the only multiple in that window |
| ExchangeRateCache.TruncateIdempotent | pkg/code/data/internal.go:574 | truncating twice is truncating once |
| ExchangeRateCache.SameKeyIffSameBucket | pkg/code/data/internal.go:573-589 | two reads share a cache key exactly when they fall in the same five-minute bucket and their locations give that bucket the same UTC offset in its RFC 3339 text |
| ExchangeRateCache.OffsetSplitsTheKey | pkg/code/data/internal.go:574 | the same instant read from locations with different offsets gets two keys |
| ExchangeRateCache.GetExchangeRate | pkg/code/data/internal.go:573-587 | a cached rate is returned without a store read; a miss returns the store's answer and caches it only on success |
| ExchangeRateCache.GetAllExchangeRates | pkg/code/data/internal.go:588-601 | the same for the whole rate table, under its own key |
| ExchangeRateCache.SameBucketReadIsCached | pkg/code/data/internal.go:573-587 | a later read of the same currency in the same bucket, from a location with the same offset, is served from the cache with the same answer |
| ExchangeRateCache.SameBucketTableReadIsCached | pkg/code/data/internal.go:588-601 | the same for the rate table |
| ExchangeRateCache.DifferentBucketsDoNotShare | pkg/code/data/internal.go:573-589 | reads in different buckets use different keys, whatever their locations |
| Amounts.NatToString | pkg/code/server/grpc/messaging/server_test.go:359 | a number prints as decimal digits without a leading zero, and the digits spell the number |
| Amounts.UsdLimitAmounts | pkg/code/server/grpc/messaging/server_test.go:442-449 | the usd limits print as 0.05 and 1.00 |
| Amounts.KinMinimumAmount | pkg/code/server/grpc/messaging/server_test.go:359 | the kin minimum prints as 5000.00 |
| Amounts.KinMaximumAmount | pkg/code/server/grpc/messaging/server_test.go:366 | the kin maximum prints as 100000.00 |
| Amounts.FormatCents | pkg/code/server/grpc/messaging/server_test.go:359 | the text reads back as the amount: whole units in digits without a leading zero, a point, and two digits of hundredths |
| Amounts.MinimumReason | pkg/code/server/grpc/messaging/server_test.go:355-359 | the reason is the currency, the minimum phrase, then a text that reads back as the minimum |
| Amounts.MaximumReason | pkg/code/server/grpc/messaging/server_test.go:362-366 | the reason is the currency, the maximum phrase, then a text that reads back as the maximum |
| Amounts.StandardLimitsRenderAsTested | pkg/code/server/grpc/messaging/server_test.go:355-449 | the standard table's limits print as 5000.00 and 100000.00 for kin and as 0.05 and 1.00 for usd, the amounts in the tested reasons |
| RelayValidation.Faults | pkg/code/server/grpc/messaging/server_test.go:321-415 | a request with a bad signature earns exactly Unauthenticated; otherwise every content and domain fault is reported, a message without a signed part has only those, and Unauthenticated is reported iff the request signature or a signed part's signature is bad |
| RelayValidation.AcceptsIffValid | pkg/code/server/grpc/messaging/server_test.go:227-320 | a message is accepted iff its request signature verifies and its content, its domain and its signed part satisfy the positive requirements, the primary rule applying only to trial requests |
| RelayValidation.BadRequestSignatureFault | pkg/code/server/grpc/messaging/server_test.go:181-192 | a send whose request signature does not verify is refused as Unauthenticated, whatever it carries |
| RelayValidation.ExchangeFaults | pkg/code/server/grpc/messaging/server_test.go:338-373 | the exchange checks stop at the first failure: at most one fault, and none exactly when the exchange data is valid |
| RelayValidation.VerifiedRequestIgnoresRequestorType | pkg/code/server/grpc/messaging/server_test.go:227-273 | with a domain proof, the requestor's account type does not affect the outcome |
| RelayValidation.UnverifiedRequestIgnoresProofInputs | pkg/code/server/grpc/messaging/server_test.go:227-257 | a trial payment request does not depend on the inner signature, the domain owner or the rendezvous key; its request signature still counts |
| RelayValidation.GrabBillNotTemporaryIncoming | pkg/code/server/grpc/messaging/server_test.go:205-216 | a grab-bill request from an account that is not temporary incoming has exactly that fault |
| RelayValidation.GrabBillNotLatest | pkg/code/server/grpc/messaging/server_test.go:218-222 | one from a temporary incoming account that is not the latest has exactly that fault |
| RelayValidation.ReceiveBillNotPrimary | pkg/code/server/grpc/messaging/server_test.go:330-334 | a trial payment request (no domain proof) from a non-primary account has exactly that fault |
| RelayValidation.KinRateNotOneFault | pkg/code/server/grpc/messaging/server_test.go:341-345 | a kin rate other than 1 has exactly that fault, whatever the quarks and the amount |
| RelayValidation.QuarkMismatchFault | pkg/code/server/grpc/messaging/server_test.go:348-352 | a native amount that disagrees with the quarks has exactly that fault, whatever the amount |
| RelayValidation.ExactNotKinFault | pkg/code/server/grpc/messaging/server_test.go:369-373 | exact exchange data in a currency other than kin has exactly that fault, whatever its rate and amount |
| RelayValidation.PartialNotFiatFault | pkg/code/server/grpc/messaging/server_test.go:452-456 | partial exchange data in kin has exactly that fault, whatever its amount |
| RelayValidation.BelowMinimumFault | pkg/code/server/grpc/messaging/server_test.go:355-359 | an amount below the currency's minimum has exactly the minimum fault |
| RelayValidation.AboveMaximumFault | pkg/code/server/grpc/messaging/server_test.go:362-366 | an amount at or above the minimum but above the maximum has exactly the maximum fault |
| RelayValidation.LoginAttemptNotRelationship | pkg/code/server/grpc/messaging/server_test.go:616-620 | a login attempt from a non-relationship account has exactly that fault |
| RelayValidation.LoginAttemptWrongRelationship | pkg/code/server/grpc/messaging/server_test.go:622-626 | one from a relationship to another domain has exactly that fault |
| RelayValidation.LoginAttemptAccountMissing | pkg/code/server/grpc/messaging/server_test.go:628-632 | one from an unknown account has exactly that fault |
| RelayValidation.DomainInvalidFault | pkg/code/server/grpc/messaging/server_test.go:380-384 | an invalid domain has exactly that fault, with or without a domain proof |
| RelayValidation.NotDomainOwnerFault | pkg/code/server/grpc/messaging/server_test.go:387-391 | a verifier that does not own the domain gives exactly PermissionDenied |
| RelayValidation.BadSignatureFault | pkg/code/server/grpc/messaging/server_test.go:398-402 | a bad message signature gives exactly Unauthenticated |
| RelayValidation.RendezvousKeyMismatchFault | pkg/code/server/grpc/messaging/server_test.go:405-413 | a signed rendezvous key other than the stream's has exactly that fault |
| Relay.Store | pkg/code/server/grpc/messaging/server_test.go:17-83 | storing appends under a fresh id, delivers to an open stream for the key, and changes no other key |
| Relay.SendMessage | pkg/code/server/grpc/messaging/server_test.go:173-222 | a rejected send, including one whose request signature is bad, returns its faults and changes nothing; an accepted one appends the message with the request signature under an id new to the key, and records a payment request |
| Relay.BadlySignedSendWritesNothing | pkg/code/server/grpc/messaging/server_test.go:181-192 | a send with a bad request signature returns Unauthenticated alone and writes nothing |
| Relay.InternallyCreateMessage | pkg/code/server/grpc/messaging/server_test.go:142-156 | a server-created message is stored under the key with the returned id and no request signature |
| Relay.Without | pkg/code/server/grpc/messaging/server_test.go:674-685 | removing ids keeps exactly the other messages, in order |
| Relay.AckMessages | pkg/code/server/grpc/messaging/server_test.go:674-685 | acknowledging removes exactly the acknowledged messages of that key |
| Relay.SignedAckMessages | pkg/code/server/grpc/messaging/server_test.go:674-685 | an acknowledgement with a bad request signature is Unauthenticated; otherwise exactly the acknowledged messages leave the key |
| Relay.OpenMessageStream | pkg/code/server/grpc/messaging/server_test.go:17-83 | opening records presence and delivers everything pending for the key |
| Relay.SignedOpenMessageStream | pkg/code/server/grpc/messaging/server_test.go:17-83 | opening with a bad request signature is Unauthenticated; otherwise presence is recorded and the pending messages are delivered |
| Relay.CloseMessageStream | pkg/code/server/grpc/messaging/server_test.go:26-40 | closing deletes the presence record and keeps the pending messages |
| Relay.PresenceFollowsStream | pkg/code/server/grpc/messaging/server_test.go:26-40 | presence exists while the stream is open and is gone after it closes |
| Relay.AckAllThenPollIsEmpty | pkg/code/server/grpc/messaging/server_test.go:666-687 | a poll after acknowledging every pending id is empty |
| Relay.AckIdempotent | pkg/code/server/grpc/messaging/server_test.go:674-685 | acknowledging the same ids twice is acknowledging them once |
| Relay.OpenBeforeOrAfterSendDeliversTheSame | pkg/code/server/grpc/messaging/server_test.go:17-83 | a stream opened before the send and one opened after it deliver the same single message with the sent id |
| Relay.SendPollAckRoundTrip | pkg/code/server/grpc/messaging/server_test.go:666-687 | send, poll and ack: the message is received once and is then gone |
| Owner.LatestByType | pkg/code/common/owner_test.go:133-171 | the owner's records are keyed by account type, exactly for the types it holds, each joined with its token account's timelock |
| Owner.LatestIsLast | pkg/code/common/owner_test.go:133-171 | each entry is the latest record of its type |
| Owner.GetLatestTokenAccountRecordsForOwner | pkg/code/common/owner_test.go:120-171 | one entry per held type, all of the owner's; the legacy 2022 primary is included when its vault has a timelock record |
| Owner.RecordsJoinOnTokenAccount | pkg/code/common/owner_test.go:166-171 | each entry's token account is its timelock's vault address |
| Owner.NoAccountsNoRecords | pkg/code/common/owner_test.go:126-128 | an owner with no accounts has no records |
| Owner.AddingAnAccountSetsItsType | pkg/code/common/owner_test.go:138-171 | adding an account sets the entry for its type and leaves the others |
| Owner.GetOwnerMetadata | pkg/code/common/owner_test.go:19-116 | not found iff there are no records and no verification; a gift-card owner has no verification; the state is CodeAccount iff records exist |
| Owner.OpeningPrimaryMakesCodeAccount | pkg/code/common/owner_test.go:34-72 | a phone-verified owner is a 12-word user not yet found; opening a primary account makes it a Code account with the same verification |
| Owner.GiftCardOwnerIgnoresVerification | pkg/code/common/owner_test.go:86-115 | a gift-card owner is classified as such, with no verification |
| AccountInfo.BlockchainStateOf | pkg/code/server/grpc/account/server_test.go:537-541 | the vault exists while it is unlocked, unlocking or locked, and not when its state is unknown or closed |
| AccountInfo.ManagementStateOf | pkg/code/server/grpc/account/server_test.go:570-635 | none iff the subsidizer is not both authorities; otherwise locked when locked or never observed (block 0), unknown when unknown at a later block, unlocked when unlocked, unlocking when waiting for timeout, closed when closed |
| AccountInfo.ObservedStatesAgree | pkg/code/server/grpc/account/server_test.go:529-621 | for an observed vault the two classifications agree |
| AccountInfo.GiftCardClaimState | pkg/code/server/grpc/account/server_test.go:281-390 | auto-return means expired; a claim or a closed vault means claimed; while locked, not claimed iff a balance remains; otherwise unknown |
| AccountInfo.InfoFor | pkg/code/server/grpc/account/server_test.go:230-255 | user accounts report their cached balance from the cache with claim state unknown; a gift card reports a balance only while not claimed, never rotates, and carries its issuing exchange data |
| AccountInfo.GiftCardRows | pkg/code/server/grpc/account/server_test.go:281-509 | the gift-card lifecycle rows: balance source, blockchain, management and claim states, and balance for each case |
| AccountInfo.Collect | pkg/code/server/grpc/account/server_test.go:216-229 | every shown record is listed under its vault address and every listed entry describes a shown record |
| AccountInfo.GetTokenAccountInfos | pkg/code/server/grpc/account/server_test.go:188-278 | a request not signed by the owner is unauthenticated. Otherwise the shown accounts are listed by vault, not found iff none is listed, and primary accounts are marked for deposit sync |
| AccountInfo.NotFoundIffNothingShown | pkg/code/server/grpc/account/server_test.go:718-737 | the listing is not found exactly when none of the owner's accounts is shown |
| AccountInfo.LegacyShownIff | pkg/code/server/grpc/account/server_test.go:739-843 | the legacy 2022 primary account is listed until its owner migrates or its vault closes |
| AccountInfo.HiddenLegacyOnlyOwnerIsNotFound | pkg/code/server/grpc/account/server_test.go:781-843 | an owner whose only account is a migrated or closed legacy account gets not found with nothing listed |
| AccountInfo.IsCodeAccount | pkg/code/server/grpc/account/server_test.go:66-185 | an unsigned request is unauthenticated; no records gives not found; any unlocked or unlocking account gives UNLOCKED_TIMELOCK_ACCOUNT; otherwise OK |
| AccountInfo.UnsignedRequestsAreRefused | pkg/code/server/grpc/account/server_test.go:845-875 | a request not signed by the owner is unauthenticated for both calls |
| AccountInfo.UnlockingAnAccountRefusesOwner | pkg/code/server/grpc/account/server_test.go:141-185 | unlocking any one of the owner's accounts makes IsCodeAccount refuse |
| AccountInfo.UnlockingLegacyAccountRefusesOwner | pkg/code/server/grpc/account/server_test.go:141-185 | the same for the legacy 2022 primary account |

## Left out

- HTTP fetch, status check and JSON decoding in `VerifyDomainNameOwnership` are a `fetch` function argument, because they are network I/O.
- `netutil.ValidateDomainName` and the IDNA conversion are uninterpreted functions in a `Codec`, because they are foreign libraries.
- Database plumbing is out: store constructors, connection pools, and the body of `pg.ExecuteTxWithinCtx`. So are the one-line delegations in `internal.go`. None of them holds decision logic.
- Locks, `time.Now`, and the cache library's weight budget and eviction are out. Time is a parameter, and the caches are maps that only grow.
- The exchange-rate cache key is a datatype: the currency or the whole table, the truncated time, and the UTC offset of the request's location at that time. RFC 3339 text of a whole-second instant determines this pair and is determined by it, so the text itself is not built.
- ExchangeRateCache.GetExchangeRate keeps single-rate keys apart from the rate-table key. In the source a currency code spelled `everything` would share the rate table's key text, and the unchecked type assertion would then fail. Currency codes are ISO codes, so no code is spelled that way.
- `maxPaymentHistoryReqSize` and `maxCurrencyHistoryReqSize` are parameters, because their values are not part of this model.
- `req.Apply` and `query.FromCursor` are not shown in the source. Options are applied in order, last one wins, and cursor decoding is a function argument.
- DataProvider.Apply ignores the `Supported` mask each request sets up. How `req.Apply` treats an option outside the mask is not shown in the source, so the model applies every option. Examples are a start time on payment history or a cursor on exchange-rate history.
- DataProvider.ApplyPaymentWrite stands for the payment store's `Put` and `Update`, whose code is not part of this model. A fresh id on create and a not-found error for a missing id are assumed.
- Ed25519 signatures and proto marshalling are out. A signature check is a boolean.
- `SendChatMessage` and `newProtoChatMessage` are abstracted to "record the message id and verb in the receiver's chat". Whether building or persisting one receiver's message fails, and whether deleting the voided gift card's message fails, are inputs. The exchange data is carried along but not rendered.
- The relay draws message ids from a counter, not at random. The model keeps only the property that a new id differs from every stored id.
- Presence is one stream per key. Several streams on one key and their reference counting are out.
- Stream keep-alive, ping cadence, the max-age timers and cross-server delivery are out, because they are timing and concurrency.
- The skipped no-active-stream test describes disabled behaviour, so it is not modelled.
- RelayValidation.Faults reports the set of faults of different parts of a message, not their order. The tests only ever inject one fault at a time. The request-signature check comes first and the exchange-data checks stop at their first failure; the order of the other checks is not fixed.
- RelayValidation.Faults checks domain ownership only through a domain proof. A trial payment request names no verifier, so there is no owner to check.
- RelayValidation.BadRequestSignatureFault: the messaging tests never send a request whose own signature is bad. They only corrupt the signature inside the message. The refusal of such a request as Unauthenticated, and of a badly signed acknowledgement or stream open (Relay.SignedAckMessages, Relay.SignedOpenMessageStream), follows the convention that pkg/code/server/grpc/account/server_test.go:845-875 shows for the account service. The messaging tests cited for those rows exercise only the correctly signed path.
- RelayValidation.ReceiveBillAccountFaults does not check a payment-request requestor that the account store does not hold. The tests only show a known non-primary account being refused.
- The conversion `QuarksPerKin = 100000` comes from the kin package, which is not part of this model.
- Currency limits are a table argument, with the kin and usd values the source tests use as `StandardLimits`. A currency that has no entry is not range-checked.
- Amounts.MinimumReason and Amounts.MaximumReason are proved to be the currency, the phrase, and a text that reads back as the limit. The tested amounts ("5000.00", "0.05", ...) are proved as literals, but whole reason strings are not, because that proof is too expensive for the solver.
- What the server does with a client-sent code-scanned message is out. The model stores server-created messages only through `InternallyCreateMessage`.
- The account service's implementation is not part of this model. `AccountInfo` and `Owner` follow the tests. Cases the tests leave open follow the rule the rows covered by the tests share, as described next.
- AccountInfo.GiftCardClaimState: an intent with both a claim and an auto-return is taken as expired, an order the tests do not fix.
- AccountInfo.IsCodeAccount considers only timelock states. It does not look at a foreign time or close authority, which the tests do not exercise here.
- Owner.GetOwnerMetadata reports only the NotFound and CodeAccount management states, the ones the tests show. Other owner states are not modelled.
- Owner.GetLatestTokenAccountRecordsForOwner skips an account-info record whose token account has no timelock record. The tests always save both.
- Balances, quantities and exchange rates are unbounded `nat`s and exact `real`s, not 64-bit integers and floats.
