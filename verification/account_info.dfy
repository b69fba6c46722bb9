/**
 * The account service's read side (`IsCodeAccount`, `GetTokenAccountInfos`):
 * how each of an owner's token accounts is classified from its timelock record
 * and the ledger facts the service consults (cached balances, received
 * payments, gift-card claim and auto-return actions, the exchange data of the
 * intent that issued a gift card, and migration intents). The request
 * signature check is the boolean `signedByOwner`.
 */
module AccountInfo {
  import opened Shared
  import opened Accounts
  import opened Owner

  datatype BlockchainState = BlockchainExists | BlockchainDoesNotExist

  datatype ManagementState = ManagementNone | ManagementLocked | ManagementUnlocking
                           | ManagementUnlocked | ManagementClosed | ManagementUnknown

  datatype ClaimState = ClaimUnknown | NotClaimed | Claimed | Expired

  datatype BalanceSource = SourceUnknown | SourceCache

  /** The exchange data a gift card was issued with. */
  datatype OriginalExchange = OriginalExchange(currency: string, exchangeRate: real, nativeAmount: real, quarks: nat)

  datatype TokenAccountInfo = TokenAccountInfo(
    address: Account,
    owner: Account,
    authority: Account,
    accountType: AccountType,
    index: nat,
    balanceSource: BalanceSource,
    balance: nat,
    managementState: ManagementState,
    blockchainState: BlockchainState,
    mustRotate: bool,
    claimState: ClaimState,
    originalExchange: Option<OriginalExchange>)

  /**
   * What the service reads besides the account records, keyed by token
   * account unless noted: cached balances in quarks, the number of payments
   * received, gift cards with a claim or an auto-return action, the issuing
   * exchange data of gift cards, and the owners with a 2022 privacy migration
   * intent.
   */
  datatype Ledger = Ledger(
    cachedBalances: map<Account, nat>,
    paymentsReceived: map<Account, nat>,
    claimed: set<Account>,
    autoReturned: set<Account>,
    issuedWith: map<Account, OriginalExchange>,
    migrated: set<Account>,
    subsidizer: Account)

  datatype RpcError = Unauthenticated

  /** The vault exists on chain while it is observed unlocked, unlocking or locked. */
  function BlockchainStateOf(state: TimelockState): (r: BlockchainState)
    ensures r == BlockchainExists <==> state != StateUnknown && state != Closed
  {
    match state
    case StateUnknown => BlockchainDoesNotExist
    case Unlocked => BlockchainExists
    case WaitingForTimeout => BlockchainExists
    case Locked => BlockchainExists
    case Closed => BlockchainDoesNotExist
  }

  /** Both authorities of the vault are the subsidizer. */
  predicate ManagedBySubsidizer(timelock: TimelockRecord, subsidizer: Account)
  {
    timelock.timeAuthority == subsidizer && timelock.closeAuthority == subsidizer
  }

  /**
   * The management state: none unless the subsidizer holds both authorities;
   * otherwise the observed state, where a never-observed record (block 0) is
   * taken as locked.
   */
  function ManagementStateOf(timelock: TimelockRecord, subsidizer: Account): (r: ManagementState)
    ensures r == ManagementNone <==> !ManagedBySubsidizer(timelock, subsidizer)
    ensures r == ManagementLocked <==>
              ManagedBySubsidizer(timelock, subsidizer)
              && (timelock.state == Locked || (timelock.state == StateUnknown && timelock.block == 0))
    ensures r == ManagementUnknown <==>
              ManagedBySubsidizer(timelock, subsidizer) && timelock.state == StateUnknown && timelock.block > 0
    ensures r == ManagementUnlocked <==> ManagedBySubsidizer(timelock, subsidizer) && timelock.state == Unlocked
    ensures r == ManagementUnlocking <==> ManagedBySubsidizer(timelock, subsidizer) && timelock.state == WaitingForTimeout
    ensures r == ManagementClosed <==> ManagedBySubsidizer(timelock, subsidizer) && timelock.state == Closed
  {
    if !ManagedBySubsidizer(timelock, subsidizer) then ManagementNone
    else
      match timelock.state
      case StateUnknown => if timelock.block == 0 then ManagementLocked else ManagementUnknown
      case Unlocked => ManagementUnlocked
      case WaitingForTimeout => ManagementUnlocking
      case Locked => ManagementLocked
      case Closed => ManagementClosed
  }

  /**
   * For a vault managed by the subsidizer and observed on chain at least
   * once, the two classifications agree: it exists exactly when its management
   * state is locked, unlocking or unlocked.
   */
  lemma ObservedStatesAgree(timelock: TimelockRecord, subsidizer: Account)
    requires ManagedBySubsidizer(timelock, subsidizer) && timelock.block > 0
    ensures var m := ManagementStateOf(timelock, subsidizer);
            BlockchainStateOf(timelock.state) == BlockchainExists <==>
              m == ManagementLocked || m == ManagementUnlocking || m == ManagementUnlocked
  {
  }

  /**
   * A gift card's claim state: expired once auto-returned; claimed once a
   * claim exists or the vault is closed; while locked, claimed exactly when
   * its balance is gone; unknown otherwise.
   */
  function GiftCardClaimState(management: ManagementState, cached: nat, claimed: bool, autoReturned: bool)
    : (r: ClaimState)
    ensures autoReturned ==> r == Expired
    ensures !autoReturned && (claimed || management == ManagementClosed) ==> r == Claimed
    ensures r == NotClaimed <==> !autoReturned && !claimed && management == ManagementLocked && cached > 0
    ensures r == ClaimUnknown <==>
              !autoReturned && !claimed && management != ManagementLocked && management != ManagementClosed
  {
    if autoReturned then Expired
    else if claimed || management == ManagementClosed then Claimed
    else if management == ManagementLocked then (if cached == 0 then Claimed else NotClaimed)
    else ClaimUnknown
  }

  function CachedBalance(ledger: Ledger, account: Account): nat
  {
    if account in ledger.cachedBalances then ledger.cachedBalances[account] else 0
  }

  /** The full classification of one account. */
  function InfoFor(records: AccountRecords, ledger: Ledger): (r: TokenAccountInfo)
    ensures r.address == records.timelock.vaultAddress
    ensures r.owner == records.general.ownerAccount && r.authority == records.general.authorityAccount
    ensures r.accountType == records.general.accountType && r.index == records.general.index
    ensures r.blockchainState == BlockchainStateOf(records.timelock.state)
    ensures r.managementState == ManagementStateOf(records.timelock, ledger.subsidizer)
    ensures r.mustRotate <==>
              && records.general.accountType == TemporaryIncoming
              && records.general.tokenAccount in ledger.paymentsReceived
              && ledger.paymentsReceived[records.general.tokenAccount] > 0
    ensures records.general.accountType != RemoteSendGiftCard ==>
              && r.claimState == ClaimUnknown
              && r.balanceSource == SourceCache
              && r.balance == CachedBalance(ledger, records.general.tokenAccount)
              && r.originalExchange == None
    ensures records.general.accountType == RemoteSendGiftCard ==>
              && !r.mustRotate
              && (r.balanceSource == SourceUnknown <==> r.claimState == ClaimUnknown)
              && (r.balance > 0 ==> r.claimState == NotClaimed)
              && (r.claimState == NotClaimed ==> r.balance == CachedBalance(ledger, records.general.tokenAccount))
              && (records.general.tokenAccount in ledger.issuedWith ==>
                    r.originalExchange == Some(ledger.issuedWith[records.general.tokenAccount]))
  {
    var general := records.general;
    var account := general.tokenAccount;
    var management := ManagementStateOf(records.timelock, ledger.subsidizer);
    var cached := CachedBalance(ledger, account);
    var received := if account in ledger.paymentsReceived then ledger.paymentsReceived[account] else 0;
    var isGiftCard := general.accountType == RemoteSendGiftCard;
    var claimedInCode := isGiftCard && account in ledger.claimed;
    var autoReturnedInCode := isGiftCard && account in ledger.autoReturned;
    var claimState := if isGiftCard then GiftCardClaimState(management, cached, claimedInCode, autoReturnedInCode)
                      else ClaimUnknown;
    var source := if isGiftCard && claimState == ClaimUnknown then SourceUnknown else SourceCache;
    var balance :=
      if claimedInCode || autoReturnedInCode || claimState == Claimed || claimState == Expired then 0
      else if source == SourceCache then cached
      else 0;
    var original := if isGiftCard && account in ledger.issuedWith then Some(ledger.issuedWith[account]) else None;
    TokenAccountInfo(
      records.timelock.vaultAddress, general.ownerAccount, general.authorityAccount, general.accountType, general.index,
      source, balance, management, BlockchainStateOf(records.timelock.state),
      general.accountType == TemporaryIncoming && received > 0, claimState, original)
  }

  /**
   * Whether an account is listed: the legacy 2022 primary account is hidden
   * once its owner has a migration intent or its vault is closed.
   */
  predicate Shown(accountType: AccountType, records: AccountRecords, ledger: Ledger, owner: Account)
  {
    accountType != LegacyPrimary2022 || (owner !in ledger.migrated && records.timelock.state != Closed)
  }

  /** The account types listed for `owner`. */
  function ShownTypes(store: Store, ledger: Ledger, owner: Account): set<AccountType>
  {
    var records := GetLatestTokenAccountRecordsForOwner(store, owner);
    set t | t in records && Shown(t, records[t], ledger, owner)
  }

  /**
   * Lists the shown records of `types` by vault address: every shown record
   * is listed, and every listed info describes a shown record of its type.
   */
  function Collect(types: seq<AccountType>, records: map<AccountType, AccountRecords>, ledger: Ledger, owner: Account)
    : (r: map<Account, TokenAccountInfo>)
    requires forall t | t in records :: records[t].general.accountType == t
    ensures forall v | v in r ::
              && r[v].address == v
              && r[v].accountType in records
              && Shown(r[v].accountType, records[r[v].accountType], ledger, owner)
              && r[v] == InfoFor(records[r[v].accountType], ledger)
    ensures forall t | t in types && t in records && Shown(t, records[t], ledger, owner) ::
              records[t].timelock.vaultAddress in r
    decreases |types|
  {
    if types == [] then map[]
    else
      var m := Collect(types[1..], records, ledger, owner);
      var t := types[0];
      if t in records && Shown(t, records[t], ledger, owner) then
        m[records[t].timelock.vaultAddress := InfoFor(records[t], ledger)]
      else
        m
  }

  const AllAccountTypes: seq<AccountType> := [
    UnknownAccountType, Primary, TemporaryIncoming, TemporaryOutgoing,
    Bucket1Kin, Bucket10Kin, Bucket100Kin, Bucket1000Kin, Bucket10000Kin, Bucket100000Kin, Bucket1000000Kin,
    LegacyPrimary2022, RemoteSendGiftCard, Relationship]

  lemma EveryTypeIsListed()
    ensures forall t: AccountType :: t in AllAccountTypes
  {
    forall t: AccountType
      ensures t in AllAccountTypes
    {
      match t
      case UnknownAccountType => assert AllAccountTypes[0] == t;
      case Primary => assert AllAccountTypes[1] == t;
      case TemporaryIncoming => assert AllAccountTypes[2] == t;
      case TemporaryOutgoing => assert AllAccountTypes[3] == t;
      case Bucket1Kin => assert AllAccountTypes[4] == t;
      case Bucket10Kin => assert AllAccountTypes[5] == t;
      case Bucket100Kin => assert AllAccountTypes[6] == t;
      case Bucket1000Kin => assert AllAccountTypes[7] == t;
      case Bucket10000Kin => assert AllAccountTypes[8] == t;
      case Bucket100000Kin => assert AllAccountTypes[9] == t;
      case Bucket1000000Kin => assert AllAccountTypes[10] == t;
      case LegacyPrimary2022 => assert AllAccountTypes[11] == t;
      case RemoteSendGiftCard => assert AllAccountTypes[12] == t;
      case Relationship => assert AllAccountTypes[13] == t;
    }
  }

  datatype InfosResult = InfosOk | InfosNotFound

  /** The response, and the accounts marked as needing a deposit sync by the call. */
  datatype InfosResponse = InfosResponse(
    result: InfosResult,
    infos: map<Account, TokenAccountInfo>,
    depositSync: set<Account>)

  /**
   * Lists the owner's accounts by vault address; not found when none is
   * shown. Primary accounts are marked for a deposit sync.
   */
  function GetTokenAccountInfos(store: Store, ledger: Ledger, owner: Account, signedByOwner: bool)
    : (r: Result<InfosResponse, RpcError>)
    ensures r.Err? <==> !signedByOwner
    ensures r.Ok? ==> (r.value.result == InfosNotFound <==> r.value.infos == map[])
    ensures r.Ok? ==>
              var records := GetLatestTokenAccountRecordsForOwner(store, owner);
              && (forall v | v in r.value.infos ::
                    && r.value.infos[v].address == v
                    && r.value.infos[v].owner == owner
                    && r.value.infos[v].accountType in ShownTypes(store, ledger, owner)
                    && r.value.infos[v] == InfoFor(records[r.value.infos[v].accountType], ledger))
              && (forall t | t in ShownTypes(store, ledger, owner) :: records[t].timelock.vaultAddress in r.value.infos)
    ensures r.Ok? ==> r.value.depositSync == set v | v in r.value.infos && r.value.infos[v].accountType == Primary
  {
    if !signedByOwner then Err(Unauthenticated)
    else
      var records := GetLatestTokenAccountRecordsForOwner(store, owner);
      var infos := Collect(AllAccountTypes, records, ledger, owner);
      EveryTypeIsListed();
      var result := if infos == map[] then InfosNotFound else InfosOk;
      Ok(InfosResponse(result, infos, set v | v in infos && infos[v].accountType == Primary))
  }

  /** The listing is not found exactly when none of the owner's accounts is shown. */
  lemma {:induction false} NotFoundIffNothingShown(store: Store, ledger: Ledger, owner: Account)
    ensures var r := GetTokenAccountInfos(store, ledger, owner, true);
            r.Ok? && (r.value.result == InfosNotFound <==> ShownTypes(store, ledger, owner) == {})
  {
    var r := GetTokenAccountInfos(store, ledger, owner, true);
    var records := GetLatestTokenAccountRecordsForOwner(store, owner);
    if r.value.infos != map[] {
      var v :| v in r.value.infos;
      assert r.value.infos[v].accountType in ShownTypes(store, ledger, owner);
    }
    if ShownTypes(store, ledger, owner) != {} {
      var t :| t in ShownTypes(store, ledger, owner);
      assert records[t].timelock.vaultAddress in r.value.infos;
    }
  }

  datatype CodeAccountResult = CodeAccountOk | CodeAccountNotFound | UnlockedTimelockAccount

  /** An account the owner has unlocked, or is unlocking, on chain. */
  predicate Unlocking(records: AccountRecords)
  {
    records.timelock.state == Unlocked || records.timelock.state == WaitingForTimeout
  }

  /**
   * Whether the owner is a Code account: not found without records, refused
   * when any of its accounts is (being) unlocked, and found otherwise.
   */
  function IsCodeAccount(store: Store, owner: Account, signedByOwner: bool): (r: Result<CodeAccountResult, RpcError>)
    ensures r.Err? <==> !signedByOwner
    ensures var records := GetLatestTokenAccountRecordsForOwner(store, owner);
            && (r.Ok? ==> (r.value == CodeAccountNotFound <==> records == map[]))
            && (r.Ok? ==> (r.value == UnlockedTimelockAccount <==> exists t | t in records :: Unlocking(records[t])))
  {
    if !signedByOwner then Err(Unauthenticated)
    else
      var records := GetLatestTokenAccountRecordsForOwner(store, owner);
      if records == map[] then Ok(CodeAccountNotFound)
      else if exists t | t in records :: Unlocking(records[t]) then Ok(UnlockedTimelockAccount)
      else Ok(CodeAccountOk)
  }

  /**
   * Unlocking, or starting to unlock, any one of the owner's accounts makes
   * the owner no longer a Code account, whichever account it is.
   */
  lemma {:induction false} UnlockingAnAccountRefusesOwner(store: Store, owner: Account, t: AccountType, state: TimelockState)
    requires t in GetLatestTokenAccountRecordsForOwner(store, owner) && t != LegacyPrimary2022
    requires state == Unlocked || state == WaitingForTimeout
    ensures var v := GetLatestTokenAccountRecordsForOwner(store, owner)[t].general.tokenAccount;
            IsCodeAccount(store.(timelocks := store.timelocks[v := store.timelocks[v].(state := state)]), owner, true)
              == Ok(UnlockedTimelockAccount)
  {
    var records := GetLatestTokenAccountRecordsForOwner(store, owner);
    var v := records[t].general.tokenAccount;
    var record := store.timelocks[v].(state := state);
    var store' := store.(timelocks := store.timelocks[v := record]);
    LatestAfterTimelockUpdate(store.infos, store.timelocks, owner, v, record);
    var records' := GetLatestTokenAccountRecordsForOwner(store', owner);
    assert records'[t].timelock == record;
    assert Unlocking(records'[t]);
  }

  /** The same for the legacy 2022 primary account. */
  lemma {:induction false} UnlockingLegacyAccountRefusesOwner(store: Store, owner: Account, state: TimelockState)
    requires owner in store.legacy
    requires state == Unlocked || state == WaitingForTimeout
    ensures IsCodeAccount(store.(legacy := store.legacy[owner := store.legacy[owner].(state := state)]), owner, true)
              == Ok(UnlockedTimelockAccount)
  {
    var store' := store.(legacy := store.legacy[owner := store.legacy[owner].(state := state)]);
    assert Unlocking(GetLatestTokenAccountRecordsForOwner(store', owner)[LegacyPrimary2022]);
  }

  /** The legacy 2022 primary account is listed until its owner migrates or its vault closes. */
  lemma {:induction false} LegacyShownIff(store: Store, ledger: Ledger, owner: Account)
    requires owner in store.legacy
    ensures LegacyPrimary2022 in ShownTypes(store, ledger, owner) <==>
              owner !in ledger.migrated && store.legacy[owner].state != Closed
  {
  }

  /**
   * An owner whose only account is the legacy 2022 primary account is not
   * found, with nothing listed, once it migrates or its vault is closed.
   */
  lemma {:induction false} HiddenLegacyOnlyOwnerIsNotFound(store: Store, ledger: Ledger, owner: Account)
    requires owner in store.legacy
    requires forall i | 0 <= i < |store.infos| :: store.infos[i].ownerAccount != owner
    requires owner in ledger.migrated || store.legacy[owner].state == Closed
    ensures var r := GetTokenAccountInfos(store, ledger, owner, true);
            r.Ok? && r.value.result == InfosNotFound && r.value.infos == map[]
  {
    var records := GetLatestTokenAccountRecordsForOwner(store, owner);
    assert forall i | 0 <= i < |store.infos| :: !Joinable(store.infos[i], store.timelocks, owner);
    assert records.Keys == {LegacyPrimary2022};
    assert ShownTypes(store, ledger, owner) == {};
    NotFoundIffNothingShown(store, ledger, owner);
  }

  /**
   * The gift-card lifecycle rows: each combination of cached balance, vault
   * state, claim and auto-return yields the balance source, blockchain state,
   * management state, claim state and balance listed.
   */
  lemma GiftCardRows(records: AccountRecords, ledger: Ledger)
    requires records.general.accountType == RemoteSendGiftCard
    requires ManagedBySubsidizer(records.timelock, ledger.subsidizer) && records.timelock.block > 0
    ensures var account := records.general.tokenAccount;
            var info := InfoFor(records, ledger);
            var cached := CachedBalance(ledger, account);
            var state := records.timelock.state;
            var claim := account in ledger.claimed;
            var autoReturn := account in ledger.autoReturned;
            && (!claim && !autoReturn && cached == 0 && state == Locked ==>
                  info.balanceSource == SourceCache && info.blockchainState == BlockchainExists
                  && info.managementState == ManagementLocked && info.claimState == Claimed && info.balance == 0)
            && (!claim && !autoReturn && state == Closed ==>
                  info.balanceSource == SourceCache && info.blockchainState == BlockchainDoesNotExist
                  && info.managementState == ManagementClosed && info.claimState == Claimed && info.balance == 0)
            && (!claim && !autoReturn && state == Unlocked ==>
                  info.balanceSource == SourceUnknown && info.blockchainState == BlockchainExists
                  && info.managementState == ManagementUnlocked && info.claimState == ClaimUnknown && info.balance == 0)
            && (!claim && !autoReturn && cached > 0 && state == Locked ==>
                  info.balanceSource == SourceCache && info.blockchainState == BlockchainExists
                  && info.managementState == ManagementLocked && info.claimState == NotClaimed && info.balance == cached)
            && (claim && !autoReturn ==>
                  info.balanceSource == SourceCache && info.claimState == Claimed && info.balance == 0)
            && (autoReturn ==>
                  info.balanceSource == SourceCache && info.claimState == Expired && info.balance == 0)
  {
  }

  /** A request signed by anyone but the owner is refused by both calls, whatever the store holds. */
  lemma UnsignedRequestsAreRefused(store: Store, ledger: Ledger, owner: Account)
    ensures IsCodeAccount(store, owner, false) == Err(Unauthenticated)
    ensures GetTokenAccountInfos(store, ledger, owner, false) == Err(Unauthenticated)
  {
  }
}
