/**
 * The owner lookups (`GetLatestTokenAccountRecordsForOwner`,
 * `GetOwnerMetadata`) over an abstract account store. The store holds the
 * account-info records in creation order, the timelock records keyed by vault
 * address, the timelock record of each owner's legacy 2022 primary vault (that
 * account has no account-info record of its own), and each owner's latest
 * phone verification.
 */
module Owner {
  import opened Shared
  import opened Accounts

  datatype PhoneVerification = PhoneVerification(phoneNumber: string, ownerAccount: Account)

  datatype Store = Store(
    infos: seq<AccountInfoRecord>,
    timelocks: map<Account, TimelockRecord>,
    legacy: map<Account, TimelockRecord>,
    verifications: map<Account, PhoneVerification>)

  /** Timelock records are stored under their own vault address. */
  ghost predicate Keyed(store: Store)
  {
    && (forall v | v in store.timelocks :: store.timelocks[v].vaultAddress == v)
    && (forall o | o in store.legacy :: store.legacy[o].vaultOwner == o)
  }

  /** `info` is one of `owner`'s accounts and its token account has a timelock record to join. */
  predicate Joinable(info: AccountInfoRecord, timelocks: map<Account, TimelockRecord>, owner: Account)
  {
    info.ownerAccount == owner && info.tokenAccount in timelocks
  }

  /** `i` is the last joinable record of type `t` in `infos`. */
  ghost predicate LastOfType(infos: seq<AccountInfoRecord>, timelocks: map<Account, TimelockRecord>, owner: Account,
                             t: AccountType, i: int)
  {
    && 0 <= i < |infos|
    && Joinable(infos[i], timelocks, owner) && infos[i].accountType == t
    && forall j | i < j < |infos| :: !(Joinable(infos[j], timelocks, owner) && infos[j].accountType == t)
  }

  /**
   * The latest of `owner`'s records per account type, each joined with the
   * timelock record of its token account.
   */
  function LatestByType(infos: seq<AccountInfoRecord>, timelocks: map<Account, TimelockRecord>, owner: Account)
    : (r: map<AccountType, AccountRecords>)
    ensures forall t :: t in r <==> exists i | 0 <= i < |infos| :: Joinable(infos[i], timelocks, owner) && infos[i].accountType == t
    ensures forall t | t in r ::
              && r[t].general.accountType == t
              && Joinable(r[t].general, timelocks, owner)
              && r[t].timelock == timelocks[r[t].general.tokenAccount]
    decreases |infos|
  {
    if infos == [] then map[]
    else
      var init := infos[..|infos| - 1];
      var last := infos[|infos| - 1];
      var m := LatestByType(init, timelocks, owner);
      assert forall i | 0 <= i < |init| :: init[i] == infos[i];
      if Joinable(last, timelocks, owner) then
        m[last.accountType := AccountRecords(last, timelocks[last.tokenAccount])]
      else
        m
  }

  /** Each entry is the last of the owner's joinable records of its type. */
  lemma {:induction false} LatestIsLast(infos: seq<AccountInfoRecord>, timelocks: map<Account, TimelockRecord>,
                                        owner: Account, t: AccountType)
    requires t in LatestByType(infos, timelocks, owner)
    ensures exists i :: LastOfType(infos, timelocks, owner, t, i) && infos[i] == LatestByType(infos, timelocks, owner)[t].general
    decreases |infos|
  {
    var n := |infos| - 1;
    var init := infos[..n];
    var last := infos[n];
    assert forall i | 0 <= i < |init| :: init[i] == infos[i];
    if Joinable(last, timelocks, owner) && last.accountType == t {
      assert LastOfType(infos, timelocks, owner, t, n);
    } else {
      LatestIsLast(init, timelocks, owner, t);
      var i :| LastOfType(init, timelocks, owner, t, i) && init[i] == LatestByType(init, timelocks, owner)[t].general;
      assert LastOfType(infos, timelocks, owner, t, i);
    }
  }

  /** The account-info record the legacy 2022 primary account is presented with. */
  function LegacyGeneral(owner: Account, timelock: TimelockRecord): AccountInfoRecord
  {
    AccountInfoRecord(owner, owner, timelock.vaultAddress, LegacyPrimary2022, 0, None)
  }

  /**
   * One record pair per account type the owner holds: the latest account-info
   * record of each type with its timelock, plus the legacy 2022 primary
   * account when its vault has a timelock record.
   */
  function GetLatestTokenAccountRecordsForOwner(store: Store, owner: Account): (r: map<AccountType, AccountRecords>)
    ensures forall t | t in r :: r[t].general.accountType == t && r[t].general.ownerAccount == owner
    ensures LegacyPrimary2022 in r <==>
              owner in store.legacy
              || exists i | 0 <= i < |store.infos| ::
                   Joinable(store.infos[i], store.timelocks, owner) && store.infos[i].accountType == LegacyPrimary2022
    ensures owner in store.legacy ==> r[LegacyPrimary2022] == AccountRecords(LegacyGeneral(owner, store.legacy[owner]), store.legacy[owner])
    ensures forall t | t != LegacyPrimary2022 ::
              t in r <==> exists i | 0 <= i < |store.infos| ::
                            Joinable(store.infos[i], store.timelocks, owner) && store.infos[i].accountType == t
    ensures forall t | t in r && t != LegacyPrimary2022 ::
              && r[t] == LatestByType(store.infos, store.timelocks, owner)[t]
              && r[t].general.tokenAccount in store.timelocks
              && r[t].timelock == store.timelocks[r[t].general.tokenAccount]
  {
    var latest := LatestByType(store.infos, store.timelocks, owner);
    if owner in store.legacy then
      var timelock := store.legacy[owner];
      latest[LegacyPrimary2022 := AccountRecords(LegacyGeneral(owner, timelock), timelock)]
    else
      latest
  }

  /**
   * In a store keyed by vault address, each entry joins an account-info record
   * with the timelock of the very account it names.
   */
  lemma {:induction false} RecordsJoinOnTokenAccount(store: Store, owner: Account)
    requires Keyed(store)
    ensures var r := GetLatestTokenAccountRecordsForOwner(store, owner);
            forall t | t in r :: r[t].general.tokenAccount == r[t].timelock.vaultAddress
  {
    var r := GetLatestTokenAccountRecordsForOwner(store, owner);
    forall t | t in r
      ensures r[t].general.tokenAccount == r[t].timelock.vaultAddress
    {
      if t != LegacyPrimary2022 {
        assert r[t].general.tokenAccount in store.timelocks;
      }
    }
  }

  /** An owner with no accounts of any kind has no records. */
  lemma {:induction false} NoAccountsNoRecords(store: Store, owner: Account)
    requires owner !in store.legacy
    requires forall i | 0 <= i < |store.infos| :: store.infos[i].ownerAccount != owner
    ensures GetLatestTokenAccountRecordsForOwner(store, owner) == map[]
  {
    assert forall i | 0 <= i < |store.infos| :: !Joinable(store.infos[i], store.timelocks, owner);
  }

  /** Records whose token accounts have the same timelocks join the same way. */
  lemma {:induction false} LatestFrame(infos: seq<AccountInfoRecord>, tl1: map<Account, TimelockRecord>,
                                       tl2: map<Account, TimelockRecord>, owner: Account)
    requires forall i | 0 <= i < |infos| ::
               && (infos[i].tokenAccount in tl1 <==> infos[i].tokenAccount in tl2)
               && (infos[i].tokenAccount in tl1 ==> tl1[infos[i].tokenAccount] == tl2[infos[i].tokenAccount])
    ensures LatestByType(infos, tl1, owner) == LatestByType(infos, tl2, owner)
    decreases |infos|
  {
    if infos != [] {
      var init := infos[..|infos| - 1];
      assert forall i | 0 <= i < |init| :: init[i] == infos[i];
      LatestFrame(init, tl1, tl2, owner);
    }
  }

  /** Re-observing one vault changes exactly the entries joined with that vault. */
  lemma {:induction false} LatestAfterTimelockUpdate(infos: seq<AccountInfoRecord>, timelocks: map<Account, TimelockRecord>,
                                                     owner: Account, v: Account, record: TimelockRecord)
    requires v in timelocks
    ensures var before := LatestByType(infos, timelocks, owner);
            var after := LatestByType(infos, timelocks[v := record], owner);
            && after.Keys == before.Keys
            && forall t | t in before ::
                 after[t] == if before[t].general.tokenAccount == v then AccountRecords(before[t].general, record) else before[t]
    decreases |infos|
  {
    if infos != [] {
      var init := infos[..|infos| - 1];
      assert forall i | 0 <= i < |init| :: init[i] == infos[i];
      LatestAfterTimelockUpdate(init, timelocks, owner, v, record);
    }
  }

  /**
   * Adding a fresh account of a non-legacy type (with its timelock) sets the
   * entry for its type to that account and leaves every other entry as it was.
   */
  lemma {:induction false} AddingAnAccountSetsItsType(store: Store, owner: Account, info: AccountInfoRecord, timelock: TimelockRecord)
    requires info.ownerAccount == owner && info.tokenAccount == timelock.vaultAddress
    requires info.accountType != LegacyPrimary2022
    requires forall i | 0 <= i < |store.infos| :: store.infos[i].tokenAccount != timelock.vaultAddress
    ensures GetLatestTokenAccountRecordsForOwner(
              store.(infos := store.infos + [info], timelocks := store.timelocks[timelock.vaultAddress := timelock]), owner)
            == GetLatestTokenAccountRecordsForOwner(store, owner)[info.accountType := AccountRecords(info, timelock)]
  {
    var timelocks' := store.timelocks[timelock.vaultAddress := timelock];
    var infos' := store.infos + [info];
    LatestFrame(store.infos, store.timelocks, timelocks', owner);
    assert infos'[..|infos'| - 1] == store.infos;
    assert LatestByType(infos', timelocks', owner)
        == LatestByType(store.infos, store.timelocks, owner)[info.accountType := AccountRecords(info, timelock)];
  }

  datatype OwnerType = User12Words | RemoteSendGiftCardOwner

  /** The management states the owner lookup reports. */
  datatype OwnerManagementState = OwnerNotFoundState | CodeAccount

  datatype OwnerMetadata = OwnerMetadata(
    account: Account,
    ownerType: OwnerType,
    state: OwnerManagementState,
    verification: Option<PhoneVerification>)

  datatype OwnerError = OwnerNotFound

  /**
   * Classifies an owner. A gift-card owner is recognised by its gift-card
   * account and never carries a phone verification; anyone else is a
   * 12-word user, found either by accounts or by a phone verification alone.
   */
  function GetOwnerMetadata(store: Store, owner: Account): (r: Result<OwnerMetadata, OwnerError>)
    ensures var records := GetLatestTokenAccountRecordsForOwner(store, owner);
            && (r.Err? <==> records == map[] && owner !in store.verifications)
            && (r.Ok? ==> r.value.account == owner)
            && (r.Ok? ==> (r.value.ownerType == RemoteSendGiftCardOwner <==> RemoteSendGiftCard in records))
            && (r.Ok? ==> (r.value.state == CodeAccount <==> records != map[]))
            && (r.Ok? && r.value.ownerType == RemoteSendGiftCardOwner ==> r.value.verification == None)
            && (r.Ok? && r.value.ownerType == User12Words ==>
                  r.value.verification == (if owner in store.verifications then Some(store.verifications[owner]) else None))
  {
    var records := GetLatestTokenAccountRecordsForOwner(store, owner);
    var verification := if owner in store.verifications then Some(store.verifications[owner]) else None;
    if RemoteSendGiftCard in records then
      Ok(OwnerMetadata(owner, RemoteSendGiftCardOwner, CodeAccount, None))
    else if records != map[] then
      Ok(OwnerMetadata(owner, User12Words, CodeAccount, verification))
    else if verification.Some? then
      Ok(OwnerMetadata(owner, User12Words, OwnerNotFoundState, verification))
    else
      Err(OwnerNotFound)
  }

  /**
   * The 12-word lifecycle: a phone-verified owner without accounts is a user
   * not yet found; opening a primary account makes it a Code account, with the
   * same type and verification.
   */
  lemma {:induction false} OpeningPrimaryMakesCodeAccount(store: Store, owner: Account, info: AccountInfoRecord, timelock: TimelockRecord)
    requires owner !in store.legacy
    requires forall i | 0 <= i < |store.infos| :: store.infos[i].ownerAccount != owner
    requires owner in store.verifications
    requires info == AccountInfoRecord(owner, timelock.vaultOwner, timelock.vaultAddress, Primary, 0, None)
    requires forall i | 0 <= i < |store.infos| :: store.infos[i].tokenAccount != timelock.vaultAddress
    ensures var before := GetOwnerMetadata(store, owner);
            var after := GetOwnerMetadata(
              store.(infos := store.infos + [info], timelocks := store.timelocks[timelock.vaultAddress := timelock]), owner);
            && before == Ok(OwnerMetadata(owner, User12Words, OwnerNotFoundState, Some(store.verifications[owner])))
            && after == Ok(OwnerMetadata(owner, User12Words, CodeAccount, Some(store.verifications[owner])))
  {
    NoAccountsNoRecords(store, owner);
    AddingAnAccountSetsItsType(store, owner, info, timelock);
    var store' := store.(infos := store.infos + [info], timelocks := store.timelocks[timelock.vaultAddress := timelock]);
    assert GetLatestTokenAccountRecordsForOwner(store', owner).Keys == {Primary};
  }

  /** A gift-card owner is classified as such even if someone phone-verified it. */
  lemma {:induction false} GiftCardOwnerIgnoresVerification(store: Store, owner: Account, info: AccountInfoRecord, timelock: TimelockRecord)
    requires owner !in store.legacy
    requires forall i | 0 <= i < |store.infos| :: store.infos[i].ownerAccount != owner
    requires info == AccountInfoRecord(owner, timelock.vaultOwner, timelock.vaultAddress, RemoteSendGiftCard, 0, None)
    requires forall i | 0 <= i < |store.infos| :: store.infos[i].tokenAccount != timelock.vaultAddress
    ensures GetOwnerMetadata(
              store.(infos := store.infos + [info], timelocks := store.timelocks[timelock.vaultAddress := timelock]), owner)
            == Ok(OwnerMetadata(owner, RemoteSendGiftCardOwner, CodeAccount, None))
  {
    NoAccountsNoRecords(store, owner);
    AddingAnAccountSetsItsType(store, owner, info, timelock);
  }
}
