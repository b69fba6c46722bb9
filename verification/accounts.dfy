/** Account and timelock records shared by the account, owner, cache and relay models. */
module Accounts {
  import opened Shared

  datatype AccountType =
    | UnknownAccountType
    | Primary
    | TemporaryIncoming
    | TemporaryOutgoing
    | Bucket1Kin
    | Bucket10Kin
    | Bucket100Kin
    | Bucket1000Kin
    | Bucket10000Kin
    | Bucket100000Kin
    | Bucket1000000Kin
    | LegacyPrimary2022
    | RemoteSendGiftCard
    | Relationship

  /** The on-chain state of a timelock vault as last observed. */
  datatype TimelockState = StateUnknown | Unlocked | WaitingForTimeout | Locked | Closed

  /** A timelock account record; `block` is the block at which the state was last observed. */
  datatype TimelockRecord = TimelockRecord(
    vaultAddress: Account,
    vaultOwner: Account,
    state: TimelockState,
    block: nat,
    timeAuthority: Account,
    closeAuthority: Account)

  /** A general account-info record; `relationshipTo` is the domain of a RELATIONSHIP account. */
  datatype AccountInfoRecord = AccountInfoRecord(
    ownerAccount: Account,
    authorityAccount: Account,
    tokenAccount: Account,
    accountType: AccountType,
    index: nat,
    relationshipTo: Option<string>)

  /** An account-info record joined with the timelock record of its token account. */
  datatype AccountRecords = AccountRecords(general: AccountInfoRecord, timelock: TimelockRecord)
}
