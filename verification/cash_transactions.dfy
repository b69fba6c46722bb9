/**
 * The Cash Transactions chat message derived from a submitted intent
 * (`SendCashTransactionsExchangeMessage`): which owners receive a message, with
 * which verb, under which message id, and the gift-card void that deletes a
 * message instead of sending one.
 */
module CashTransactions {
  import opened Shared
  import Strings

  datatype Verb = Gave | Received | Withdrew | Deposited | Sent | Returned

  /** Exchange data carried verbatim into the message content. */
  datatype ExchangeData = ExchangeData(currency: string, exchangeRate: real, nativeAmount: real, quarks: nat)

  /** The per-type metadata of an intent record; `OtherIntent` is every unhandled type. */
  datatype Metadata =
    | SendPrivatePayment(destinationOwner: Account, isWithdrawal: bool, isRemoteSend: bool, isMicroPayment: bool)
    | SendPublicPayment(destinationOwner: Account, isWithdrawal: bool)
    | ReceivePaymentsPublicly(source: Account, isRemoteSend: bool, isReturned: bool, isIssuerVoidingGiftCard: bool)
    | MigrateToPrivacy2022(quantity: nat)
    | ExternalDeposit(destinationOwner: Account)
    | OtherIntent

  /** An intent record; `exchangeData` is what the exchange-data extraction found, if anything. */
  datatype Intent = Intent(intentId: string, initiatorOwner: Account, metadata: Metadata, exchangeData: Option<ExchangeData>)

  datatype CashError =
    | GiftCardIssuedIntentNotFound   // "error getting original gift card issued intent"
    | DeleteFailed                   // "error deleting chat message"
    | InvalidReceiver(owner: Account) // the receiver is not a valid public key
    | PersistFailed(owner: Account)   // building or persisting the receiver's message failed

  datatype Outcome =
    | NoOp
    | Delete(chatOwner: Account, messageId: string)
    | Send(messageId: string, verbs: map<Account, Verb>, content: ExchangeData)
    | Failed(error: CashError)

  /** The owner accounts an intent names: its initiator and, where it has one, its destination. */
  function Parties(intent: Intent): set<Account>
  {
    match intent.metadata
    case SendPrivatePayment(d, _, _, _) => {intent.initiatorOwner, d}
    case SendPublicPayment(d, _) => {intent.initiatorOwner, d}
    case ExternalDeposit(d) => {d}
    case _ => {intent.initiatorOwner}
  }

  /** The chat message id: the intent id, or for an external deposit its prefix before the first `-`. */
  function MessageId(intent: Intent): (id: string)
    ensures id <= intent.intentId
    ensures intent.metadata.ExternalDeposit? ==> '-' !in id
    ensures intent.metadata.ExternalDeposit? && |id| < |intent.intentId| ==> intent.intentId[|id|] == '-'
    ensures !intent.metadata.ExternalDeposit? ==> id == intent.intentId
  {
    if intent.metadata.ExternalDeposit? then
      Strings.FirstPartIsPrefixBeforeSeparator(intent.intentId, '-');
      Strings.Split(intent.intentId, '-')[0]
    else intent.intentId
  }

  /** The receiver-to-verb assignment for an intent type that sends messages. */
  function Verbs(intent: Intent): map<Account, Verb>
  {
    var initiator := intent.initiatorOwner;
    match intent.metadata
    case SendPrivatePayment(dest, isWithdrawal, isRemoteSend, _) =>
      if isWithdrawal then
        map[initiator := Withdrew] + (if |dest| > 0 then map[dest := Deposited] else map[])
      else if isRemoteSend then map[initiator := Sent]
      else map[initiator := Gave] + (if |dest| > 0 then map[dest := Received] else map[])
    case SendPublicPayment(dest, isWithdrawal) =>
      if isWithdrawal then
        map[initiator := Withdrew] + (if |dest| > 0 then map[dest := Deposited] else map[])
      else map[]
    case ReceivePaymentsPublicly(_, isRemoteSend, isReturned, _) =>
      if !isRemoteSend then map[]
      else if isReturned then map[initiator := Returned]
      else map[initiator := Received]
    case MigrateToPrivacy2022(quantity) =>
      if quantity > 0 then map[initiator := Deposited] else map[]
    case ExternalDeposit(dest) => map[dest := Deposited]
    case OtherIntent => map[]
  }

  /** The issuer voiding their own unclaimed gift card. */
  predicate IsGiftCardVoid(m: Metadata)
  {
    m.ReceivePaymentsPublicly? && m.isRemoteSend && !m.isReturned && m.isIssuerVoidingGiftCard
  }

  /**
   * The action taken for a submitted intent. `issued` maps a gift-card vault to
   * the intent that originally issued it.
   */
  function Derive(intent: Intent, issued: map<Account, Intent>): (r: Outcome)
    ensures intent.exchangeData.None? || intent.metadata.OtherIntent? ==> r == NoOp
    ensures r.Send? ==> intent.exchangeData == Some(r.content)
    ensures r.Send? ==> r.verbs.Keys <= Parties(intent)
    ensures r.Send? ==> r.messageId <= intent.intentId
    ensures r.Delete? ==> IsGiftCardVoid(intent.metadata)
                          && intent.metadata.source in issued
                          && r.chatOwner == issued[intent.metadata.source].initiatorOwner
                          && r.messageId == issued[intent.metadata.source].intentId
    ensures r.Failed? ==> r.error == GiftCardIssuedIntentNotFound && IsGiftCardVoid(intent.metadata)
  {
    if intent.exchangeData.None? then NoOp
    else
      var m := intent.metadata;
      if m.OtherIntent? then NoOp
      else if m.SendPrivatePayment? && m.isMicroPayment then NoOp
      else if m.SendPrivatePayment? && m.isWithdrawal && intent.initiatorOwner == m.destinationOwner then NoOp
      else if IsGiftCardVoid(m) then
        if m.source !in issued then Failed(GiftCardIssuedIntentNotFound)
        else Delete(issued[m.source].initiatorOwner, issued[m.source].intentId)
      else Send(MessageId(intent), Verbs(intent), intent.exchangeData.value)
  }

  /** No exchange data, or an unhandled intent type, sends nothing. */
  lemma NothingWithoutExchangeData(intent: Intent, issued: map<Account, Intent>)
    requires intent.exchangeData.None? || intent.metadata.OtherIntent?
    ensures Derive(intent, issued) == NoOp
  {
  }

  /** Private micro-payments and private top-up withdrawals are skipped. */
  lemma PrivateSkips(intent: Intent, issued: map<Account, Intent>)
    requires intent.metadata.SendPrivatePayment?
    requires intent.metadata.isMicroPayment
             || (intent.metadata.isWithdrawal && intent.initiatorOwner == intent.metadata.destinationOwner)
    ensures Derive(intent, issued) == NoOp
  {
  }

  /**
   * A withdrawal that is sent (private or public): the initiator WITHDREW, and
   * the destination DEPOSITED exactly when it is non-empty.
   */
  lemma WithdrawalVerbs(intent: Intent, issued: map<Account, Intent>)
    requires intent.exchangeData.Some?
    requires (intent.metadata.SendPrivatePayment? && !intent.metadata.isMicroPayment
              && intent.initiatorOwner != intent.metadata.destinationOwner)
             || intent.metadata.SendPublicPayment?
    requires intent.metadata.isWithdrawal
    ensures var r := Derive(intent, issued);
            var d := intent.metadata.destinationOwner;
            && r.Send?
            && r.messageId == intent.intentId
            && intent.initiatorOwner in r.verbs
            && (intent.initiatorOwner != d ==> r.verbs[intent.initiatorOwner] == Withdrew)
            && (d in r.verbs <==> |d| > 0 || d == intent.initiatorOwner)
            && (|d| > 0 ==> r.verbs[d] == Deposited)
            && r.verbs.Keys <= {intent.initiatorOwner, d}
  {
  }

  /**
   * Receivers are map keys, so each gets at most one message: a public
   * withdrawal to the initiator's own account overwrites WITHDREW with DEPOSITED.
   */
  lemma PublicSelfWithdrawalOverwrites(intent: Intent, issued: map<Account, Intent>)
    requires intent.exchangeData.Some?
    requires intent.metadata.SendPublicPayment? && intent.metadata.isWithdrawal
    requires intent.initiatorOwner == intent.metadata.destinationOwner && |intent.initiatorOwner| > 0
    ensures Derive(intent, issued).Send?
    ensures Derive(intent, issued).verbs == map[intent.initiatorOwner := Deposited]
  {
  }

  /** A public payment that is not a withdrawal messages nobody. */
  lemma PublicNonWithdrawalIsSilent(intent: Intent, issued: map<Account, Intent>)
    requires intent.exchangeData.Some?
    requires intent.metadata.SendPublicPayment? && !intent.metadata.isWithdrawal
    ensures Derive(intent, issued).Send? && Derive(intent, issued).verbs == map[]
  {
  }

  /** A private remote send messages only the initiator, with SENT. */
  lemma PrivateRemoteSendVerbs(intent: Intent, issued: map<Account, Intent>)
    requires intent.exchangeData.Some?
    requires intent.metadata.SendPrivatePayment?
    requires !intent.metadata.isMicroPayment && !intent.metadata.isWithdrawal && intent.metadata.isRemoteSend
    ensures Derive(intent, issued).Send? && Derive(intent, issued).verbs == map[intent.initiatorOwner := Sent]
  {
  }

  /** A plain private payment: the initiator GAVE and a present destination RECEIVED. */
  lemma PrivatePaymentVerbs(intent: Intent, issued: map<Account, Intent>)
    requires intent.exchangeData.Some?
    requires intent.metadata.SendPrivatePayment?
    requires !intent.metadata.isMicroPayment && !intent.metadata.isWithdrawal && !intent.metadata.isRemoteSend
    ensures var r := Derive(intent, issued);
            var d := intent.metadata.destinationOwner;
            && r.Send?
            && (d in r.verbs <==> |d| > 0 || d == intent.initiatorOwner)
            && (|d| > 0 ==> r.verbs[d] == Received)
            && (intent.initiatorOwner != d ==> r.verbs[intent.initiatorOwner] == Gave)
  {
  }

  /**
   * A public remote-send receive: RETURNED when returned, otherwise RECEIVED,
   * except the issuer void, which deletes the issued-intent message instead.
   */
  lemma RemoteSendReceiveOutcome(intent: Intent, issued: map<Account, Intent>)
    requires intent.exchangeData.Some?
    requires intent.metadata.ReceivePaymentsPublicly? && intent.metadata.isRemoteSend
    ensures var r := Derive(intent, issued);
            var m := intent.metadata;
            && (m.isReturned ==> r.Send? && r.verbs == map[intent.initiatorOwner := Returned])
            && (!m.isReturned && !m.isIssuerVoidingGiftCard ==>
                  r.Send? && r.verbs == map[intent.initiatorOwner := Received])
            && (!m.isReturned && m.isIssuerVoidingGiftCard && m.source in issued ==>
                  r == Delete(issued[m.source].initiatorOwner, issued[m.source].intentId))
            && (!m.isReturned && m.isIssuerVoidingGiftCard && m.source !in issued ==>
                  r == Failed(GiftCardIssuedIntentNotFound))
  {
  }

  /** A migration deposits only when it moved a positive quantity. */
  lemma MigrationVerbs(intent: Intent, issued: map<Account, Intent>)
    requires intent.exchangeData.Some? && intent.metadata.MigrateToPrivacy2022?
    ensures var r := Derive(intent, issued);
            r.Send? && (intent.initiatorOwner in r.verbs <==> intent.metadata.quantity > 0)
            && r.verbs.Keys <= {intent.initiatorOwner}
            && (intent.metadata.quantity > 0 ==> r.verbs[intent.initiatorOwner] == Deposited)
  {
  }

  /**
   * An external deposit messages its destination owner with DEPOSITED, under the
   * prefix of the intent id before the first `-`.
   */
  lemma ExternalDepositOutcome(intent: Intent, issued: map<Account, Intent>)
    requires intent.exchangeData.Some? && intent.metadata.ExternalDeposit?
    ensures var r := Derive(intent, issued);
            && r.Send?
            && r.verbs == map[intent.metadata.destinationOwner := Deposited]
            && r.messageId <= intent.intentId && '-' !in r.messageId
            && (|r.messageId| < |intent.intentId| ==> intent.intentId[|r.messageId|] == '-')
  {
  }

  /** An external-deposit id without a `-` is used unchanged. */
  lemma ExternalDepositIdWithoutDash(intent: Intent, issued: map<Account, Intent>)
    requires intent.exchangeData.Some? && intent.metadata.ExternalDeposit?
    requires '-' !in intent.intentId
    ensures Derive(intent, issued).Send? && Derive(intent, issued).messageId == intent.intentId
  {
  }

  // ---------------------------------------------------------------------------
  // Delivery into the receivers' Cash Transactions chats

  /** Each owner's Cash Transactions chat: message id to the verb it shows. */
  type ChatStore = map<Account, map<string, Verb>>

  function ChatOf(store: ChatStore, owner: Account): map<string, Verb>
  {
    if owner in store then store[owner] else map[]
  }

  /**
   * Recording a message in one chat. A message whose id already exists is left
   * as it is: that case is the already-exists error, which counts as success.
   */
  function Record(chat: map<string, Verb>, id: string, verb: Verb): (r: map<string, Verb>)
    ensures id in r
    ensures id in chat ==> r == chat
    ensures id !in chat ==> r.Keys == chat.Keys + {id} && r[id] == verb
    ensures forall k | k in chat :: k in r && r[k] == chat[k]
  {
    if id in chat then chat else chat[id := verb]
  }

  /**
   * What delivery to one receiver depends on besides the chats: whether its
   * account is a valid public key, and whether building or persisting its
   * message fails with an error other than already-exists.
   */
  datatype ChatBackend = ChatBackend(isValidKey: Account -> bool, persistFails: Account -> bool, deleteFails: bool)

  /** Delivery to `a` goes through. */
  predicate Deliverable(backend: ChatBackend, a: Account)
  {
    backend.isValidKey(a) && !backend.persistFails(a)
  }

  /** `e` is the error a failed delivery to one of `receivers` reports. */
  predicate ReceiverError(e: CashError, receivers: set<Account>, backend: ChatBackend)
  {
    match e
    case InvalidReceiver(a) => a in receivers && !backend.isValidKey(a)
    case PersistFailed(a) => a in receivers && backend.isValidKey(a) && backend.persistFails(a)
    case _ => false
  }

  /**
   * Sends one message per receiver, in an unspecified order. The first
   * receiver that is not a valid public key, or whose message cannot be built
   * or persisted, aborts the loop with its error; receivers handled before it
   * keep their message.
   */
  method DeliverAll(store: ChatStore, id: string, verbs: map<Account, Verb>, backend: ChatBackend)
    returns (store': ChatStore, err: Option<CashError>)
    ensures err.None? <==> forall a | a in verbs :: Deliverable(backend, a)
    ensures err.Some? ==> ReceiverError(err.value, verbs.Keys, backend)
    ensures err.Some? ==> ChatOf(store', err.value.owner) == ChatOf(store, err.value.owner)
    ensures err.None? ==> forall a | a in verbs :: ChatOf(store', a) == Record(ChatOf(store, a), id, verbs[a])
    ensures forall a | a in verbs :: ChatOf(store', a) == ChatOf(store, a)
                                     || ChatOf(store', a) == Record(ChatOf(store, a), id, verbs[a])
    ensures forall a | a !in verbs :: ChatOf(store', a) == ChatOf(store, a)
  {
    store' := store;
    err := None;
    var pending := verbs.Keys;
    while pending != {}
      invariant pending <= verbs.Keys
      invariant forall a | a in verbs && a !in pending :: Deliverable(backend, a)
      invariant forall a | a in verbs && a !in pending ::
                  ChatOf(store', a) == Record(ChatOf(store, a), id, verbs[a])
      invariant forall a | a !in verbs || a in pending :: ChatOf(store', a) == ChatOf(store, a)
      decreases pending
    {
      var a :| a in pending;
      if !backend.isValidKey(a) {
        err := Some(InvalidReceiver(a));
        return;
      }
      if backend.persistFails(a) {
        err := Some(PersistFailed(a));
        return;
      }
      store' := store'[a := Record(ChatOf(store', a), id, verbs[a])];
      pending := pending - {a};
    }
  }

  /** Deleting a message from one owner's chat; deleting an absent id changes nothing. */
  function DeleteMessage(store: ChatStore, owner: Account, id: string): (r: ChatStore)
    ensures id !in ChatOf(r, owner)
    ensures forall k | k in ChatOf(store, owner) && k != id :: k in ChatOf(r, owner) && ChatOf(r, owner)[k] == ChatOf(store, owner)[k]
    ensures ChatOf(r, owner).Keys <= ChatOf(store, owner).Keys
    ensures forall o | o != owner :: ChatOf(r, o) == ChatOf(store, o)
  {
    if owner in store then store[owner := store[owner] - {id}] else store
  }

  /**
   * The whole operation: derive the outcome for `intent`, then apply it to the
   * chats. Returns the error, if any.
   */
  method SendCashTransactionsExchangeMessage(
    store: ChatStore, intent: Intent, issued: map<Account, Intent>, backend: ChatBackend)
    returns (store': ChatStore, err: Option<CashError>)
    ensures Derive(intent, issued).NoOp? ==> store' == store && err.None?
    ensures Derive(intent, issued).Failed? ==> store' == store && err == Some(Derive(intent, issued).error)
    ensures Derive(intent, issued).Delete? && backend.deleteFails ==> store' == store && err == Some(DeleteFailed)
    ensures Derive(intent, issued).Delete? && !backend.deleteFails ==>
              err.None? && store' == DeleteMessage(store, Derive(intent, issued).chatOwner, Derive(intent, issued).messageId)
    ensures Derive(intent, issued).Send? ==>
              var o := Derive(intent, issued);
              && (err.None? <==> forall a | a in o.verbs :: Deliverable(backend, a))
              && (err.Some? ==> ReceiverError(err.value, o.verbs.Keys, backend))
              && (err.None? ==> forall a | a in o.verbs :: ChatOf(store', a) == Record(ChatOf(store, a), o.messageId, o.verbs[a]))
              && (forall a | a in o.verbs :: ChatOf(store', a) == ChatOf(store, a)
                                             || ChatOf(store', a) == Record(ChatOf(store, a), o.messageId, o.verbs[a]))
              && (forall a | a !in o.verbs :: ChatOf(store', a) == ChatOf(store, a))
  {
    var o := Derive(intent, issued);
    match o
    case NoOp =>
      store', err := store, None;
    case Failed(e) =>
      store', err := store, Some(e);
    case Delete(owner, id) =>
      if backend.deleteFails {
        store', err := store, Some(DeleteFailed);
      } else {
        store', err := DeleteMessage(store, owner, id), None;
      }
    case Send(id, verbs, _) =>
      store', err := DeliverAll(store, id, verbs, backend);
  }

  /**
   * Delivering the same message again, after a delivery that went through,
   * leaves every chat as the first delivery left it: the repeated sends all
   * meet the already-exists case.
   */
  lemma DeliveryIsIdempotent(store: ChatStore, once: ChatStore, twice: ChatStore, id: string, verbs: map<Account, Verb>)
    requires forall a | a in verbs :: ChatOf(once, a) == Record(ChatOf(store, a), id, verbs[a])
    requires forall a | a !in verbs :: ChatOf(once, a) == ChatOf(store, a)
    requires forall a | a in verbs :: ChatOf(twice, a) == Record(ChatOf(once, a), id, verbs[a])
    requires forall a | a !in verbs :: ChatOf(twice, a) == ChatOf(once, a)
    ensures forall a :: ChatOf(twice, a) == ChatOf(once, a)
  {
  }
}
