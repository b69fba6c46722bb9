/**
 * Validation of messages a client sends to a rendezvous key through the
 * messaging relay. The server code is not part of this model; the rules are
 * the ones the messaging tests pin down, each with the exact rejection
 * reason, plus the refusal of a badly signed request as Unauthenticated,
 * the convention the account service's tests show.
 *
 * The request's own signature is checked first: a request whose signature does
 * not verify is refused as Unauthenticated and nothing else is looked at.
 * Past that point the checks on different parts of a message are independent:
 * `Faults` returns the SET of rejections a message earns, and a send is
 * accepted exactly when that set is empty. The order in which the server
 * reports faults of different parts is not modelled. The exchange-data checks
 * run in order and stop at the first failure, so one wrong field of the
 * exchange data earns exactly one rejection.
 *
 * Signature verification, account lookups, the domain-ownership fetch and the
 * per-currency limit table are inputs collected in an `Env`.
 */
module RelayValidation {
  import opened Shared
  import opened Accounts
  import Domain
  import opened Amounts

  type Bytes = seq<bv8>

  datatype Rejection =
    | InvalidMessage(reason: string)
    | PermissionDenied(reason: string)
    | Unauthenticated

  /** The amount of a payment request: exact (in kin, with quarks) or partial (fiat only). */
  datatype ExchangeData =
    | Exact(currency: string, exchangeRate: real, nativeAmount: real, quarks: nat)
    | Partial(currency: string, nativeAmount: real)

  /** A third party's proof that it speaks for a domain on this rendezvous key. */
  datatype DomainProof = DomainProof(verifier: Account, signature: Bytes, rendezvousKey: Account)

  /**
   * The messages a client may send through the relay. A payment request
   * carries a proof exactly when domain verification is enabled; without one
   * it is a trial request.
   */
  datatype ClientMessage =
    | RequestToGrabBill(requestorAccount: Account)
    | RequestToReceiveBill(requestorAccount: Account, exchange: ExchangeData, domain: string, proof: Option<DomainProof>)
    | RequestToLogin(domain: string, nonce: Bytes, loginProof: DomainProof)
    | LoginAttempt(userId: Account, domain: string, nonce: Bytes, signature: Bytes, rendezvousKey: Account)

  /**
   * Everything the validator consults besides the message: whether the send
   * request's signature verifies, the account-info records by token account,
   * each owner's latest temporary incoming account, the domain codec, whether
   * a verifier owns a domain, whether the signature inside the message
   * verifies, and the per-currency limits.
   */
  datatype Env = Env(
    requestSignatureValid: bool,
    accounts: map<Account, AccountInfoRecord>,
    latestTemporaryIncoming: map<Account, Account>,
    codec: Domain.Codec,
    owns: (Account, string) -> bool,
    signatureValid: bool,
    limits: map<string, Limit>)

  // ---- rejection reasons ------------------------------------------------

  const NotTemporaryIncoming: string := "requestor account must be a temporary incoming account"
  const NotLatestTemporaryIncoming: string := "requestor account must be latest temporary incoming account"
  const NotPrimaryForTrial: string := "requestor account must be a primary account for trials using a code account"
  const KinRateNotOne: string := "kin exchange rate must be 1"
  const QuarkMismatch: string := "payment native amount and quark value mismatch"
  const ExactNotKin: string := "exact exchange data only supports kin currency"
  const PartialNotFiat: string := "partial exchange data only supports fiat currencies"
  const DomainInvalid: string := "domain is invalid"
  const KeyMismatch: string := "rendezvous key mismatch"
  const NotRelationship: string := "account type must be RELATIONSHIP"
  const AccountMissing: string := "account doesn't exist"

  function NoRelationshipReason(domain: string): string
  {
    "account must have a relationship to " + domain
  }

  function NotOwnerReason(domain: string): string
  {
    "does not own domain " + domain
  }

  // ---- the individual checks --------------------------------------------

  /** A bill-grab requestor must be its owner's latest temporary incoming account. */
  function GrabBillAccountFaults(requestor: Account, env: Env): set<Rejection>
  {
    if requestor !in env.accounts || env.accounts[requestor].accountType != TemporaryIncoming then
      {InvalidMessage(NotTemporaryIncoming)}
    else
      var owner := env.accounts[requestor].ownerAccount;
      if owner in env.latestTemporaryIncoming && env.latestTemporaryIncoming[owner] == requestor then {}
      else {InvalidMessage(NotLatestTemporaryIncoming)}
  }

  /** In a trial (no domain proof), a payment-request requestor that is a Code account must be a primary account. */
  function ReceiveBillAccountFaults(requestor: Account, proof: Option<DomainProof>, env: Env): set<Rejection>
  {
    if proof.None? && requestor in env.accounts && env.accounts[requestor].accountType != Primary then
      {InvalidMessage(NotPrimaryForTrial)}
    else {}
  }

  /** The amount must lie within the currency's limits; the minimum is checked first. */
  function LimitFaults(currency: string, nativeAmount: real, env: Env): set<Rejection>
  {
    if currency !in env.limits then {}
    else
      var limit := env.limits[currency];
      if nativeAmount < limit.minCents as real / 100.0 then {InvalidMessage(MinimumReason(currency, limit.minCents))}
      else if nativeAmount > limit.maxCents as real / 100.0 then {InvalidMessage(MaximumReason(currency, limit.maxCents))}
      else {}
  }

  predicate WithinLimits(currency: string, amount: real, env: Env)
  {
    currency in env.limits ==>
      env.limits[currency].minCents as real / 100.0 <= amount <= env.limits[currency].maxCents as real / 100.0
  }

  /** The exchange data, stated positively: exact amounts are kin at rate 1 with matching quarks, partial ones fiat. */
  predicate ExchangeOk(exchange: ExchangeData, env: Env)
  {
    match exchange
    case Exact(currency, rate, amount, quarks) =>
      currency == Kin && rate == 1.0 && quarks as real == amount * QuarksPerKin as real && WithinLimits(currency, amount, env)
    case Partial(currency, amount) =>
      currency != Kin && WithinLimits(currency, amount, env)
  }

  /**
   * The exchange-data checks in order: the currency kind, then (for exact
   * data) the rate and the quarks, then the limits. The first failure is the
   * only one reported.
   */
  function ExchangeFaults(exchange: ExchangeData, env: Env): (faults: set<Rejection>)
    ensures faults == {} <==> ExchangeOk(exchange, env)
    ensures |faults| <= 1
  {
    match exchange
    case Exact(currency, rate, amount, quarks) =>
      if currency != Kin then {InvalidMessage(ExactNotKin)}
      else if rate != 1.0 then {InvalidMessage(KinRateNotOne)}
      else if quarks as real != amount * QuarksPerKin as real then {InvalidMessage(QuarkMismatch)}
      else LimitFaults(currency, amount, env)
    case Partial(currency, amount) =>
      if currency == Kin then {InvalidMessage(PartialNotFiat)}
      else LimitFaults(currency, amount, env)
  }

  /** The domain a message names, if any. */
  function DomainOf(msg: ClientMessage): Option<string>
  {
    match msg
    case RequestToGrabBill(_) => None
    case RequestToReceiveBill(_, _, domain, _) => Some(domain)
    case RequestToLogin(domain, _, _) => Some(domain)
    case LoginAttempt(_, domain, _, _, _) => Some(domain)
  }

  /** A domain a message names must have a base domain. */
  function DomainValidityFaults(msg: ClientMessage, env: Env): (faults: set<Rejection>)
    ensures faults == {} <==> DomainOf(msg).None? || Domain.GetAsciiBaseDomain(DomainOf(msg).value, env.codec).Ok?
    ensures Unauthenticated !in faults
  {
    if DomainOf(msg).Some? && Domain.GetAsciiBaseDomain(DomainOf(msg).value, env.codec).Err? then
      {InvalidMessage(DomainInvalid)}
    else {}
  }

  /** A login attempt's user must be a RELATIONSHIP account tied to the domain. */
  function LoginAccountFaults(userId: Account, domain: string, env: Env): set<Rejection>
  {
    if userId !in env.accounts then {InvalidMessage(AccountMissing)}
    else if env.accounts[userId].accountType != Relationship then {InvalidMessage(NotRelationship)}
    else if env.accounts[userId].relationshipTo != Some(domain) then {InvalidMessage(NoRelationshipReason(domain))}
    else {}
  }

  /** The checks on a message's own content (accounts and amounts). */
  function ContentFaults(msg: ClientMessage, env: Env): (faults: set<Rejection>)
    ensures Unauthenticated !in faults
  {
    match msg
    case RequestToGrabBill(requestor) => GrabBillAccountFaults(requestor, env)
    case RequestToReceiveBill(requestor, exchange, _, proof) =>
      ReceiveBillAccountFaults(requestor, proof, env) + ExchangeFaults(exchange, env)
    case RequestToLogin(_, _, _) => {}
    case LoginAttempt(userId, domain, _, _, _) => LoginAccountFaults(userId, domain, env)
  }

  /**
   * The part of a message signed by a third party: the domain it names, the
   * verifier whose ownership of the domain is checked (if any), and the
   * rendezvous key it was signed for.
   */
  datatype Signed = Signed(domain: string, verifier: Option<Account>, signedKey: Account)

  /** A payment request carries a signed part only when domain verification is enabled. */
  function SignedPart(msg: ClientMessage): Option<Signed>
  {
    match msg
    case RequestToGrabBill(_) => None
    case RequestToReceiveBill(_, _, domain, proof) =>
      if proof.Some? then Some(Signed(domain, Some(proof.value.verifier), proof.value.rendezvousKey)) else None
    case RequestToLogin(domain, _, p) => Some(Signed(domain, Some(p.verifier), p.rendezvousKey))
    case LoginAttempt(_, domain, _, _, signedKey) => Some(Signed(domain, None, signedKey))
  }

  /**
   * The checks on a signed part: the verifier (when there is one) must own the
   * domain, the signature inside the message must verify, and the signed
   * rendezvous key must be the one sent to.
   */
  function SignedFaults(key: Account, s: Signed, env: Env): (faults: set<Rejection>)
    ensures Unauthenticated in faults <==> !env.signatureValid
    ensures faults == {} <==>
              (s.verifier.Some? ==> env.owns(s.verifier.value, s.domain)) && env.signatureValid && s.signedKey == key
  {
    (if s.verifier.Some? && !env.owns(s.verifier.value, s.domain) then {PermissionDenied(NotOwnerReason(s.domain))} else {})
    + (if !env.signatureValid then {Unauthenticated} else {})
    + (if s.signedKey != key then {InvalidMessage(KeyMismatch)} else {})
  }

  /** Every rejection a message sent to `key` earns. */
  function Faults(key: Account, msg: ClientMessage, env: Env): (faults: set<Rejection>)
    ensures !env.requestSignatureValid ==> faults == {Unauthenticated}
    ensures env.requestSignatureValid ==> ContentFaults(msg, env) + DomainValidityFaults(msg, env) <= faults
    ensures env.requestSignatureValid && SignedPart(msg).None? ==>
              faults == ContentFaults(msg, env) + DomainValidityFaults(msg, env)
    ensures Unauthenticated in faults <==> !env.requestSignatureValid || (SignedPart(msg).Some? && !env.signatureValid)
  {
    if !env.requestSignatureValid then {Unauthenticated}
    else
      ContentFaults(msg, env) + DomainValidityFaults(msg, env)
      + match SignedPart(msg)
        case None => {}
        case Some(s) => SignedFaults(key, s, env)
  }

  predicate Accepts(key: Account, msg: ClientMessage, env: Env)
  {
    Faults(key, msg, env) == {}
  }

  // ---- the same rules, stated positively --------------------------------

  predicate ContentOk(msg: ClientMessage, env: Env)
  {
    match msg
    case RequestToGrabBill(r) =>
      && r in env.accounts && env.accounts[r].accountType == TemporaryIncoming
      && env.accounts[r].ownerAccount in env.latestTemporaryIncoming
      && env.latestTemporaryIncoming[env.accounts[r].ownerAccount] == r
    case RequestToReceiveBill(r, exchange, _, proof) =>
      (proof.None? && r in env.accounts ==> env.accounts[r].accountType == Primary) && ExchangeOk(exchange, env)
    case RequestToLogin(_, _, _) => true
    case LoginAttempt(u, domain, _, _, _) =>
      u in env.accounts && env.accounts[u].accountType == Relationship && env.accounts[u].relationshipTo == Some(domain)
  }

  predicate DomainOk(msg: ClientMessage, env: Env)
  {
    DomainOf(msg).Some? ==> Domain.GetAsciiBaseDomain(DomainOf(msg).value, env.codec).Ok?
  }

  predicate SignedOk(key: Account, msg: ClientMessage, env: Env)
  {
    SignedPart(msg).Some? ==>
      var s := SignedPart(msg).value;
      && (s.verifier.Some? ==> env.owns(s.verifier.value, s.domain))
      && env.signatureValid
      && s.signedKey == key
  }

  /**
   * A message is accepted exactly when the request is signed, and its content,
   * its domain and its signed part pass every rule.
   */
  lemma AcceptsIffValid(key: Account, msg: ClientMessage, env: Env)
    ensures Accepts(key, msg, env) <==>
              env.requestSignatureValid && ContentOk(msg, env) && DomainOk(msg, env) && SignedOk(key, msg, env)
  {
    if env.requestSignatureValid {
      SignedRequestFaultsIff(key, msg, env);
      ContentFaultsIff(msg, env);
    }
  }

  /** Past the request signature, a message is fault-free exactly when each part is. */
  lemma SignedRequestFaultsIff(key: Account, msg: ClientMessage, env: Env)
    requires env.requestSignatureValid
    ensures Faults(key, msg, env) == {} <==>
              ContentFaults(msg, env) == {} && DomainOk(msg, env) && SignedOk(key, msg, env)
  {
    var content, domain := ContentFaults(msg, env), DomainValidityFaults(msg, env);
    assert domain == {} <==> DomainOk(msg, env);
    if SignedPart(msg).None? {
      assert Faults(key, msg, env) == content + domain;
    } else {
      var signed := SignedFaults(key, SignedPart(msg).value, env);
      assert signed == {} <==> SignedOk(key, msg, env);
      assert Faults(key, msg, env) == content + domain + signed;
      UnionIsEmpty(content, domain, signed);
    }
  }

  lemma UnionIsEmpty<T>(a: set<T>, b: set<T>, c: set<T>)
    ensures a + b + c == {} <==> a == {} && b == {} && c == {}
  {
    if a + b + c == {} {
      assert forall x | x in a :: x in a + b + c;
      assert forall x | x in b :: x in a + b + c;
      assert forall x | x in c :: x in a + b + c;
    }
  }

  /** The content checks find nothing exactly when the content is valid. */
  lemma ContentFaultsIff(msg: ClientMessage, env: Env)
    ensures ContentFaults(msg, env) == {} <==> ContentOk(msg, env)
  {
    match msg
    case RequestToGrabBill(r) =>
    case RequestToReceiveBill(r, exchange, _, proof) =>
      assert ExchangeFaults(exchange, env) == {} <==> ExchangeOk(exchange, env);
    case RequestToLogin(_, _, _) =>
    case LoginAttempt(u, domain, _, _, _) =>
  }

  /** A request whose own signature does not verify is refused as Unauthenticated, whatever it carries. */
  lemma BadRequestSignatureFault(key: Account, msg: ClientMessage, env: Env)
    requires !env.requestSignatureValid
    ensures Faults(key, msg, env) == {Unauthenticated}
    ensures !Accepts(key, msg, env)
  {
  }

  /**
   * A trial payment request (no domain proof) is judged without the proof
   * inputs: the inner signature, domain ownership and the rendezvous key do not
   * matter. The request's own signature still does.
   */
  lemma UnverifiedRequestIgnoresProofInputs(
    key: Account, key': Account, msg: ClientMessage, env: Env,
    owns': (Account, string) -> bool, signatureValid': bool)
    requires msg.RequestToReceiveBill? && msg.proof.None?
    ensures Faults(key, msg, env) == Faults(key', msg, env.(owns := owns', signatureValid := signatureValid'))
  {
    var env' := env.(owns := owns', signatureValid := signatureValid');
    assert ExchangeFaults(msg.exchange, env) == ExchangeFaults(msg.exchange, env') by {
      assert env'.limits == env.limits;
    }
    assert ContentFaults(msg, env) == ContentFaults(msg, env');
    assert DomainValidityFaults(msg, env) == DomainValidityFaults(msg, env');
  }

  /** With domain verification enabled, the requestor's account type does not matter. */
  lemma VerifiedRequestIgnoresRequestorType(
    key: Account, msg: ClientMessage, env: Env, accounts': map<Account, AccountInfoRecord>)
    requires msg.RequestToReceiveBill? && msg.proof.Some?
    ensures Faults(key, msg, env) == Faults(key, msg, env.(accounts := accounts'))
  {
    var env' := env.(accounts := accounts');
    assert ExchangeFaults(msg.exchange, env) == ExchangeFaults(msg.exchange, env') by {
      assert env'.limits == env.limits;
    }
    assert ReceiveBillAccountFaults(msg.requestorAccount, msg.proof, env) == {};
    assert ReceiveBillAccountFaults(msg.requestorAccount, msg.proof, env') == {};
    assert ContentFaults(msg, env) == ContentFaults(msg, env');
    assert DomainValidityFaults(msg, env) == DomainValidityFaults(msg, env');
    var sp := SignedPart(msg).value;
    assert SignedFaults(key, sp, env) == SignedFaults(key, sp, env');
  }

  // ---- single faults ----------------------------------------------------

  lemma GrabBillNotTemporaryIncoming(key: Account, msg: ClientMessage, env: Env)
    requires env.requestSignatureValid && msg.RequestToGrabBill?
    requires msg.requestorAccount !in env.accounts || env.accounts[msg.requestorAccount].accountType != TemporaryIncoming
    ensures Faults(key, msg, env) == {InvalidMessage("requestor account must be a temporary incoming account")}
  {
  }

  lemma GrabBillNotLatest(key: Account, msg: ClientMessage, env: Env)
    requires env.requestSignatureValid && msg.RequestToGrabBill?
    requires msg.requestorAccount in env.accounts && env.accounts[msg.requestorAccount].accountType == TemporaryIncoming
    requires var owner := env.accounts[msg.requestorAccount].ownerAccount;
             owner !in env.latestTemporaryIncoming || env.latestTemporaryIncoming[owner] != msg.requestorAccount
    ensures Faults(key, msg, env) == {InvalidMessage("requestor account must be latest temporary incoming account")}
  {
  }

  lemma ReceiveBillNotPrimary(key: Account, msg: ClientMessage, env: Env)
    requires env.requestSignatureValid && msg.RequestToReceiveBill? && msg.proof.None?
    requires ExchangeOk(msg.exchange, env) && DomainOk(msg, env)
    requires msg.requestorAccount in env.accounts && env.accounts[msg.requestorAccount].accountType != Primary
    ensures Faults(key, msg, env) == {InvalidMessage("requestor account must be a primary account for trials using a code account")}
  {
  }

  /** The premises of the exchange-data single faults: everything but the exchange data is valid. */
  predicate OnlyExchangeAtStake(key: Account, msg: ClientMessage, env: Env)
  {
    && env.requestSignatureValid
    && msg.RequestToReceiveBill?
    && (msg.proof.None? && msg.requestorAccount in env.accounts ==> env.accounts[msg.requestorAccount].accountType == Primary)
    && DomainOk(msg, env)
    && SignedOk(key, msg, env)
  }

  lemma KinRateNotOneFault(key: Account, msg: ClientMessage, env: Env)
    requires OnlyExchangeAtStake(key, msg, env) && msg.exchange.Exact?
    requires msg.exchange.currency == Kin && msg.exchange.exchangeRate != 1.0
    ensures Faults(key, msg, env) == {InvalidMessage("kin exchange rate must be 1")}
  {
  }

  lemma QuarkMismatchFault(key: Account, msg: ClientMessage, env: Env)
    requires OnlyExchangeAtStake(key, msg, env) && msg.exchange.Exact?
    requires var x := msg.exchange;
             x.currency == Kin && x.exchangeRate == 1.0 && x.quarks as real != x.nativeAmount * QuarksPerKin as real
    ensures Faults(key, msg, env) == {InvalidMessage("payment native amount and quark value mismatch")}
  {
  }

  lemma ExactNotKinFault(key: Account, msg: ClientMessage, env: Env)
    requires OnlyExchangeAtStake(key, msg, env) && msg.exchange.Exact? && msg.exchange.currency != Kin
    ensures Faults(key, msg, env) == {InvalidMessage("exact exchange data only supports kin currency")}
  {
  }

  lemma PartialNotFiatFault(key: Account, msg: ClientMessage, env: Env)
    requires OnlyExchangeAtStake(key, msg, env) && msg.exchange.Partial? && msg.exchange.currency == Kin
    ensures Faults(key, msg, env) == {InvalidMessage("partial exchange data only supports fiat currencies")}
  {
  }

  /** The exchange data is valid apart from its amount's range. */
  predicate WellFormedApartFromRange(x: ExchangeData)
  {
    match x
    case Exact(currency, rate, amount, quarks) =>
      currency == Kin && rate == 1.0 && quarks as real == amount * QuarksPerKin as real
    case Partial(currency, _) => currency != Kin
  }

  lemma BelowMinimumFault(key: Account, msg: ClientMessage, env: Env)
    requires OnlyExchangeAtStake(key, msg, env) && WellFormedApartFromRange(msg.exchange)
    requires msg.exchange.currency in env.limits
    requires msg.exchange.nativeAmount < env.limits[msg.exchange.currency].minCents as real / 100.0
    ensures var x := msg.exchange;
            Faults(key, msg, env) == {InvalidMessage(MinimumReason(x.currency, env.limits[x.currency].minCents))}
  {
  }

  lemma AboveMaximumFault(key: Account, msg: ClientMessage, env: Env)
    requires OnlyExchangeAtStake(key, msg, env) && WellFormedApartFromRange(msg.exchange)
    requires msg.exchange.currency in env.limits
    requires var limit := env.limits[msg.exchange.currency];
             limit.minCents as real / 100.0 <= msg.exchange.nativeAmount
             && msg.exchange.nativeAmount > limit.maxCents as real / 100.0
    ensures var x := msg.exchange;
            Faults(key, msg, env) == {InvalidMessage(MaximumReason(x.currency, env.limits[x.currency].maxCents))}
  {
  }

  /** The premises of the login-attempt single faults: everything but the user's account is valid. */
  predicate OnlyLoginUserAtStake(key: Account, msg: ClientMessage, env: Env)
  {
    env.requestSignatureValid && msg.LoginAttempt? && DomainOk(msg, env) && SignedOk(key, msg, env)
  }

  lemma LoginAttemptAccountMissing(key: Account, msg: ClientMessage, env: Env)
    requires OnlyLoginUserAtStake(key, msg, env) && msg.userId !in env.accounts
    ensures Faults(key, msg, env) == {InvalidMessage("account doesn't exist")}
  {
  }

  lemma LoginAttemptNotRelationship(key: Account, msg: ClientMessage, env: Env)
    requires OnlyLoginUserAtStake(key, msg, env)
    requires msg.userId in env.accounts && env.accounts[msg.userId].accountType != Relationship
    ensures Faults(key, msg, env) == {InvalidMessage("account type must be RELATIONSHIP")}
  {
  }

  lemma LoginAttemptWrongRelationship(key: Account, msg: ClientMessage, env: Env)
    requires OnlyLoginUserAtStake(key, msg, env)
    requires msg.userId in env.accounts && env.accounts[msg.userId].accountType == Relationship
    requires env.accounts[msg.userId].relationshipTo != Some(msg.domain)
    ensures Faults(key, msg, env) == {InvalidMessage("account must have a relationship to " + msg.domain)}
  {
  }

  /**
   * An invalid domain is refused on its own, with or without a signed part:
   * a trial payment request must name a valid domain as well.
   */
  lemma DomainInvalidFault(key: Account, msg: ClientMessage, env: Env)
    requires env.requestSignatureValid && ContentOk(msg, env) && SignedOk(key, msg, env)
    requires DomainOf(msg).Some? && Domain.GetAsciiBaseDomain(DomainOf(msg).value, env.codec).Err?
    ensures Faults(key, msg, env) == {InvalidMessage("domain is invalid")}
  {
  }

  /** The premises of the signed-part single faults: all but the signed part is valid, and there is one. */
  predicate OnlySignedPartAtStake(msg: ClientMessage, env: Env)
  {
    env.requestSignatureValid && ContentOk(msg, env) && DomainOk(msg, env) && SignedPart(msg).Some?
  }

  lemma NotDomainOwnerFault(key: Account, msg: ClientMessage, env: Env)
    requires OnlySignedPartAtStake(msg, env)
    requires var s := SignedPart(msg).value;
             && s.verifier.Some? && !env.owns(s.verifier.value, s.domain)
             && env.signatureValid && s.signedKey == key
    ensures Faults(key, msg, env) == {PermissionDenied("does not own domain " + SignedPart(msg).value.domain)}
  {
  }

  lemma BadSignatureFault(key: Account, msg: ClientMessage, env: Env)
    requires OnlySignedPartAtStake(msg, env)
    requires var s := SignedPart(msg).value;
             && (s.verifier.Some? ==> env.owns(s.verifier.value, s.domain))
             && !env.signatureValid && s.signedKey == key
    ensures Faults(key, msg, env) == {Unauthenticated}
  {
  }

  lemma RendezvousKeyMismatchFault(key: Account, msg: ClientMessage, env: Env)
    requires OnlySignedPartAtStake(msg, env)
    requires var s := SignedPart(msg).value;
             && (s.verifier.Some? ==> env.owns(s.verifier.value, s.domain))
             && env.signatureValid && s.signedKey != key
    ensures Faults(key, msg, env) == {InvalidMessage("rendezvous key mismatch")}
  {
  }
}
