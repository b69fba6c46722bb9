/**
 * The messaging relay as a state machine over its stores: messages pending
 * per rendezvous key, the presence of an open message stream per key, and the
 * payment requests recorded from accepted payment-request messages.
 *
 * Message ids are drawn from a counter here (the server draws random ids);
 * what matters is that a new id differs from every stored one. An open stream
 * is modelled by the sequence of messages it has delivered so far: opening it
 * delivers everything pending for the key, and every message stored while it
 * is open is delivered as well.
 */
module Relay {
  import opened Shared
  import opened RelayValidation

  /** What is stored under a rendezvous key: a client's message, or one the server created. */
  datatype Message = Client(msg: ClientMessage) | CodeScanned(timestamp: Time)

  /** A stored message; `requestSignature` is the signature of the send request, if a client sent it. */
  datatype Stored = Stored(id: nat, message: Message, requestSignature: Option<Bytes>)

  datatype State = State(
    messages: map<Account, seq<Stored>>,
    streams: map<Account, seq<Stored>>,
    paymentRequests: map<Account, ClientMessage>,
    nextId: nat)

  const Empty: State := State(map[], map[], map[], 0)

  /** The messages pending for `key`, oldest first. */
  function Pending(s: State, key: Account): seq<Stored>
  {
    if key in s.messages then s.messages[key] else []
  }

  /** Every stored or delivered message has an id below `nextId`. */
  ghost predicate Valid(s: State)
  {
    && (forall k, m | k in s.messages && m in s.messages[k] :: m.id < s.nextId)
    && (forall k, m | k in s.streams && m in s.streams[k] :: m.id < s.nextId)
  }

  /** Whether an open stream exists for `key` (the presence record). */
  predicate HasPresence(s: State, key: Account)
  {
    key in s.streams
  }

  /** Stores `m` under `key` with a fresh id and delivers it to an open stream. */
  function Store(s: State, key: Account, m: Message, signature: Option<Bytes>): (r: State)
    requires Valid(s)
    ensures Valid(r)
    ensures Pending(r, key) == Pending(s, key) + [Stored(s.nextId, m, signature)]
    ensures forall m' | m' in Pending(s, key) :: m'.id != s.nextId
    ensures forall k | k != key :: Pending(r, k) == Pending(s, k)
    ensures r.streams.Keys == s.streams.Keys
    ensures key in s.streams ==> r.streams[key] == s.streams[key] + [Stored(s.nextId, m, signature)]
    ensures forall k | k in s.streams && k != key :: r.streams[k] == s.streams[k]
    ensures r.paymentRequests == s.paymentRequests
  {
    var stored := Stored(s.nextId, m, signature);
    State(
      s.messages[key := Pending(s, key) + [stored]],
      if key in s.streams then s.streams[key := s.streams[key] + [stored]] else s.streams,
      s.paymentRequests,
      s.nextId + 1)
  }

  datatype SendOutcome = SendOutcome(state: State, result: Result<nat, set<Rejection>>)

  /**
   * A client's send: a rejected message writes nothing; an accepted one is
   * stored under the key with the request's signature, and a payment request
   * is also recorded in the payment-request store.
   */
  function SendMessage(s: State, key: Account, msg: ClientMessage, signature: Bytes, env: Env): (r: SendOutcome)
    requires Valid(s)
    ensures Valid(r.state)
    ensures r.result.Err? <==> !Accepts(key, msg, env)
    ensures r.result.Err? ==> r.result.error == Faults(key, msg, env) && r.state == s
    ensures r.result.Ok? ==>
              && r.result.value !in (set m | m in Pending(s, key) :: m.id)
              && Pending(r.state, key) == Pending(s, key) + [Stored(r.result.value, Client(msg), Some(signature))]
              && (forall k | k != key :: Pending(r.state, k) == Pending(s, k))
              && r.state.streams.Keys == s.streams.Keys
              && r.state.paymentRequests == (if msg.RequestToReceiveBill? then s.paymentRequests[key := msg] else s.paymentRequests)
  {
    var faults := Faults(key, msg, env);
    if faults != {} then SendOutcome(s, Err(faults))
    else
      var s' := Store(s, key, Client(msg), Some(signature));
      var s'' := if msg.RequestToReceiveBill? then s'.(paymentRequests := s'.paymentRequests[key := msg]) else s';
      SendOutcome(s'', Ok(s.nextId))
  }

  datatype Created = Created(state: State, id: nat)

  /** A message the server creates itself: stored like a sent one, but without a request signature. */
  function InternallyCreateMessage(s: State, key: Account, m: Message): (r: Created)
    requires Valid(s)
    ensures Valid(r.state)
    ensures r.id !in (set x | x in Pending(s, key) :: x.id)
    ensures Pending(r.state, key) == Pending(s, key) + [Stored(r.id, m, None)]
    ensures forall k | k != key :: Pending(r.state, k) == Pending(s, k)
    ensures r.state.paymentRequests == s.paymentRequests
  {
    Created(Store(s, key, m, None), s.nextId)
  }

  /** The messages of `ms` whose ids are not in `ids`, in their original order. */
  function Without(ms: seq<Stored>, ids: set<nat>): (r: seq<Stored>)
    ensures forall m :: m in r <==> m in ms && m.id !in ids
    ensures |r| <= |ms|
    ensures (forall m | m in ms :: m.id !in ids) ==> r == ms
    ensures (forall m | m in ms :: m.id in ids) ==> r == []
  {
    if ms == [] then []
    else if ms[0].id in ids then Without(ms[1..], ids)
    else [ms[0]] + Without(ms[1..], ids)
  }

  /** Acknowledging ids removes those messages from the key's pending messages. */
  function AckMessages(s: State, key: Account, ids: set<nat>): (r: State)
    requires Valid(s)
    ensures Valid(r)
    ensures forall m :: m in Pending(r, key) <==> m in Pending(s, key) && m.id !in ids
    ensures forall k | k != key :: Pending(r, k) == Pending(s, k)
    ensures r.streams == s.streams && r.paymentRequests == s.paymentRequests && r.nextId == s.nextId
  {
    if key in s.messages then s.(messages := s.messages[key := Without(s.messages[key], ids)]) else s
  }

  /**
   * An acknowledgement as a client sends it: refused as Unauthenticated when
   * the request's signature does not verify, otherwise the acknowledged
   * messages leave the key's store.
   */
  function SignedAckMessages(s: State, key: Account, ids: set<nat>, signatureValid: bool): (r: Result<State, Rejection>)
    requires Valid(s)
    ensures r.Err? <==> !signatureValid
    ensures r.Err? ==> r.error == Unauthenticated
    ensures r.Ok? ==>
              && Valid(r.value)
              && (forall m :: m in Pending(r.value, key) <==> m in Pending(s, key) && m.id !in ids)
              && (forall k | k != key :: Pending(r.value, k) == Pending(s, k))
              && r.value.streams == s.streams
  {
    if signatureValid then Ok(AckMessages(s, key, ids)) else Err(Unauthenticated)
  }

  /** Opening a stream records presence and delivers everything pending for the key. */
  function OpenMessageStream(s: State, key: Account): (r: State)
    requires Valid(s)
    ensures Valid(r)
    ensures HasPresence(r, key) && r.streams[key] == Pending(s, key)
    ensures forall k | k != key :: Pending(r, k) == Pending(s, k)
    ensures forall k | k != key :: HasPresence(r, k) == HasPresence(s, k)
  {
    s.(streams := s.streams[key := Pending(s, key)])
  }

  /**
   * Opening a stream as a client asks for it: refused as Unauthenticated when
   * the request's signature does not verify, otherwise the stream is opened.
   */
  function SignedOpenMessageStream(s: State, key: Account, signatureValid: bool): (r: Result<State, Rejection>)
    requires Valid(s)
    ensures r.Err? <==> !signatureValid
    ensures r.Err? ==> r.error == Unauthenticated
    ensures r.Ok? ==>
              && Valid(r.value)
              && HasPresence(r.value, key) && r.value.streams[key] == Pending(s, key)
              && (forall k | k != key :: HasPresence(r.value, k) == HasPresence(s, k))
              && r.value.messages == s.messages
  {
    if signatureValid then Ok(OpenMessageStream(s, key)) else Err(Unauthenticated)
  }

  /** Closing the stream deletes the presence record; pending messages stay. */
  function CloseMessageStream(s: State, key: Account): (r: State)
    requires Valid(s)
    ensures Valid(r)
    ensures !HasPresence(r, key)
    ensures forall k | k != key :: HasPresence(r, k) == HasPresence(s, k)
    ensures r.messages == s.messages && r.paymentRequests == s.paymentRequests
  {
    s.(streams := s.streams - {key})
  }

  /** A send whose request signature does not verify is refused as Unauthenticated and writes nothing. */
  lemma BadlySignedSendWritesNothing(s: State, key: Account, msg: ClientMessage, signature: Bytes, env: Env)
    requires Valid(s) && !env.requestSignatureValid
    ensures SendMessage(s, key, msg, signature, env) == SendOutcome(s, Err({Unauthenticated}))
  {
    BadRequestSignatureFault(key, msg, env);
  }

  /** Open, then close: presence is saved while open and deleted afterwards. */
  lemma PresenceFollowsStream(s: State, key: Account)
    requires Valid(s)
    ensures HasPresence(OpenMessageStream(s, key), key)
    ensures !HasPresence(CloseMessageStream(OpenMessageStream(s, key), key), key)
  {
  }

  /** Polling after acknowledging every pending id finds nothing. */
  lemma AckAllThenPollIsEmpty(s: State, key: Account, ids: set<nat>)
    requires Valid(s)
    requires forall m | m in Pending(s, key) :: m.id in ids
    ensures Pending(AckMessages(s, key, ids), key) == []
  {
  }

  /** Acknowledging is idempotent. */
  lemma {:induction false} AckIdempotent(s: State, key: Account, ids: set<nat>)
    requires Valid(s)
    ensures AckMessages(AckMessages(s, key, ids), key, ids) == AckMessages(s, key, ids)
  {
  }

  /**
   * The rendezvous flow: a stream opened before the send and one opened after
   * it both deliver exactly the sent message, under the id the send returned.
   */
  lemma {:induction false} OpenBeforeOrAfterSendDeliversTheSame(
    s: State, key: Account, msg: ClientMessage, signature: Bytes, env: Env)
    requires Valid(s)
    requires Pending(s, key) == []
    requires Accepts(key, msg, env)
    ensures var before := SendMessage(OpenMessageStream(s, key), key, msg, signature, env);
            var after := SendMessage(s, key, msg, signature, env);
            && before.result.Ok? && after.result.Ok?
            && before.result.value == after.result.value
            && before.state.streams[key] == [Stored(before.result.value, Client(msg), Some(signature))]
            && OpenMessageStream(after.state, key).streams[key] == before.state.streams[key]
  {
    var open := OpenMessageStream(s, key);
    assert open.nextId == s.nextId;
    assert open.streams[key] == [];
  }

  /** Send, poll, ack, poll: the message is received once and then gone. */
  lemma {:induction false} SendPollAckRoundTrip(s: State, key: Account, msg: ClientMessage, signature: Bytes, env: Env)
    requires Valid(s)
    requires Pending(s, key) == []
    requires Accepts(key, msg, env)
    ensures var sent := SendMessage(s, key, msg, signature, env);
            && sent.result.Ok?
            && Pending(sent.state, key) == [Stored(sent.result.value, Client(msg), Some(signature))]
            && Pending(AckMessages(sent.state, key, {sent.result.value}), key) == []
  {
    var sent := SendMessage(s, key, msg, signature, env);
    AckAllThenPollIsEmpty(sent.state, key, {sent.result.value});
  }
}
