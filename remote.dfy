/**
 * The remote counterparty connection of remote/client.go: a
 * `RemoteConnection` that answers the peer's requests from its dispatch loop
 * (`process`) and makes its own requests (`Identify`, `CardPair`,
 * `FinalizeCardPair`, `GetCertificate`, `ConnectToCard`, `ReceivePhonons`),
 * each a single send followed by a wait on a capacity-1 channel.
 *
 * Abstractions:
 *  - the gob-encoded stream is the `outbox`, the list of every message handed
 *    to the encoder, in order;
 *  - the local card session answers through a `SessionOracle` given to each
 *    dispatch step; only its `RemoteCard` field is state (`Session`);
 *  - signature checks and parsers are the functions of a `Library`;
 *  - a channel is an `Option` slot; a send into a full slot would block the
 *    dispatch loop, so `Process` requires it does not happen (`CanDeliver`);
 *  - a wait is given by what the dispatch loop delivers during the
 *    10-second window (the `arrival` parameters): that delivery runs the
 *    same case handler `Deliver` calls for it, then the wait takes the
 *    slot's value, or times out when the slot is still empty.
 */
module Remote {
  import opened Wrappers

  newtype byte = x: int | 0 <= x < 256

  type Bytes = seq<byte>

  /** The 32-byte identify challenge. */
  type Nonce = s: Bytes | |s| == 32 witness seq(32, _ => 0)

  /**
   * The `Name` of a message: the known constants, or `Unrecognized(name)`,
   * which stands for any string outside the constant set (a `name` spelling
   * one of the constants is not meant).
   */
  datatype MessageName =
    | RequestCertificate | ResponseCertificate
    | RequestIdentify | ResponseIdentify
    | MessageError | MessageIdentifiedWithServer | MessageConnectedToCard
    | RequestCardPair1 | ResponseCardPair1
    | RequestFinalizeCardPair | ResponseFinalizeCardPair
    | MessagePhononAck | RequestReceivePhonon
    | RequestConnectCard2Card
    | Unrecognized(name: string)

  /** The wire envelope. */
  datatype Message = Message(name: MessageName, payload: Bytes)

  /** The names `process` has a case for. */
  predicate Handled(name: MessageName)
  {
    !name.Unrecognized? && name != RequestConnectCard2Card
  }

  /** The names whose case asks the local session for an answer. */
  predicate IsRequest(name: MessageName)
  {
    name in {RequestCertificate, RequestIdentify, RequestCardPair1, RequestFinalizeCardPair, RequestReceivePhonon}
  }

  datatype PublicKey = PublicKey(point: Bytes)

  datatype Signature = Signature(r: nat, s: nat)

  /** A card certificate; its structure is not looked into here. */
  datatype Certificate = Certificate(raw: Bytes)

  /** What a parsed identify response carries. */
  datatype IdentifyResponse = IdentifyResponse(key: PublicKey, sig: Signature)

  /** The errors a requester returns: `ErrTimeout`, or an error whose text the peer sent. */
  datatype Error = ErrTimeout | PeerError(text: Bytes)

  /** The error half of a session call; `Err` carries `err.Error()`. */
  datatype Status = Ok | Err(text: Bytes)

  /** A session call's `(value, err)` pair. */
  datatype Answer<T> = Answer(value: T, status: Status)

  /**
   * What the local card session answers during one dispatch step, for each
   * call a responder may make, as a function of the argument it is given.
   */
  datatype SessionOracle = SessionOracle(
    getCertificate: Answer<Certificate>,
    identifyCard: Bytes -> Answer<Signature>,
    cardPair: Bytes -> Answer<Bytes>,
    finalizeCardPair: Bytes -> Status,
    receivePhonons: Bytes -> Status)

  /** The parsing, encoding and signature functions of the card and cert packages. */
  datatype Library = Library(
    parseIdentifyCardResponse: Bytes -> Option<IdentifyResponse>,
    verify: (PublicKey, Bytes, Signature) -> bool,
    parseRawCardCertificate: Bytes -> Option<Certificate>,
    serializeCertificate: Certificate -> Bytes,
    encodeSignature: Signature -> Bytes)

  /** Whether an identify response payload carries a valid signature over `nonce`. */
  predicate Verifies(lib: Library, payload: Bytes, nonce: Bytes)
  {
    match lib.parseIdentifyCardResponse(payload)
    case None => false
    case Some(r) => lib.verify(r.key, nonce, r.sig)
  }

  /** Every field of a connection that its methods may change. */
  datatype Snapshot = Snapshot(
    remoteCertificate: Option<Certificate>,
    identifiedWithServer: bool,
    counterpartyNonce: Nonce,
    verified: bool,
    pairFinalized: bool,
    closed: bool,
    outbox: seq<Message>,
    identifiedWithServerChan: Option<bool>,
    connectedToCardChan: Option<bool>,
    remoteCertificateChan: Option<Certificate>,
    remoteIdentityChan: Option<Bytes>,
    cardPair1DataChan: Option<Bytes>,
    finalizeCardPairDataChan: Option<Bytes>,
    phononAckChan: Option<bool>)

  /**
   * The effect of the dispatch loop's cases that fill a slot or a flag
   * (everything but the five requests): the transition table for responses
   * and notifications. An error message is only logged; an unknown name has
   * no case and is dropped.
   */
  ghost function AfterDelivery(s: Snapshot, msg: Message, lib: Library): Snapshot
  {
    match msg.name
    case ResponseCertificate =>
      (match lib.parseRawCardCertificate(msg.payload)
       case None => s
       case Some(c) => s.(remoteCertificateChan := Some(c), remoteCertificate := Some(c)))
    case ResponseIdentify =>
      if Verifies(lib, msg.payload, s.counterpartyNonce) then s.(verified := true) else s
    case MessageIdentifiedWithServer => s.(identifiedWithServerChan := Some(true), identifiedWithServer := true)
    case MessageConnectedToCard => s.(connectedToCardChan := Some(true))
    case ResponseCardPair1 => s.(cardPair1DataChan := Some(msg.payload))
    case ResponseFinalizeCardPair => s.(finalizeCardPairDataChan := Some(msg.payload))
    case MessagePhononAck => s.(phononAckChan := Some(true))
    case _ => s
  }

  /**
   * The effect of the responders, the cases of the dispatch loop for the
   * peer's five requests: each asks the session and replies, except that an
   * identify or phonon request the session fails is not answered, and a
   * finalize the session accepts also marks the pair finalized.
   */
  ghost function AfterRequest(s: Snapshot, msg: Message, oracle: SessionOracle, lib: Library): Snapshot
  {
    match msg.name
    case RequestCertificate =>
      s.(outbox := s.outbox + [Message(ResponseCertificate, lib.serializeCertificate(oracle.getCertificate.value))])
    case RequestIdentify =>
      var answer := oracle.identifyCard(msg.payload);
      if answer.status.Ok? then s.(outbox := s.outbox + [Message(ResponseIdentify, lib.encodeSignature(answer.value))]) else s
    case RequestCardPair1 =>
      s.(outbox := s.outbox + [Message(ResponseCardPair1, oracle.cardPair(msg.payload).value)])
    case RequestFinalizeCardPair =>
      (match oracle.finalizeCardPair(msg.payload)
       case Err(text) => s.(outbox := s.outbox + [Message(ResponseFinalizeCardPair, text)])
       case Ok => s.(outbox := s.outbox + [Message(ResponseFinalizeCardPair, [])], pairFinalized := true))
    case RequestReceivePhonon =>
      if oracle.receivePhonons(msg.payload).Ok? then s.(outbox := s.outbox + [Message(MessagePhononAck, [])]) else s
    case _ => s
  }

  /** Whether dispatching `msg` binds the connection as the session's remote card. */
  predicate BindsSession(msg: Message, oracle: SessionOracle)
  {
    msg.name == RequestFinalizeCardPair && oracle.finalizeCardPair(msg.payload).Ok?
  }

  /** The local card session; the only part of it this model tracks is the remote card it is bound to. */
  class Session {
    var remoteCard: RemoteConnection?

    constructor ()
      ensures remoteCard == null
    {
      remoteCard := null;
    }
  }

  class RemoteConnection {
    const session: Session
    const lib: Library

    var remoteCertificate: Option<Certificate>
    var identifiedWithServer: bool
    var counterpartyNonce: Nonce
    var verified: bool
    var pairFinalized: bool
    /** Whether `conn.Close()` has been called. */
    var closed: bool
    /** Every message handed to the encoder, oldest first. */
    var outbox: seq<Message>

    // the capacity-1 channels
    var identifiedWithServerChan: Option<bool>
    var connectedToCardChan: Option<bool>
    var remoteCertificateChan: Option<Certificate>
    var remoteIdentityChan: Option<Bytes>
    var cardPair1DataChan: Option<Bytes>
    var finalizeCardPairDataChan: Option<Bytes>
    var phononAckChan: Option<bool>

    ghost function State(): Snapshot
      reads this
    {
      Snapshot(remoteCertificate, identifiedWithServer, counterpartyNonce, verified, pairFinalized, closed, outbox,
               identifiedWithServerChan, connectedToCardChan, remoteCertificateChan, remoteIdentityChan,
               cardPair1DataChan, finalizeCardPairDataChan, phononAckChan)
    }

    /**
     * The connection invariant. No case of `process` ever sends on
     * `remoteIdentityChan`, so it stays empty; the identified-with-server
     * slot is only filled together with its flag; the certificate slot is
     * only filled together with the cache, with the same certificate.
     */
    ghost predicate Valid()
      reads this
    {
      && remoteIdentityChan.None?
      && (identifiedWithServerChan.Some? ==> identifiedWithServer)
      && (remoteCertificateChan.Some? ==> remoteCertificate == remoteCertificateChan)
    }

    /** Whether the dispatch loop can hand `msg` to its case without blocking on a full slot. */
    predicate CanDeliver(msg: Message)
      reads this
    {
      match msg.name
      case ResponseCertificate =>
        lib.parseRawCardCertificate(msg.payload).Some? ==> remoteCertificateChan.None?
      case MessageIdentifiedWithServer => identifiedWithServerChan.None?
      case MessageConnectedToCard => connectedToCardChan.None?
      case ResponseCardPair1 => cardPair1DataChan.None?
      case ResponseFinalizeCardPair => finalizeCardPairDataChan.None?
      case MessagePhononAck => phononAckChan.None?
      case _ => true
    }

    /** Connect, once the stream is established: every slot empty, no flag set. */
    constructor Connect(s: Session, library: Library)
      ensures Valid()
      ensures session == s && lib == library
      ensures State() == Snapshot(None, false, seq(32, _ => 0), false, false, false, [],
                                  None, None, None, None, None, None, None)
    {
      session := s;
      lib := library;
      remoteCertificate := None;
      identifiedWithServer := false;
      counterpartyNonce := seq(32, _ => 0);
      verified := false;
      pairFinalized := false;
      closed := false;
      outbox := [];
      identifiedWithServerChan := None;
      connectedToCardChan := None;
      remoteCertificateChan := None;
      remoteIdentityChan := None;
      cardPair1DataChan := None;
      finalizeCardPairDataChan := None;
      phononAckChan := None;
    }

    /** sendMessage: hand `{Name, Payload}` to the encoder. */
    method SendMessage(name: MessageName, payload: Bytes)
      modifies this`outbox
      ensures outbox == old(outbox) + [Message(name, payload)]
    {
      outbox := outbox + [Message(name, payload)];
    }

    /*
     * The dispatch loop.
     */

    /**
     * process: one step of the dispatch loop. The five requests go to their
     * responders, which ask the session and reply (`AfterRequest`); every
     * other name fills its slot or flag (`AfterDelivery`); a name with no case
     * changes nothing.
     */
    method Process(msg: Message, oracle: SessionOracle)
      requires Valid() && CanDeliver(msg)
      modifies this, session
      ensures Valid()
      ensures State() == if IsRequest(msg.name) then AfterRequest(old(State()), msg, oracle, lib)
                         else AfterDelivery(old(State()), msg, lib)
      ensures session.remoteCard == if BindsSession(msg, oracle) then this else old(session.remoteCard)
      ensures !Handled(msg.name) ==> State() == old(State())
      ensures remoteIdentityChan == old(remoteIdentityChan)
    {
      if IsRequest(msg.name) {
        Respond(msg, oracle);
      } else {
        Deliver(msg);
      }
    }

    /** The cases of `process` for the peer's requests. */
    method Respond(msg: Message, oracle: SessionOracle)
      requires IsRequest(msg.name)
      modifies this`outbox, this`pairFinalized, session`remoteCard
      ensures State() == AfterRequest(old(State()), msg, oracle, lib)
      ensures session.remoteCard == if BindsSession(msg, oracle) then this else old(session.remoteCard)
    {
      match msg.name {
        case RequestCertificate => SendCertificate(msg, oracle);
        case RequestIdentify => SendIdentify(msg, oracle);
        case RequestCardPair1 => ProcessCardPair1(msg, oracle);
        case RequestFinalizeCardPair => ProcessFinalizeCardPair(msg, oracle);
        case RequestReceivePhonon => ProcessReceivePhonons(msg, oracle);
      }
    }

    /** The cases of `process` for responses and notifications. */
    method Deliver(msg: Message)
      requires Valid() && CanDeliver(msg) && !IsRequest(msg.name)
      modifies this
      ensures Valid()
      ensures State() == AfterDelivery(old(State()), msg, lib)
    {
      match msg.name {
        case ResponseCertificate => ReceiveCertificate(msg);
        case ResponseIdentify => ProcessIdentify(msg);
        case MessageError =>
        case MessageIdentifiedWithServer => OnIdentifiedWithServer();
        case MessageConnectedToCard => OnConnectedToCard();
        case ResponseCardPair1 => OnCardPair1Response(msg.payload);
        case ResponseFinalizeCardPair => OnFinalizeCardPairResponse(msg.payload);
        case MessagePhononAck => OnPhononAck();
        case _ =>
      }
    }

    /** The identified-with-server notification: fill the slot and set the flag. */
    method OnIdentifiedWithServer()
      requires identifiedWithServerChan.None?
      modifies this`identifiedWithServerChan, this`identifiedWithServer
      ensures State() == old(State()).(identifiedWithServerChan := Some(true), identifiedWithServer := true)
    {
      identifiedWithServerChan := Some(true);
      identifiedWithServer := true;
    }

    /** The connected-to-card notification fills its slot. */
    method OnConnectedToCard()
      requires connectedToCardChan.None?
      modifies this`connectedToCardChan
      ensures State() == old(State()).(connectedToCardChan := Some(true))
    {
      connectedToCardChan := Some(true);
    }

    /** The peer's phase-1 pairing answer fills its slot, whatever the payload. */
    method OnCardPair1Response(payload: Bytes)
      requires cardPair1DataChan.None?
      modifies this`cardPair1DataChan
      ensures State() == old(State()).(cardPair1DataChan := Some(payload))
    {
      cardPair1DataChan := Some(payload);
    }

    /** The peer's finalize answer (empty, or an error text) fills its slot. */
    method OnFinalizeCardPairResponse(payload: Bytes)
      requires finalizeCardPairDataChan.None?
      modifies this`finalizeCardPairDataChan
      ensures State() == old(State()).(finalizeCardPairDataChan := Some(payload))
    {
      finalizeCardPairDataChan := Some(payload);
    }

    /** A phonon acknowledgement fills its slot. */
    method OnPhononAck()
      requires phononAckChan.None?
      modifies this`phononAckChan
      ensures State() == old(State()).(phononAckChan := Some(true))
    {
      phononAckChan := Some(true);
    }

    /** sendCertificate: reply with the serialised local certificate, whether or not the session reported an error. */
    method SendCertificate(msg: Message, oracle: SessionOracle)
      modifies this`outbox
      ensures outbox == old(outbox) + [Message(ResponseCertificate, lib.serializeCertificate(oracle.getCertificate.value))]
    {
      var answer := oracle.getCertificate;
      SendMessage(ResponseCertificate, lib.serializeCertificate(answer.value));
    }

    /** sendIdentify: have the session sign exactly the nonce received and reply with the encoded signature; send nothing on a session error. */
    method SendIdentify(msg: Message, oracle: SessionOracle)
      modifies this`outbox
      ensures var answer := oracle.identifyCard(msg.payload);
              outbox == old(outbox) + if answer.status.Ok? then [Message(ResponseIdentify, lib.encodeSignature(answer.value))] else []
    {
      var answer := oracle.identifyCard(msg.payload);
      if answer.status.Err? {
        return;
      }
      SendMessage(ResponseIdentify, lib.encodeSignature(answer.value));
    }

    /** processIdentify: set `verified` when the response's signature verifies over the nonce this side stored. */
    method ProcessIdentify(msg: Message)
      modifies this`verified
      ensures State() == old(State()).(verified := old(verified) || Verifies(lib, msg.payload, counterpartyNonce))
    {
      var parsed := lib.parseIdentifyCardResponse(msg.payload);
      if parsed.None? {
        return;
      }
      if !lib.verify(parsed.value.key, counterpartyNonce, parsed.value.sig) {
        return;
      } else {
        verified := true;
        return;
      }
    }

    /** processCardPair1: pass the peer's payload to the session and reply with its answer, even on a session error. */
    method ProcessCardPair1(msg: Message, oracle: SessionOracle)
      modifies this`outbox
      ensures outbox == old(outbox) + [Message(ResponseCardPair1, oracle.cardPair(msg.payload).value)]
    {
      var answer := oracle.cardPair(msg.payload);
      SendMessage(ResponseCardPair1, answer.value);
    }

    /**
     * processFinalizeCardPair: on a session error reply with its text and
     * change nothing else; on success reply with an empty payload, then mark
     * the pair finalized and bind this connection as the session's remote card.
     */
    method ProcessFinalizeCardPair(msg: Message, oracle: SessionOracle)
      modifies this`outbox, this`pairFinalized, session`remoteCard
      ensures match oracle.finalizeCardPair(msg.payload)
              case Err(text) =>
                && outbox == old(outbox) + [Message(ResponseFinalizeCardPair, text)]
                && pairFinalized == old(pairFinalized)
                && session.remoteCard == old(session.remoteCard)
              case Ok =>
                && outbox == old(outbox) + [Message(ResponseFinalizeCardPair, [])]
                && pairFinalized
                && session.remoteCard == this
    {
      var status := oracle.finalizeCardPair(msg.payload);
      if status.Err? {
        SendMessage(ResponseFinalizeCardPair, status.text);
        return;
      }
      SendMessage(ResponseFinalizeCardPair, []);
      pairFinalized := true;
      session.remoteCard := this;
    }

    /** processReceivePhonons: acknowledge with an empty payload exactly when the session accepts the transfer. */
    method ProcessReceivePhonons(msg: Message, oracle: SessionOracle)
      modifies this`outbox
      ensures outbox == old(outbox) + if oracle.receivePhonons(msg.payload).Ok? then [Message(MessagePhononAck, [])] else []
    {
      var status := oracle.receivePhonons(msg.payload);
      if status.Err? {
        return;
      }
      SendMessage(MessagePhononAck, []);
    }

    /** receiveCertificate: a certificate that parses fills both the slot and the cache; one that does not changes nothing. */
    method ReceiveCertificate(msg: Message)
      requires lib.parseRawCardCertificate(msg.payload).Some? ==> remoteCertificateChan.None?
      modifies this`remoteCertificateChan, this`remoteCertificate
      ensures State() == match lib.parseRawCardCertificate(msg.payload)
                         case None => old(State())
                         case Some(c) => old(State()).(remoteCertificateChan := Some(c), remoteCertificate := Some(c))
    {
      var parsed := lib.parseRawCardCertificate(msg.payload);
      if parsed.None? {
        return;
      }
      remoteCertificateChan := Some(parsed.value);
      remoteCertificate := Some(parsed.value);
    }

    /*
     * The requesters.
     */

    /**
     * Identify: store the fresh nonce, send it, and wait on
     * `remoteIdentityChan`. A response arriving in the window is processed
     * (and may set `verified`), but nothing ever fills that slot, so the
     * call always ends in `ErrTimeout`.
     */
    method Identify(nonce: Nonce, arrival: Option<Bytes>) returns (err: Option<Error>)
      requires Valid()
      modifies this
      ensures Valid()
      ensures err == Some(ErrTimeout)
      ensures verified == (old(verified) || (arrival.Some? && Verifies(lib, arrival.value, nonce)))
      ensures State() == old(State()).(counterpartyNonce := nonce,
                                       outbox := old(outbox) + [Message(RequestIdentify, nonce)],
                                       verified := verified)
    {
      counterpartyNonce := nonce;
      SendMessage(RequestIdentify, nonce);
      if arrival.Some? {
        ProcessIdentify(Message(ResponseIdentify, arrival.value));
      }
      var delivered := remoteIdentityChan;
      remoteIdentityChan := None;
      if delivered.Some? {
        err := None;
      } else {
        err := Some(ErrTimeout);
      }
    }

    /**
     * CardPair: send the initiator's pairing data and return the peer's
     * phase-1 answer, or `ErrTimeout` with an empty payload. A value already
     * in the slot is taken at once; it leaves the slot empty either way.
     */
    method CardPair(initPairingData: Bytes, arrival: Option<Bytes>) returns (cardPairData: Bytes, err: Option<Error>)
      requires Valid()
      requires cardPair1DataChan.Some? ==> arrival.None?
      modifies this
      ensures Valid()
      ensures var delivered := if old(cardPair1DataChan).Some? then old(cardPair1DataChan) else arrival;
              && (delivered.Some? ==> cardPairData == delivered.value && err == None)
              && (delivered.None? ==> cardPairData == [] && err == Some(ErrTimeout))
      ensures State() == old(State()).(outbox := old(outbox) + [Message(RequestCardPair1, initPairingData)],
                                       cardPair1DataChan := None)
    {
      SendMessage(RequestCardPair1, initPairingData);
      if arrival.Some? {
        OnCardPair1Response(arrival.value);
      }
      var delivered := cardPair1DataChan;
      cardPair1DataChan := None;
      if delivered.Some? {
        return delivered.value, None;
      } else {
        return [], Some(ErrTimeout);
      }
    }

    /**
     * FinalizeCardPair: always send the request. When this side already
     * finalized as responder, succeed at once and bind the session again.
     * Otherwise wait for the peer's answer: a non-empty payload is an error
     * with that text, an empty one returns success WITHOUT marking the pair
     * finalized or binding the session, no answer is `ErrTimeout`.
     */
    method FinalizeCardPair(cardPair2Data: Bytes, arrival: Option<Bytes>) returns (err: Option<Error>)
      requires Valid()
      requires !pairFinalized && finalizeCardPairDataChan.Some? ==> arrival.None?
      modifies this, session
      ensures Valid()
      ensures old(pairFinalized) ==>
                && err == None
                && session.remoteCard == this
                && State() == old(State()).(outbox := old(outbox) + [Message(RequestFinalizeCardPair, cardPair2Data)])
      ensures !old(pairFinalized) ==>
                && session.remoteCard == old(session.remoteCard)
                && State() == old(State()).(outbox := old(outbox) + [Message(RequestFinalizeCardPair, cardPair2Data)],
                                            finalizeCardPairDataChan := None)
      ensures !old(pairFinalized) ==>
                var delivered := if old(finalizeCardPairDataChan).Some? then old(finalizeCardPairDataChan) else arrival;
                && (delivered.None? ==> err == Some(ErrTimeout))
                && (delivered.Some? && delivered.value != [] ==> err == Some(PeerError(delivered.value)))
                && (delivered.Some? && delivered.value == [] ==> err == None)
    {
      SendMessage(RequestFinalizeCardPair, cardPair2Data);
      if !pairFinalized {
        if arrival.Some? {
          OnFinalizeCardPairResponse(arrival.value);
        }
        var delivered := finalizeCardPairDataChan;
        finalizeCardPairDataChan := None;
        if delivered.Some? {
          var errorbytes := delivered.value;
          if |errorbytes| > 0 {
            return Some(PeerError(errorbytes));
          } else {
            return None;
          }
        } else {
          return Some(ErrTimeout);
        }
      }
      pairFinalized := true;
      session.remoteCard := this;
      return None;
    }

    /**
     * GetCertificate: return the cached certificate without sending
     * anything; otherwise send one request and cache the certificate the
     * response delivers, or time out when none parses in the window.
     */
    method GetCertificate(arrival: Option<Bytes>) returns (certificate: Option<Certificate>, err: Option<Error>)
      requires Valid()
      modifies this
      ensures Valid()
      ensures old(remoteCertificate).Some? ==>
                certificate == old(remoteCertificate) && err == None && State() == old(State())
      ensures old(remoteCertificate).None? ==>
                var parsed := if arrival.Some? then lib.parseRawCardCertificate(arrival.value) else None;
                && (parsed.Some? ==> certificate == parsed && err == None)
                && (parsed.None? ==> certificate == None && err == Some(ErrTimeout))
                && State() == old(State()).(outbox := old(outbox) + [Message(RequestCertificate, [])],
                                            remoteCertificate := parsed)
    {
      if remoteCertificate.None? {
        SendMessage(RequestCertificate, []);
        if arrival.Some? {
          ReceiveCertificate(Message(ResponseCertificate, arrival.value));
        }
        var delivered := remoteCertificateChan;
        remoteCertificateChan := None;
        if delivered.Some? {
          remoteCertificate := delivered;
        } else {
          return None, Some(ErrTimeout);
        }
      }
      return remoteCertificate, None;
    }

    /**
     * ConnectToCard: unless already identified with the server, wait for
     * that notification first (no send on timeout); then ask the server for
     * the card and wait for the connected notification, closing the
     * connection on timeout.
     */
    method ConnectToCard(cardID: Bytes, identifiedArrival: bool, connectedArrival: bool) returns (err: Option<Error>)
      requires Valid()
      requires connectedToCardChan.Some? ==> !connectedArrival
      modifies this
      ensures Valid()
      ensures !old(identifiedWithServer) && !identifiedArrival ==>
                err == Some(ErrTimeout) && State() == old(State())
      ensures old(identifiedWithServer) || identifiedArrival ==>
                var connected := old(connectedToCardChan).Some? || connectedArrival;
                && err == (if connected then None else Some(ErrTimeout))
                && State() == old(State()).(identifiedWithServer := true,
                                            outbox := old(outbox) + [Message(RequestConnectCard2Card, cardID)],
                                            connectedToCardChan := None,
                                            closed := old(closed) || !connected)
    {
      if !identifiedWithServer {
        var identified := AwaitIdentifiedWithServer(identifiedArrival);
        if !identified {
          return Some(ErrTimeout);
        }
      }
      SendMessage(RequestConnectCard2Card, cardID);
      if connectedArrival {
        OnConnectedToCard();
      }
      var delivered := connectedToCardChan;
      connectedToCardChan := None;
      if delivered.None? {
        closed := true;
        return Some(ErrTimeout);
      }
      return None;
    }

    /**
     * The first wait of `ConnectToCard`, on `identifiedWithServerChan`,
     * while the flag is still unset (so the slot is empty): the notification
     * fills the slot and sets the flag, and the wait empties the slot again.
     */
    method AwaitIdentifiedWithServer(arrival: bool) returns (identified: bool)
      requires Valid() && !identifiedWithServer
      modifies this`identifiedWithServerChan, this`identifiedWithServer
      ensures Valid()
      ensures identified == arrival
      ensures State() == old(State()).(identifiedWithServer := arrival)
    {
      if arrival {
        OnIdentifiedWithServer();
      }
      var delivered := identifiedWithServerChan;
      identifiedWithServerChan := None;
      identified := delivered.Some?;
    }

    /** ReceivePhonons: send the transfer and succeed exactly when an acknowledgement is delivered. */
    method ReceivePhonons(phononTransfer: Bytes, ackArrival: bool) returns (err: Option<Error>)
      requires Valid()
      requires phononAckChan.Some? ==> !ackArrival
      modifies this
      ensures Valid()
      ensures err == if old(phononAckChan).Some? || ackArrival then None else Some(ErrTimeout)
      ensures State() == old(State()).(outbox := old(outbox) + [Message(RequestReceivePhonon, phononTransfer)],
                                       phononAckChan := None)
    {
      SendMessage(RequestReceivePhonon, phononTransfer);
      if ackArrival {
        OnPhononAck();
      }
      var delivered := phononAckChan;
      phononAckChan := None;
      if delivered.None? {
        return Some(ErrTimeout);
      }
      return None;
    }
  }
}
