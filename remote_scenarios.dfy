/**
 * Two connections relayed to each other, one message at a time: what
 * `RemoteConnection`'s contracts let a caller conclude about whole
 * exchanges. Each scenario hands the message one side sent to the other
 * side's dispatch loop and feeds the reply back as the first side's arrival.
 */
module RemoteScenarios {
  import opened Wrappers
  import opened Remote

  /** The payload of the last message a connection sent, if it sent one named `name`. */
  function LastSent(outbox: seq<Message>, name: MessageName): Option<Bytes>
  {
    if outbox != [] && outbox[|outbox| - 1].name == name then Some(outbox[|outbox| - 1].payload) else None
  }

  /**
   * Pairing, phase 1: A sends its pairing data, B passes it to its session
   * and answers; A's CardPair returns exactly what B's session produced.
   */
  method PairPhaseOne(initData: Bytes, lib: Library, peer: SessionOracle)
    returns (phase1: Bytes, pairErr: Option<Error>)
    ensures pairErr == None && phase1 == peer.cardPair(initData).value
  {
    var sessionA := new Session();
    var a := new RemoteConnection.Connect(sessionA, lib);
    var sessionB := new Session();
    var b := new RemoteConnection.Connect(sessionB, lib);
    b.Process(Message(RequestCardPair1, initData), peer);
    phase1, pairErr := a.CardPair(initData, LastSent(b.outbox, ResponseCardPair1));
  }

  /**
   * Pairing, finalization: A finalizes and B's session accepts. A's
   * FinalizeCardPair succeeds and B is finalized and bound to its session,
   * but A, which only waited for the empty answer, is neither finalized nor
   * bound to its own session.
   */
  method Pairing(finalData: Bytes, lib: Library, peer: SessionOracle)
    returns (finalizeErr: Option<Error>, responderFinalized: bool, responderBound: bool,
             initiatorFinalized: bool, initiatorBound: bool)
    requires peer.finalizeCardPair(finalData) == Ok
    ensures finalizeErr == None
    ensures responderFinalized && responderBound
    ensures !initiatorFinalized && !initiatorBound
  {
    var sessionA := new Session();
    var a := new RemoteConnection.Connect(sessionA, lib);
    var sessionB := new Session();
    var b := new RemoteConnection.Connect(sessionB, lib);
    b.Process(Message(RequestFinalizeCardPair, finalData), peer);
    responderFinalized, responderBound := b.pairFinalized, sessionB.remoteCard == b;
    finalizeErr := a.FinalizeCardPair(finalData, LastSent(b.outbox, ResponseFinalizeCardPair));
    initiatorFinalized, initiatorBound := a.pairFinalized, sessionA.remoteCard == a;
  }

  /**
   * Finalizing against a peer whose session fails: A's call returns the
   * peer's error text, unless that text is empty, in which case A reports
   * success although B did not finalize.
   */
  method RejectedFinalize(finalData: Bytes, lib: Library, peer: SessionOracle)
    returns (finalizeErr: Option<Error>, responderFinalized: bool)
    requires peer.finalizeCardPair(finalData).Err?
    ensures !responderFinalized
    ensures var text := peer.finalizeCardPair(finalData).text;
            finalizeErr == if text == [] then None else Some(PeerError(text))
  {
    var sessionA := new Session();
    var a := new RemoteConnection.Connect(sessionA, lib);
    var sessionB := new Session();
    var b := new RemoteConnection.Connect(sessionB, lib);
    b.Process(Message(RequestFinalizeCardPair, finalData), peer);
    finalizeErr := a.FinalizeCardPair(finalData, LastSent(b.outbox, ResponseFinalizeCardPair));
    responderFinalized := b.pairFinalized;
  }

  /**
   * Phonon transfer: A's ReceivePhonons succeeds exactly when B's session
   * accepts the transfer; otherwise B stays silent and A times out.
   */
  method Transfer(transfer: Bytes, lib: Library, peer: SessionOracle) returns (err: Option<Error>)
    ensures err == None <==> peer.receivePhonons(transfer).Ok?
    ensures err != None ==> err == Some(ErrTimeout)
  {
    var sessionA := new Session();
    var a := new RemoteConnection.Connect(sessionA, lib);
    var sessionB := new Session();
    var b := new RemoteConnection.Connect(sessionB, lib);
    b.Process(Message(RequestReceivePhonon, transfer), peer);
    var acked := LastSent(b.outbox, MessagePhononAck).Some?;
    assert acked <==> peer.receivePhonons(transfer).Ok?;
    err := a.ReceivePhonons(transfer, acked);
  }

  /**
   * Identification: even when B's answer verifies over the nonce A sent, so
   * that A marks the peer verified, A's Identify returns `ErrTimeout`.
   * The `verified` half holds only under the `Library` abstraction: the
   * responder encodes the signature alone, while the parser expects a key and
   * a signature, so the second precondition stands for a library in which
   * that encoding parses and verifies. The `ErrTimeout` half holds for every
   * input (`Remote.RemoteConnection.Identify`).
   */
  method Identification(nonce: Nonce, lib: Library, peer: SessionOracle)
    returns (err: Option<Error>, verified: bool)
    requires peer.identifyCard(nonce).status == Ok
    requires Verifies(lib, lib.encodeSignature(peer.identifyCard(nonce).value), nonce)
    ensures verified
    ensures err == Some(ErrTimeout)
  {
    var sessionA := new Session();
    var a := new RemoteConnection.Connect(sessionA, lib);
    var sessionB := new Session();
    var b := new RemoteConnection.Connect(sessionB, lib);
    b.Process(Message(RequestIdentify, nonce), peer);
    err := a.Identify(nonce, LastSent(b.outbox, ResponseIdentify));
    verified := a.verified;
  }

  /**
   * An envelope with an unknown name (`unknown` being outside the constant
   * set) is dropped and the loop goes on: a phase-1 answer dispatched after
   * it is still delivered.
   */
  method UnknownThenAnswer(unknown: string, junk: Bytes, answer: Bytes, lib: Library, oracle: SessionOracle)
    returns (sentBefore: nat, cardPairData: Bytes, err: Option<Error>)
    ensures sentBefore == 0
    ensures cardPairData == answer && err == None
  {
    var sessionA := new Session();
    var a := new RemoteConnection.Connect(sessionA, lib);
    a.Process(Message(Unrecognized(unknown), junk), oracle);
    sentBefore := |a.outbox|;
    a.Process(Message(ResponseCardPair1, answer), oracle);
    cardPairData, err := a.CardPair([], None);
  }

  /**
   * Certificate caching: the first GetCertificate sends one request and
   * caches the peer's certificate; the second returns the same certificate
   * and sends nothing.
   */
  method CertificateTwice(lib: Library, peer: SessionOracle)
    returns (first: Option<Certificate>, second: Option<Certificate>, requestsSent: nat)
    requires lib.parseRawCardCertificate(lib.serializeCertificate(peer.getCertificate.value)).Some?
    ensures first.Some? && second == first
    ensures requestsSent == 1
  {
    var sessionA := new Session();
    var a := new RemoteConnection.Connect(sessionA, lib);
    var sessionB := new Session();
    var b := new RemoteConnection.Connect(sessionB, lib);
    b.Process(Message(RequestCertificate, []), peer);
    var err;
    first, err := a.GetCertificate(LastSent(b.outbox, ResponseCertificate));
    second, err := a.GetCertificate(None);
    requestsSent := |a.outbox|;
  }

  /**
   * A certificate answer arriving after GetCertificate timed out fills the
   * slot and the cache; the next GetCertificate answers from the cache and
   * never drains the slot, so a further certificate answer would block the
   * dispatch loop.
   */
  method LateCertificate(raw: Bytes, lib: Library, oracle: SessionOracle)
    returns (firstErr: Option<Error>, cached: Option<Certificate>, loopCanTakeAnother: bool)
    requires lib.parseRawCardCertificate(raw).Some?
    ensures firstErr == Some(ErrTimeout)
    ensures cached == lib.parseRawCardCertificate(raw)
    ensures !loopCanTakeAnother
  {
    var sessionA := new Session();
    var a := new RemoteConnection.Connect(sessionA, lib);
    var none, err;
    none, firstErr := a.GetCertificate(None);
    a.Process(Message(ResponseCertificate, raw), oracle);
    cached, err := a.GetCertificate(None);
    loopCanTakeAnother := a.CanDeliver(Message(ResponseCertificate, raw));
  }

  /**
   * ConnectToCard after the server's notification was dispatched skips the
   * first wait; when the card never answers, the call times out and closes
   * the connection.
   */
  method ConnectWithoutPeer(cardID: Bytes, lib: Library, oracle: SessionOracle)
    returns (err: Option<Error>, requestSent: bool, closed: bool)
    ensures err == Some(ErrTimeout) && requestSent && closed
  {
    var sessionA := new Session();
    var a := new RemoteConnection.Connect(sessionA, lib);
    a.Process(Message(MessageIdentifiedWithServer, []), oracle);
    err := a.ConnectToCard(cardID, false, false);
    requestSent := LastSent(a.outbox, RequestConnectCard2Card) == Some(cardID);
    closed := a.closed;
  }
}
