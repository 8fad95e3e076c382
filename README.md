# phonon-client: remote connection and BTC balance check, in Dafny

This project models two parts of the phonon client.

1. **The remote counterparty connection** (`remote/client.go`). A `RemoteConnection`:
   - answers the peer's requests from its dispatch loop (`process`) by asking the local card session and replying;
   - fills capacity-1 delivery slots with the peer's responses and the relay server's notifications;
   - makes its own requests (`Identify`, `CardPair`, `FinalizeCardPair`, `GetCertificate`, `ConnectToCard`, `ReceivePhonons`). Each sends one message and then takes a slot or times out.
2. **The BTC phonon validator** (`validator/btc.go`).
   - `GetTransactions` downloads each address's history page by page from the bcoin indexer.
   - `aggregateTransactions` folds that history into a signed int64 running total.
   - `getBalance` glues the two together.
   - `Validate` accepts the phonon when the total is non-zero.

Modules:
- `Wrappers`: `Option` and `Result`.
- `Remote`: the `RemoteConnection` class, with its fields and slots. The transition functions `AfterDelivery` and `AfterRequest` are what `process` does, as a table over a `Snapshot` of the fields.
- `RemoteScenarios`: two connections relayed to each other. These are the exchanges the contracts let a caller conclude about.
- `Transactions`: the indexer's transaction records and int64 wrap-around.
- `BcoinClient`: the paginated download, as a loop proved against the state machine `Serve`.
- `Validator`: the running total, proved against the recursive `Balance`. It also holds `getBalance`, `Validate`, and the properties of the total.

How the model is built:
- **Outbound stream.** The outbound gob stream is the field `outbox`: every message handed to the encoder, in order.
- **Channels.** A Go channel of capacity 1 is an `Option` slot. A send into a full slot would block the dispatch loop, so the dispatch step requires that it does not happen (`CanDeliver`).
- **Waits.** A requester's 10-second wait is given by what arrives in its window (the `arrival` parameters).
  - What arrives is handled by the same case handler `process` calls for it.
  - The requester then takes the slot, or times out when the slot is still empty.
  - A value already in the slot when the requester starts is taken at once.
- **Session.** Card session calls are a `SessionOracle`: one answer per argument.
- **Crypto and parsing.** Signature checks, parsers and encoders are the functions of a `Library`.
- **Pages.** The indexer's pages are a sequence of answers, one per request, in request order.

## Model

| member | source | states |
|---|---|---|
| Remote.RemoteConnection.Connect | remote/client.go:57-69 | A new connection has every slot empty, every flag unset, nothing cached and nothing sent, and satisfies the connection invariant `Valid` (the identity slot is empty; a full server slot implies its flag; a full certificate slot agrees with the cache). |
| Remote.RemoteConnection.SendMessage | remote/client.go:325-334 | Exactly the message `{name, payload}` is appended to the outbound stream; nothing else changes. |
| Remote.RemoteConnection.Process | remote/client.go:101-132 | One dispatch step. Its effects: requests go to their responders (`AfterRequest`); responses and notifications fill their slot or flag (`AfterDelivery`); the session is bound exactly on an accepted finalize request. An unrecognised name (no default branch) leaves every field, slot and the stream unchanged. The identity slot is never written, and the invariant is preserved. |
| Remote.RemoteConnection.Respond | remote/client.go:102-130 | The five request cases of `process` have exactly the `AfterRequest` effect on the connection. They bind the session exactly when `BindsSession` holds. |
| Remote.RemoteConnection.Deliver | remote/client.go:105-128 | The response, notification and error cases of `process` have exactly the `AfterDelivery` effect. They preserve the connection invariant. |
| Remote.RemoteConnection.OnIdentifiedWithServer | remote/client.go:113-115 | The identified-with-server notification fills its slot and sets the flag; nothing else changes. |
| Remote.RemoteConnection.OnConnectedToCard | remote/client.go:116-117 | The connected-to-card notification fills its slot; nothing else changes. |
| Remote.RemoteConnection.OnCardPair1Response | remote/client.go:121-122 | A phase-1 answer fills its slot with the payload; nothing else changes. |
| Remote.RemoteConnection.OnFinalizeCardPairResponse | remote/client.go:125-126 | A finalize answer fills its slot with the payload; nothing else changes. |
| Remote.RemoteConnection.OnPhononAck | remote/client.go:127-128 | A phonon acknowledgement fills its slot; nothing else changes. |
| Remote.RemoteConnection.SendCertificate | remote/client.go:138-144 | The serialised session certificate is sent even when the session reports an error. |
| Remote.RemoteConnection.SendIdentify | remote/client.go:146-157 | The session signs exactly the received nonce. The encoded signature is sent iff the session succeeds; otherwise nothing is sent. |
| Remote.RemoteConnection.ProcessIdentify | remote/client.go:159-172 | `verified` becomes true iff the response parses and its signature verifies over the nonce this side stored. A parse or verify failure leaves everything unchanged. |
| Remote.RemoteConnection.ProcessCardPair1 | remote/client.go:174-181 | The session's phase-1 answer is sent, even on a session error. |
| Remote.RemoteConnection.ProcessFinalizeCardPair | remote/client.go:183-194 | On a session error: one `ResponseFinalizeCardPair` carrying the error text is sent, and `pairFinalized` and the session binding are unchanged. On success: an empty payload is sent, `pairFinalized` is set, and the session is bound to this connection. |
| Remote.RemoteConnection.ProcessReceivePhonons | remote/client.go:196-203 | One empty `MessagePhononAck` is sent iff the session accepts the transfer. |
| Remote.RemoteConnection.ReceiveCertificate | remote/client.go:206-214 | A certificate that parses fills both the slot and the cache; one that does not parse changes nothing. |
| Remote.RemoteConnection.Identify | remote/client.go:219-231 | The fresh nonce is stored before it is sent, and exactly one `RequestIdentify` carrying it is sent. `verified` becomes true iff an arriving response verifies over that nonce. The call always returns `ErrTimeout`. |
| Remote.RemoteConnection.CardPair | remote/client.go:233-241 | Exactly one `RequestCardPair1` is sent. A delivered answer is returned with no error; otherwise an empty payload is returned with `ErrTimeout`. The slot is left empty. |
| Remote.RemoteConnection.FinalizeCardPair | remote/client.go:248-266 | Exactly one `RequestFinalizeCardPair` is always sent. If already finalized, the call succeeds without reading the slot and re-binds the session. Otherwise: a non-empty answer is an error with that text; an empty answer returns success early without finalizing or binding; no answer is `ErrTimeout`. |
| Remote.RemoteConnection.GetCertificate | remote/client.go:268-280 | With a cached certificate: returns it, sends nothing, changes nothing. Otherwise: sends exactly one `RequestCertificate`, and returns and caches the delivered certificate, or times out with nothing cached. |
| Remote.RemoteConnection.ConnectToCard | remote/client.go:282-301 | With the flag unset and no notification, the call returns `ErrTimeout` and sends nothing. Otherwise it sets the flag (skipping the wait if already set), sends one `RequestConnectCard2Card` with the card ID, and succeeds iff the card answers; on timeout it closes the connection. |
| Remote.RemoteConnection.AwaitIdentifiedWithServer | remote/client.go:283-290 | The server wait of `ConnectToCard` succeeds iff the notification arrives. It leaves the slot empty and the flag set exactly then. |
| Remote.RemoteConnection.ReceivePhonons | remote/client.go:303-312 | Exactly one `RequestReceivePhonon` is sent. The call returns nil iff an acknowledgement is delivered, and `ErrTimeout` otherwise. |
| RemoteScenarios.PairPhaseOne | remote/client.go:233-241 | A's `CardPair` returns exactly the phase-1 answer B's session produced. |
| RemoteScenarios.Pairing | remote/client.go:248-266 | Against an accepting peer, A's finalize succeeds and B is finalized and bound, while A is neither finalized nor bound. |
| RemoteScenarios.RejectedFinalize | remote/client.go:248-262 | Against a failing peer, A's finalize returns the peer's error text, or success when that text is empty. B is not finalized. |
| RemoteScenarios.Transfer | remote/client.go:303-312 | A's `ReceivePhonons` succeeds iff B's session accepts the transfer; otherwise it times out. |
| RemoteScenarios.Identification | remote/client.go:219-231 | Even when B's signature verifies and A marks B verified, A's `Identify` returns `ErrTimeout`. |
| RemoteScenarios.UnknownThenAnswer | remote/client.go:101-132 | An unknown envelope is dropped without a reply, and a later phase-1 answer is still delivered to `CardPair`. |
| RemoteScenarios.CertificateTwice | remote/client.go:268-280 | Two `GetCertificate` calls send one request and return the same certificate. |
| RemoteScenarios.LateCertificate | remote/client.go:206-214 | A certificate arriving after a timeout is cached and returned by the next call, but its slot is never drained, so a further certificate answer would block the dispatch loop. |
| RemoteScenarios.ConnectWithoutPeer | remote/client.go:282-301 | After the server notification, `ConnectToCard` skips the server wait and sends the request. With no card answer it times out and closes the connection. |
| Transactions.Wrap | validator/btc.go:158-174 | The int64 result agrees with its argument modulo 2^64, and equals it when it is in the int64 range. |
| Transactions.WrapAdd | validator/btc.go:163-170 | Adding to a wrapped running total wraps like adding to the exact total: overflow in one step does not change later results modulo 2^64. |
| BcoinClient.GetTransactions | validator/btc.go:178-201 | The loop makes exactly the requests of the download state machine `Serve`, in order. It returns the accumulated list when the download completes and the first page error when one occurs. |
| BcoinClient.ServeCollects | validator/btc.go:180-199 | A completed download consumed one page per request, none of them an error. It returns the pages concatenated in request order. |
| BcoinClient.ServeStopsAtError | validator/btc.go:183-195 | A failed download stops at its first error answer, every earlier answer being a page, and returns that error. |
| BcoinClient.ServeConsumed | validator/btc.go:183-197 | Every request before the last was answered with a page. |
| BcoinClient.ServeCursor | validator/btc.go:189-191 | A request continues the previous address with an `after` cursor iff the previous page held exactly 100 transactions. |
| BcoinClient.ServeCursorAfter | validator/btc.go:189-191 | A continuing request names the same address as the one before it. Its cursor is the hash of the last transaction accumulated so far. |
| BcoinClient.FullPagesNeverFinish | validator/btc.go:189-198 | While every answer is a full page of 100 transactions, the download never completes and never fails: it only runs out of answers. The pagination loop has no bound of its own. |
| BcoinClient.ServeVisitsInOrder | validator/btc.go:180-181 | A completed download starts every address once, in the given order. |
| Validator.AggregateTransactions | validator/btc.go:157-176 | The running total is the int64 wrap of `Balance`: each input coin is subtracted and each output added once per matching entry of `addresses`. An empty list gives 0, and there is never an error. |
| Validator.GetBalance | validator/btc.go:145-155 | A completed download reports the wrapped total of its transactions. A failed download reports 0. There is never an error, because the download's error is overwritten. |
| Validator.Validate | validator/btc.go:50-71 | A derivation error gives `(false, err)`. Otherwise there is no error, and the phonon is accepted iff the reported balance is non-zero, negative balances included. |
| Validator.PerEntryCounts | validator/btc.go:161-171 | An address listed k times in `addresses` contributes k times its value. |
| Validator.UnlistedAddress | validator/btc.go:161-171 | An input or output whose address is not listed contributes 0. |
| Validator.UnrelatedInputs | validator/btc.go:160-166 | Inputs touching no listed address subtract nothing. |
| Validator.UnrelatedOutputs | validator/btc.go:167-173 | Outputs paying no listed address add nothing. |
| Validator.UnrelatedTransaction | validator/btc.go:159-174 | A transaction touching no listed address leaves the total unchanged. |
| Validator.BalanceAppend | validator/btc.go:159-174 | The total is additive over concatenated transaction lists. |
| Validator.PerEntryDistinct | validator/btc.go:161-171 | With distinct addresses, a value counts once if its address is listed, else 0. |
| Validator.ReceivedDistinct | validator/btc.go:167-173 | With distinct addresses, the output loop adds the value of the outputs paying a listed address. |
| Validator.SpentDistinct | validator/btc.go:160-166 | With distinct addresses, the input loop subtracts the value of the coins held by a listed address. |
| Validator.BalanceOfDistinctAddresses | validator/btc.go:159-174 | With distinct addresses, the total equals the value received by those addresses minus the value they spent (an independent reference definition). |

## Left out

- The HTTP/2 and TLS setup of `Connect`, the `h2conn` stream and gob encoding/decoding are foreign libraries and transport I/O. Sending is appending to `outbox`. `Connect`'s dial error is not modelled.
- `HandleIncoming`'s decode goroutine: a decode failure ends the loop, and the model has no decoding. Its `for range` loop is one call of `Process` per envelope.
- Goroutines, the 10-second timers and the data races on the flags are not modelled. Each wait is a given arrival, dispatched before the requester selects. Overlapping requesters of the same kind are not modelled.
- `ecdsa.Verify`, `card.ParseIdentifyCardResponse`, `cert.ParseRawCardCertificate`, `Serialize` and the gob encoding of the signature are functions of the `Library` record. The model does not see that the responder encodes only the signature while the parser expects a key and a signature.
- `card.Session` is an oracle of answers; the only session state tracked is `RemoteCard`.
- `GenerateInvoice`, `ReceiveInvoice` and `CardPair2` are stubs with no logic. Logging calls are left out.
- `ConnectToCard` takes the card ID as bytes (the payload `[]byte(cardID)`), not as a Go string.
- `pubKeyToAddresses` (btcec/btcutil serialisation, Hash160, address encoding) is library code. `Validate` takes its result as an input.
- `getTransactionList` (HTTP request, body read, JSON decoding) is I/O. Its results are the sequence of answers, and a run that asks for more answers than are given is excluded by precondition.
- BcoinClient.GetTransactions: the precondition that the answers do not run out also excludes every run the source never finishes. When the indexer keeps answering with full pages of 100 transactions, the loop at validator/btc.go:189 never ends; `FullPagesNeverFinish` proves that every such run is excluded. The same precondition is carried by `Validator.GetBalance` and `Validator.Validate`.

## Behaviour of the code worth knowing

- `sendCertificate` answers a session error by logging it and still sending the serialised certificate, with no `MessageError` (remote/client.go:138-144; `Remote.RemoteConnection.SendCertificate`).
- An initiator whose finalize answer is empty returns before setting `pairFinalized` or binding the session (remote/client.go:252-258; `RemoteScenarios.Pairing`).
- No case of `process` fills `remoteIdentityChan`, so `Identify` always times out (remote/client.go:101-132, 224-229; `RemoteScenarios.Identification`).
- The doc comment above `Validate` speaks of a balance "greater than or equal to" the phonon's value. The code only compares the total with 0.
- Because an empty finalize answer means success, a peer session whose error text is empty makes the initiator report success (`RemoteScenarios.RejectedFinalize`).
- The pagination loop `for len(listPart) == transactionRequestLimit` (validator/btc.go:189) has no bound. An indexer that answers every request with a full page of 100 transactions, for example one that ignores `after`, keeps `GetTransactions`, and so `Validate`, looping forever while the list grows (`BcoinClient.FullPagesNeverFinish`).
