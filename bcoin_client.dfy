/**
 * The paginated history download of validator/btc.go
 * (`bcoinClient.GetTransactions`). The HTTP request, the body read and the
 * JSON decoding of `getTransactionList` are not modelled: the indexer's
 * answers are given as a sequence, one answer per request, in request order.
 */
module BcoinClient {
  import opened Wrappers
  import opened Transactions

  /** The page size asked for, and the page length that makes the loop ask for more. */
  const TransactionRequestLimit: nat := 100

  /**
   * One request `<url>/tx/address/<address>?limit=100`, with
   * `&after=<hash>` when it continues after the transaction `hash`.
   */
  datatype PageRequest = PageRequest(address: string, after: Option<string>)

  /** What `getTransactionList` returns for one request: a page, or an error from the HTTP round trip or the JSON decoding. */
  datatype Page = Page(txs: seq<Transaction>) | PageError(err: Error)

  /** Where a download ends: the accumulated list, the first error, or out of answers. */
  datatype Outcome = Done(txs: seq<Transaction>) | Failed(err: Error) | Starved

  /** The outcome of a download together with the requests it made. */
  datatype Run = Run(outcome: Outcome, requests: seq<PageRequest>)

  /** The request the download makes next: the next page of `paging`, or the first page of the next address. */
  function NextRequest(addresses: seq<string>, paging: Option<string>, ret: seq<Transaction>): PageRequest
    requires paging.Some? ==> ret != []
    requires paging.None? ==> addresses != []
  {
    if paging.Some? then PageRequest(paging.value, Some(ret[|ret| - 1].hash))
    else PageRequest(addresses[0], None)
  }

  /** The addresses not yet started once the next request is made. */
  function RestAfter(addresses: seq<string>, paging: Option<string>): seq<string>
    requires paging.None? ==> addresses != []
  {
    if paging.Some? then addresses else addresses[1..]
  }

  /** Whether an answer of `txs` to a request for `address` makes the download ask for more of it. */
  function PagingAfter(address: string, txs: seq<Transaction>): Option<string>
  {
    if |txs| == TransactionRequestLimit then Some(address) else None
  }

  /**
   * The download as a state machine. `addresses` are the addresses not yet
   * started; `paging` is the address whose previous page was full, if any;
   * `answers` are the answers still to come; `ret` is the list so far.
   */
  function Serve(addresses: seq<string>, paging: Option<string>, answers: seq<Page>, ret: seq<Transaction>): Run
    requires paging.Some? ==> ret != []
    decreases |answers|
  {
    if paging.None? && addresses == [] then Run(Done(ret), [])
    else
      var request := NextRequest(addresses, paging, ret);
      if answers == [] then Run(Starved, [request])
      else match answers[0]
        case PageError(e) => Run(Failed(e), [request])
        case Page(txs) =>
          var next := Serve(RestAfter(addresses, paging), PagingAfter(request.address, txs), answers[1..], ret + txs);
          Run(next.outcome, [request] + next.requests)
  }

  /** One step of `Serve` after a page answer. */
  lemma ServeStep(addresses: seq<string>, paging: Option<string>, answers: seq<Page>, ret: seq<Transaction>)
    requires paging.Some? ==> ret != []
    requires (paging.Some? || addresses != []) && answers != [] && answers[0].Page?
    ensures var request := NextRequest(addresses, paging, ret);
            var next := Serve(RestAfter(addresses, paging), PagingAfter(request.address, answers[0].txs), answers[1..], ret + answers[0].txs);
            Serve(addresses, paging, answers, ret) == Run(next.outcome, [request] + next.requests)
  {
  }

  /**
   * `run`, the rest of a download that has already made `requests`, ends
   * the way `whole` does.
   */
  ghost predicate Resumes(whole: Run, requests: seq<PageRequest>, run: Run)
  {
    run.outcome == whole.outcome && requests + run.requests == whole.requests
  }

  /**
   * One request of a download in progress: the answer it gets is there, and
   * either ends the download with its error or leaves the rest to resume from.
   */
  lemma ResumeStep(whole: Run, requests: seq<PageRequest>, addresses: seq<string>, paging: Option<string>,
                   answers: seq<Page>, n: nat, ret: seq<Transaction>)
    requires paging.Some? ==> ret != []
    requires paging.Some? || addresses != []
    requires n <= |answers| && !whole.outcome.Starved?
    requires Resumes(whole, requests, Serve(addresses, paging, answers[n..], ret))
    ensures n < |answers|
    ensures var request := NextRequest(addresses, paging, ret);
            answers[n].PageError? ==> whole == Run(Failed(answers[n].err), requests + [request])
    ensures var request := NextRequest(addresses, paging, ret);
            answers[n].Page? ==>
              Resumes(whole, requests + [request],
                      Serve(RestAfter(addresses, paging), PagingAfter(request.address, answers[n].txs), answers[n + 1..], ret + answers[n].txs))
  {
    assert answers[n..] != [];
    assert answers[n..][1..] == answers[n + 1..];
    if answers[n].Page? {
      ServeStep(addresses, paging, answers[n..], ret);
    }
  }

  /** The download of `addresses` from scratch. */
  function Download(addresses: seq<string>, answers: seq<Page>): Run
  {
    Serve(addresses, None, answers, [])
  }

  /**
   * GetTransactions: for each address in order, fetch the first page, then
   * keep fetching after the last accumulated hash while the last page was
   * full; every page is appended to the result, and the first error is
   * returned instead of a list. `answers` must hold an answer for every
   * request the download makes.
   */
  method GetTransactions(addresses: seq<string>, answers: seq<Page>)
    returns (result: Result<seq<Transaction>, Error>, requests: seq<PageRequest>)
    requires !Download(addresses, answers).outcome.Starved?
    ensures Download(addresses, answers).outcome.Done? ==>
              result == Success(Download(addresses, answers).outcome.txs)
    ensures Download(addresses, answers).outcome.Failed? ==>
              result == Failure(Download(addresses, answers).outcome.err)
    ensures requests == Download(addresses, answers).requests
  {
    ghost var whole := Download(addresses, answers);
    var ret: seq<Transaction> := [];
    var n := 0;  // answers consumed
    requests := [];
    for a := 0 to |addresses|
      invariant n <= |answers|
      invariant Resumes(whole, requests, Serve(addresses[a..], None, answers[n..], ret))
    {
      var address := addresses[a];
      var request := PageRequest(address, None);
      ResumeStep(whole, requests, addresses[a..], None, answers, n, ret);
      assert addresses[a..][1..] == addresses[a + 1..];
      requests := requests + [request];
      var listPart := answers[n];
      n := n + 1;
      if listPart.PageError? {
        return Failure(listPart.err), requests;
      }
      ret := ret + listPart.txs;
      while |listPart.txs| == TransactionRequestLimit
        invariant n <= |answers|
        invariant listPart.Page? && (|listPart.txs| == TransactionRequestLimit ==> ret != [])
        invariant Resumes(whole, requests, Serve(addresses[a + 1..], PagingAfter(address, listPart.txs), answers[n..], ret))
        decreases |answers| - n
      {
        request := PageRequest(address, Some(ret[|ret| - 1].hash));
        ResumeStep(whole, requests, addresses[a + 1..], Some(address), answers, n, ret);
        requests := requests + [request];
        listPart := answers[n];
        n := n + 1;
        if listPart.PageError? {
          return Failure(listPart.err), requests;
        }
        ret := ret + listPart.txs;
      }
    }
    return Success(ret), requests;
  }

  /*
   * What a download does, stated without its control flow.
   */

  /** The transactions of a run of successful answers, in order. */
  function Flatten(pages: seq<Page>): seq<Transaction>
  {
    if pages == [] then []
    else (if pages[0].Page? then pages[0].txs else []) + Flatten(pages[1..])
  }

  predicate AllPages(pages: seq<Page>)
  {
    forall i :: 0 <= i < |pages| ==> pages[i].Page?
  }

  /** The addresses whose first page is requested, in request order. */
  function FirstPageAddresses(requests: seq<PageRequest>): seq<string>
  {
    if requests == [] then []
    else (if requests[0].after.None? then [requests[0].address] else []) + FirstPageAddresses(requests[1..])
  }

  lemma FlattenCons(answers: seq<Page>, k: nat)
    requires 1 <= k <= |answers| && answers[0].Page?
    ensures Flatten(answers[..k]) == answers[0].txs + Flatten(answers[1..][..k - 1])
  {
    assert answers[..k][1..] == answers[1..][..k - 1];
  }

  /**
   * A download that completes made one request per answer it consumed, every
   * one of them a page, and returns the pages concatenated in request order.
   */
  lemma {:induction false} ServeCollects(addresses: seq<string>, paging: Option<string>, answers: seq<Page>, ret: seq<Transaction>)
    requires paging.Some? ==> ret != []
    requires Serve(addresses, paging, answers, ret).outcome.Done?
    ensures var run := Serve(addresses, paging, answers, ret);
            && |run.requests| <= |answers|
            && AllPages(answers[..|run.requests|])
            && run.outcome.txs == ret + Flatten(answers[..|run.requests|])
    decreases |answers|
  {
    if paging.Some? || addresses != [] {
      var txs := answers[0].txs;
      var request := NextRequest(addresses, paging, ret);
      var paging' := PagingAfter(request.address, txs);
      var rest := RestAfter(addresses, paging);
      ServeStep(addresses, paging, answers, ret);
      var next := Serve(rest, paging', answers[1..], ret + txs);
      ServeCollects(rest, paging', answers[1..], ret + txs);
      var k := |next.requests| + 1;
      FlattenCons(answers, k);
      assert answers[..k][1..] == answers[1..][..k - 1];
    }
  }

  /** A download that fails stops at the first error answer, all earlier answers being pages, and reports that error. */
  lemma {:induction false} ServeStopsAtError(addresses: seq<string>, paging: Option<string>, answers: seq<Page>, ret: seq<Transaction>)
    requires paging.Some? ==> ret != []
    requires Serve(addresses, paging, answers, ret).outcome.Failed?
    ensures var run := Serve(addresses, paging, answers, ret);
            && 1 <= |run.requests| <= |answers|
            && AllPages(answers[..|run.requests| - 1])
            && answers[|run.requests| - 1] == PageError(run.outcome.err)
    decreases |answers|
  {
    if answers[0].Page? {
      var txs := answers[0].txs;
      var request := NextRequest(addresses, paging, ret);
      var paging' := PagingAfter(request.address, txs);
      var rest := RestAfter(addresses, paging);
      ServeStep(addresses, paging, answers, ret);
      var next := Serve(rest, paging', answers[1..], ret + txs);
      ServeStopsAtError(rest, paging', answers[1..], ret + txs);
      var k := |next.requests| + 1;
      assert answers[..k - 1][1..] == answers[1..][..k - 2];
    }
  }

  /** Every request but the last of a download was answered with a page. */
  lemma {:induction false} ServeConsumed(addresses: seq<string>, paging: Option<string>, answers: seq<Page>, ret: seq<Transaction>, i: nat)
    requires paging.Some? ==> ret != []
    requires i < |Serve(addresses, paging, answers, ret).requests|
    ensures i <= |answers| && AllPages(answers[..i])
    decreases |answers|
  {
    if i > 0 {
      var request := NextRequest(addresses, paging, ret);
      ServeStep(addresses, paging, answers, ret);
      ServeConsumed(RestAfter(addresses, paging), PagingAfter(request.address, answers[0].txs), answers[1..], ret + answers[0].txs, i - 1);
      assert answers[..i] == [answers[0]] + answers[1..][..i - 1];
    }
  }

  /**
   * The `after` cursor, first half: request i (after the first) continues
   * the previous request's address exactly when the answer to the previous
   * request was a full page.
   */
  lemma {:induction false} ServeCursor(addresses: seq<string>, paging: Option<string>, answers: seq<Page>, ret: seq<Transaction>, i: nat)
    requires paging.Some? ==> ret != []
    requires 0 < i < |Serve(addresses, paging, answers, ret).requests|
    ensures i <= |answers| && answers[i - 1].Page?
    ensures var requests := Serve(addresses, paging, answers, ret).requests;
            requests[i].after.Some? <==> |answers[i - 1].txs| == TransactionRequestLimit
    decreases |answers|
  {
    var request := NextRequest(addresses, paging, ret);
    ServeStep(addresses, paging, answers, ret);
    if i > 1 {
      ServeCursor(RestAfter(addresses, paging), PagingAfter(request.address, answers[0].txs), answers[1..], ret + answers[0].txs, i - 1);
    }
  }

  /**
   * The `after` cursor, second half: a continuing request asks for the same
   * address as the one before it, and for the transactions after the last
   * one accumulated so far.
   */
  lemma {:induction false} ServeCursorAfter(addresses: seq<string>, paging: Option<string>, answers: seq<Page>, ret: seq<Transaction>, i: nat)
    requires paging.Some? ==> ret != []
    requires 0 < i < |Serve(addresses, paging, answers, ret).requests|
    requires Serve(addresses, paging, answers, ret).requests[i].after.Some?
    ensures i <= |answers|
    ensures var requests := Serve(addresses, paging, answers, ret).requests;
            && requests[i].address == requests[i - 1].address
            && ret + Flatten(answers[..i]) != []
            && requests[i].after.value == (ret + Flatten(answers[..i]))[|ret + Flatten(answers[..i])| - 1].hash
    decreases |answers|
  {
    var txs := answers[0].txs;
    var request := NextRequest(addresses, paging, ret);
    var paging' := PagingAfter(request.address, txs);
    var rest := RestAfter(addresses, paging);
    ServeStep(addresses, paging, answers, ret);
    if i == 1 {
      assert Flatten(answers[1..][..0]) == [];
    } else {
      ServeCursorAfter(rest, paging', answers[1..], ret + txs, i - 1);
      assert answers[..i][1..] == answers[1..][..i - 1];
    }
    FlattenCons(answers, i);
  }

  /**
   * The pagination loop has no bound of its own: while every answer is a full
   * page, the download neither completes nor fails, whatever the number of
   * answers, so it can only run out of them.
   */
  lemma {:induction false} FullPagesNeverFinish(addresses: seq<string>, paging: Option<string>, answers: seq<Page>, ret: seq<Transaction>)
    requires paging.Some? ==> ret != []
    requires paging.Some? || addresses != []
    requires forall i :: 0 <= i < |answers| ==> answers[i].Page? && |answers[i].txs| == TransactionRequestLimit
    ensures Serve(addresses, paging, answers, ret).outcome.Starved?
    decreases |answers|
  {
    if answers != [] {
      var request := NextRequest(addresses, paging, ret);
      ServeStep(addresses, paging, answers, ret);
      assert forall i :: 0 <= i < |answers[1..]| ==> answers[1..][i] == answers[i + 1];
      FullPagesNeverFinish(RestAfter(addresses, paging), PagingAfter(request.address, answers[0].txs), answers[1..], ret + answers[0].txs);
    }
  }

  /** A completed download started the addresses one after another, in the given order, each once. */
  lemma {:induction false} ServeVisitsInOrder(addresses: seq<string>, paging: Option<string>, answers: seq<Page>, ret: seq<Transaction>)
    requires paging.Some? ==> ret != []
    requires Serve(addresses, paging, answers, ret).outcome.Done?
    ensures FirstPageAddresses(Serve(addresses, paging, answers, ret).requests) == addresses
    decreases |answers|
  {
    if paging.Some? || addresses != [] {
      var txs := answers[0].txs;
      var request := NextRequest(addresses, paging, ret);
      var paging' := PagingAfter(request.address, txs);
      var rest := RestAfter(addresses, paging);
      ServeStep(addresses, paging, answers, ret);
      ServeVisitsInOrder(rest, paging', answers[1..], ret + txs);
      var requests := Serve(addresses, paging, answers, ret).requests;
      assert requests[1..] == Serve(rest, paging', answers[1..], ret + txs).requests;
      if paging.None? {
        assert addresses == [addresses[0]] + addresses[1..];
      }
    }
  }
}
