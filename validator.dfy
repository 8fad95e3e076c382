/**
 * The balance check of validator/btc.go: `aggregateTransactions` folds the
 * transactions of the phonon's addresses into one signed running total,
 * `getBalance` feeds it the paginated history, and `Validate` accepts the
 * phonon when that total is non-zero.
 */
module Validator {
  import opened Wrappers
  import opened Transactions
  import opened BcoinClient


  /*
   * Specification of the running total, over unbounded integers. Every sum
   * peels off its LAST element, the order in which the loops consume theirs.
   */

  /**
   * What the innermost loop adds for one input or output of value `v` held by
   * `address`: `v` once for every entry of `addresses` equal to `address`.
   */
  function PerEntry(addresses: seq<string>, address: string, v: int): int
  {
    if addresses == [] then 0
    else PerEntry(addresses[..|addresses| - 1], address, v)
         + (if addresses[|addresses| - 1] == address then v else 0)
  }

  /** What the input loop subtracts: the values of the spent coins, per matching entry. */
  function Spent(inputs: seq<Input>, addresses: seq<string>): int
  {
    if inputs == [] then 0
    else
      var last := inputs[|inputs| - 1];
      Spent(inputs[..|inputs| - 1], addresses) + PerEntry(addresses, last.coin.address, last.coin.value as int)
  }

  /** What the output loop adds: the values of the outputs, per matching entry. */
  function Received(outputs: seq<Output>, addresses: seq<string>): int
  {
    if outputs == [] then 0
    else
      var last := outputs[|outputs| - 1];
      Received(outputs[..|outputs| - 1], addresses) + PerEntry(addresses, last.address, last.value as int)
  }

  /** The change one transaction makes to the balance of `addresses`. */
  function Net(tx: Transaction, addresses: seq<string>): int
  {
    Received(tx.outputs, addresses) - Spent(tx.inputs, addresses)
  }

  /** The exact balance of `addresses` over a transaction list. */
  function Balance(txl: seq<Transaction>, addresses: seq<string>): int
  {
    if txl == [] then 0
    else Balance(txl[..|txl| - 1], addresses) + Net(txl[|txl| - 1], addresses)
  }

  /** Number of entries of `addresses` equal to `a`. */
  function Occurrences(addresses: seq<string>, a: string): nat
  {
    multiset(addresses)[a]
  }

  /**
   * aggregateTransactions: for each transaction, subtract every input coin
   * and add every output once per entry of `addresses` that names its
   * address, in int64 arithmetic. It never reports an error.
   */
  method AggregateTransactions(txl: seq<Transaction>, addresses: seq<string>)
    returns (runningTotal: int64, err: Option<Error>)
    ensures runningTotal == Wrap(Balance(txl, addresses))
    ensures err == None
    ensures txl == [] ==> runningTotal == 0
  {
    runningTotal := 0;
    ghost var exact := 0;  // the total without int64 overflow
    for i := 0 to |txl|
      invariant exact == Balance(txl[..i], addresses)
      invariant runningTotal == Wrap(exact)
    {
      var transaction := txl[i];
      ghost var before := exact;
      for k := 0 to |transaction.inputs|
        invariant exact == before - Spent(transaction.inputs[..k], addresses)
        invariant runningTotal == Wrap(exact)
      {
        var input := transaction.inputs[k];
        ghost var start := exact;
        for j := 0 to |addresses|
          invariant exact == start - PerEntry(addresses[..j], input.coin.address, input.coin.value as int)
          invariant runningTotal == Wrap(exact)
        {
          assert addresses[..j + 1][..j] == addresses[..j];
          if input.coin.address == addresses[j] {
            WrapAdd(exact, -(input.coin.value as int));
            runningTotal := Wrap(runningTotal as int - input.coin.value as int);
            exact := exact - input.coin.value as int;
          }
        }
        assert addresses[..|addresses|] == addresses;
        assert transaction.inputs[..k + 1][..k] == transaction.inputs[..k];
      }
      assert transaction.inputs[..|transaction.inputs|] == transaction.inputs;
      ghost var afterInputs := exact;
      for k := 0 to |transaction.outputs|
        invariant exact == afterInputs + Received(transaction.outputs[..k], addresses)
        invariant runningTotal == Wrap(exact)
      {
        var output := transaction.outputs[k];
        ghost var start := exact;
        for j := 0 to |addresses|
          invariant exact == start + PerEntry(addresses[..j], output.address, output.value as int)
          invariant runningTotal == Wrap(exact)
        {
          assert addresses[..j + 1][..j] == addresses[..j];
          if output.address == addresses[j] {
            WrapAdd(exact, output.value as int);
            runningTotal := Wrap(runningTotal as int + output.value as int);
            exact := exact + output.value as int;
          }
        }
        assert addresses[..|addresses|] == addresses;
        assert transaction.outputs[..k + 1][..k] == transaction.outputs[..k];
      }
      assert transaction.outputs[..|transaction.outputs|] == transaction.outputs;
      assert txl[..i + 1][..i] == txl[..i];
    }
    assert txl[..|txl|] == txl;
    err := None;
  }

  /**
   * The balance `getBalance` reports: the total of the downloaded history,
   * or the total of an empty list when the download failed.
   */
  function ReportedBalance(addresses: seq<string>, answers: seq<Page>): int64
  {
    var run := Download(addresses, answers);
    if run.outcome.Done? then Wrap(Balance(run.outcome.txs, addresses)) else 0
  }

  /**
   * getBalance: download the history and aggregate it. The download's error
   * is overwritten by the aggregation's (always nil) before it is checked,
   * so a failed download reports a balance of 0 and no error.
   */
  method GetBalance(addresses: seq<string>, answers: seq<Page>) returns (balance: int64, err: Option<Error>)
    requires !Download(addresses, answers).outcome.Starved?
    ensures err == None
    ensures Download(addresses, answers).outcome.Done? ==>
              balance == Wrap(Balance(Download(addresses, answers).outcome.txs, addresses))
    ensures Download(addresses, answers).outcome.Failed? ==> balance == 0
  {
    var transactions, _ := GetTransactions(addresses, answers);
    var txl := if transactions.Success? then transactions.value else [];
    var zero: int64 := 0;
    balance, err := AggregateTransactions(txl, addresses);
    if err.Some? {
      return zero, err;
    }
    return balance, None;
  }

  /**
   * Validate, given the outcome of deriving the phonon key's addresses
   * (`pubKeyToAddresses`): a derivation error is returned with `false`;
   * otherwise the phonon counts as backed exactly when the reported balance
   * is non-zero, negative balances included.
   */
  method Validate(derived: Result<seq<string>, Error>, answers: seq<Page>) returns (backed: bool, err: Option<Error>)
    requires derived.Success? ==> !Download(derived.value, answers).outcome.Starved?
    ensures derived.Failure? ==> !backed && err == Some(derived.error)
    ensures derived.Success? ==> err == None && (backed <==> ReportedBalance(derived.value, answers) != 0)
  {
    if derived.Failure? {
      return false, Some(derived.error);
    }
    var addresses := derived.value;
    var balance, balanceErr := GetBalance(addresses, answers);
    if balanceErr.Some? {
      return false, balanceErr;
    }
    if balance == 0 {
      return false, None;
    }
    return true, None;
  }

  /*
   * Properties of the running total.
   */

  /**
   * An address listed k times contributes k times: the innermost loop runs
   * once per entry of `addresses`, not once per distinct address.
   */
  lemma {:induction false} PerEntryCounts(addresses: seq<string>, address: string, v: int)
    ensures PerEntry(addresses, address, v) == v * Occurrences(addresses, address)
  {
    if addresses != [] {
      var init := addresses[..|addresses| - 1];
      assert addresses == init + [addresses[|addresses| - 1]];
      PerEntryCounts(init, address, v);
      assert multiset(addresses) == multiset(init) + multiset{addresses[|addresses| - 1]};
    }
  }

  /** An input or output whose address is not listed contributes nothing. */
  lemma UnlistedAddress(addresses: seq<string>, address: string, v: int)
    requires address !in addresses
    ensures PerEntry(addresses, address, v) == 0
  {
    PerEntryCounts(addresses, address, v);
  }

  /** A transaction touching none of the listed addresses leaves the total unchanged. */
  lemma {:induction false} UnrelatedTransaction(tx: Transaction, addresses: seq<string>)
    requires forall i :: 0 <= i < |tx.inputs| ==> tx.inputs[i].coin.address !in addresses
    requires forall i :: 0 <= i < |tx.outputs| ==> tx.outputs[i].address !in addresses
    ensures Net(tx, addresses) == 0
  {
    UnrelatedInputs(tx.inputs, addresses);
    UnrelatedOutputs(tx.outputs, addresses);
  }

  lemma {:induction false} UnrelatedInputs(inputs: seq<Input>, addresses: seq<string>)
    requires forall i :: 0 <= i < |inputs| ==> inputs[i].coin.address !in addresses
    ensures Spent(inputs, addresses) == 0
  {
    if inputs != [] {
      var last := inputs[|inputs| - 1];
      UnrelatedInputs(inputs[..|inputs| - 1], addresses);
      UnlistedAddress(addresses, last.coin.address, last.coin.value as int);
    }
  }

  lemma {:induction false} UnrelatedOutputs(outputs: seq<Output>, addresses: seq<string>)
    requires forall i :: 0 <= i < |outputs| ==> outputs[i].address !in addresses
    ensures Received(outputs, addresses) == 0
  {
    if outputs != [] {
      var last := outputs[|outputs| - 1];
      UnrelatedOutputs(outputs[..|outputs| - 1], addresses);
      UnlistedAddress(addresses, last.address, last.value as int);
    }
  }

  /** The balance over two lists run one after the other is the sum of their balances. */
  lemma {:induction false} BalanceAppend(a: seq<Transaction>, b: seq<Transaction>, addresses: seq<string>)
    ensures Balance(a + b, addresses) == Balance(a, addresses) + Balance(b, addresses)
  {
    if b == [] {
      assert a + b == a;
    } else {
      var init := b[..|b| - 1];
      assert (a + b)[..|a + b| - 1] == a + init;
      BalanceAppend(a, init, addresses);
    }
  }

  /*
   * An independent reference: with each address listed once, the running
   * total is the value received by the owned addresses minus the value they
   * spent.
   */

  predicate Distinct(addresses: seq<string>)
  {
    forall i, j :: 0 <= i < j < |addresses| ==> addresses[i] != addresses[j]
  }

  /** Total value of the outputs paying one of `owned`. */
  function ReceivedBy(outputs: seq<Output>, owned: set<string>): int
  {
    if outputs == [] then 0
    else (if outputs[0].address in owned then outputs[0].value as int else 0) + ReceivedBy(outputs[1..], owned)
  }

  /** Total value of the inputs spending a coin of one of `owned`. */
  function SpentFrom(inputs: seq<Input>, owned: set<string>): int
  {
    if inputs == [] then 0
    else (if inputs[0].coin.address in owned then inputs[0].coin.value as int else 0) + SpentFrom(inputs[1..], owned)
  }

  /** Received minus spent, over all transactions. */
  function OwnedBalance(txl: seq<Transaction>, owned: set<string>): int
  {
    if txl == [] then 0
    else ReceivedBy(txl[0].outputs, owned) - SpentFrom(txl[0].inputs, owned) + OwnedBalance(txl[1..], owned)
  }

  lemma {:induction false} PerEntryDistinct(addresses: seq<string>, address: string, v: int)
    requires Distinct(addresses)
    ensures PerEntry(addresses, address, v) == if address in addresses then v else 0
  {
    if addresses != [] {
      var init := addresses[..|addresses| - 1];
      assert addresses == init + [addresses[|addresses| - 1]];
      PerEntryDistinct(init, address, v);
    }
  }

  lemma {:induction false} ReceivedDistinct(outputs: seq<Output>, addresses: seq<string>)
    requires Distinct(addresses)
    ensures Received(outputs, addresses) == ReceivedBy(outputs, set a | a in addresses)
  {
    if outputs != [] {
      var init := outputs[..|outputs| - 1];
      var last := outputs[|outputs| - 1];
      ReceivedDistinct(init, addresses);
      PerEntryDistinct(addresses, last.address, last.value as int);
      ReceivedByAppend(init, [last], set a | a in addresses);
      assert init + [last] == outputs;
    }
  }

  lemma {:induction false} SpentDistinct(inputs: seq<Input>, addresses: seq<string>)
    requires Distinct(addresses)
    ensures Spent(inputs, addresses) == SpentFrom(inputs, set a | a in addresses)
  {
    if inputs != [] {
      var init := inputs[..|inputs| - 1];
      var last := inputs[|inputs| - 1];
      SpentDistinct(init, addresses);
      PerEntryDistinct(addresses, last.coin.address, last.coin.value as int);
      SpentFromAppend(init, [last], set a | a in addresses);
      assert init + [last] == inputs;
    }
  }

  lemma {:induction false} ReceivedByAppend(a: seq<Output>, b: seq<Output>, owned: set<string>)
    ensures ReceivedBy(a + b, owned) == ReceivedBy(a, owned) + ReceivedBy(b, owned)
  {
    if a != [] {
      assert (a + b)[1..] == a[1..] + b;
      ReceivedByAppend(a[1..], b, owned);
    } else {
      assert a + b == b;
    }
  }

  lemma {:induction false} SpentFromAppend(a: seq<Input>, b: seq<Input>, owned: set<string>)
    ensures SpentFrom(a + b, owned) == SpentFrom(a, owned) + SpentFrom(b, owned)
  {
    if a != [] {
      assert (a + b)[1..] == a[1..] + b;
      SpentFromAppend(a[1..], b, owned);
    } else {
      assert a + b == b;
    }
  }

  lemma {:induction false} OwnedBalanceAppend(a: seq<Transaction>, b: seq<Transaction>, owned: set<string>)
    ensures OwnedBalance(a + b, owned) == OwnedBalance(a, owned) + OwnedBalance(b, owned)
  {
    if a != [] {
      assert (a + b)[1..] == a[1..] + b;
      OwnedBalanceAppend(a[1..], b, owned);
    } else {
      assert a + b == b;
    }
  }

  /**
   * With every address listed once, the running total is exactly the value
   * received by those addresses minus the value they spent.
   */
  lemma {:induction false} BalanceOfDistinctAddresses(txl: seq<Transaction>, addresses: seq<string>)
    requires Distinct(addresses)
    ensures Balance(txl, addresses) == OwnedBalance(txl, set a | a in addresses)
  {
    if txl != [] {
      var init := txl[..|txl| - 1];
      var last := txl[|txl| - 1];
      var owned := set a | a in addresses;
      BalanceOfDistinctAddresses(init, addresses);
      ReceivedDistinct(last.outputs, addresses);
      SpentDistinct(last.inputs, addresses);
      OwnedBalanceAppend(init, [last], owned);
      assert init + [last] == txl;
    }
  }
}
