/** The mempool service: one unconfirmed transaction converted with coins looked up for all of them. */
module Mempool {
  import opened Types
  import opened Inputs
  import opened Converter
  import opened Operations
  import opened Resolution
  import opened BlockShapes

  /** The service's errors; the node error stands for a failed node call, or for a failed conversion,
      which it then carries. */
  datatype MempoolError =
    | UnavailableOffline
    | ErgoNode(conversion: Option<ConvertError>)
    | TransactionNotFound
    | UnableToGetCoins

  /** Storage as one lookup finds it: a snapshot of the coins, or a failed read. */
  datatype Read = Snapshot(coins: Coins) | ReadFailed

  /** The last unconfirmed transaction with the requested identifier. */
  function LastWithId(txs: seq<ErgoTransaction>, id: string): Option<ErgoTransaction> {
    if txs == [] then None
    else if txs[|txs| - 1].id == id then Some(txs[|txs| - 1])
    else LastWithId(txs[..|txs| - 1], id)
  }

  /** The coins found for some inputs, each input in its own read; an absent coin is skipped and a
      failed read ends the search. */
  function LookUpAll(inputs: seq<InputCtx>, lookups: seq<Read>): Result<Coins, MempoolError>
    requires |lookups| == |inputs|
  {
    if inputs == [] then Ok(map[])
    else
      var n := |inputs| - 1;
      match LookUpAll(inputs[..n], lookups[..n])
      case Err(error) => Err(error)
      case Ok(found) =>
        match lookups[n]
        case ReadFailed => Err(UnableToGetCoins)
        case Snapshot(coins) =>
          var id := inputs[n].inputId;
          Ok(if id in coins then found[id := coins[id]] else found)
  }

  lemma {:induction false} LookUpAllPrefix(inputs: seq<InputCtx>, lookups: seq<Read>, n: nat)
    requires |lookups| == |inputs| && n <= |inputs|
    ensures LookUpAll(inputs[..n], lookups[..n]).Err? ==> LookUpAll(inputs, lookups) == LookUpAll(inputs[..n], lookups[..n])
  {
    if n == |inputs| {
      assert inputs[..n] == inputs && lookups[..n] == lookups;
    } else {
      var m := |inputs| - 1;
      LookUpAllPrefix(inputs[..m], lookups[..m], n);
      assert inputs[..m][..n] == inputs[..n] && lookups[..m][..n] == lookups[..n];
    }
  }

  method FindCoinsForMempoolTx(inputs: seq<InputCtx>, lookups: seq<Read>) returns (r: Result<Coins, MempoolError>)
    requires |lookups| == |inputs|
    ensures r == LookUpAll(inputs, lookups)
  {
    var coinMap: Coins := map[];
    for i := 0 to |inputs|
      invariant LookUpAll(inputs[..i], lookups[..i]) == Ok(coinMap)
    {
      assert inputs[..i + 1][..i] == inputs[..i] && lookups[..i + 1][..i] == lookups[..i];
      LookUpAllPrefix(inputs, lookups, i + 1);
      match lookups[i]
      case ReadFailed => return Err(UnableToGetCoins);
      case Snapshot(coins) =>
        if inputs[i].inputId in coins {
          coinMap := coinMap[inputs[i].inputId := coins[inputs[i].inputId]];
        }
    }
    assert inputs[..|inputs|] == inputs && lookups[..|lookups|] == lookups;
    return Ok(coinMap);
  }

  /** The response for a requested identifier; mempool is None when the node cannot be asked. */
  function Response(
      online: bool, node: TreeToAddress, mempool: Option<seq<ErgoTransaction>>, requested: string, lookups: seq<Read>)
    : Result<Transaction, MempoolError>
    requires mempool.Some? ==> |lookups| == |RequiredInputs(mempool.value)|
  {
    if !online then Err(UnavailableOffline)
    else if mempool.None? then Err(ErgoNode(None))
    else
      match LastWithId(mempool.value, requested)
      case None => Err(TransactionNotFound)
      case Some(tx) =>
        match LookUpAll(RequiredInputs(mempool.value), lookups)
        case Err(error) => Err(error)
        case Ok(coins) =>
          match ConvertTx(node, map[], coins, tx)
          case Err(error) => Err(ErgoNode(Some(error)))
          case Ok(converted) => Ok(converted)
  }

  /** lookups holds one read for each input that has to be looked up. */
  method MempoolTransaction(
      online: bool, node: TreeToAddress, mempool: Option<seq<ErgoTransaction>>, requested: string, lookups: seq<Read>)
    returns (r: Result<Transaction, MempoolError>)
    requires mempool.Some? ==> |lookups| == |RequiredInputs(mempool.value)|
    ensures r == Response(online, node, mempool, requested, lookups)
  {
    if !online {
      return Err(UnavailableOffline);
    }
    if mempool.None? {
      return Err(ErgoNode(None));
    }
    var mempoolTransactions := mempool.value;
    var requestedTx: Option<ErgoTransaction> := None;
    for i := 0 to |mempoolTransactions|
      invariant requestedTx == LastWithId(mempoolTransactions[..i], requested)
    {
      assert mempoolTransactions[..i + 1][..i] == mempoolTransactions[..i];
      if mempoolTransactions[i].id == requested {
        requestedTx := Some(mempoolTransactions[i]);
      }
    }
    assert mempoolTransactions[..|mempoolTransactions|] == mempoolTransactions;
    if requestedTx.None? {
      return Err(TransactionNotFound);
    }
    var inputCoins := GetInputsForTxs(mempoolTransactions);
    var accountCoins := FindCoinsForMempoolTx(inputCoins, lookups);
    if accountCoins.Err? {
      return Err(accountCoins.error);
    }
    var converter := new BlockConverter(node, accountCoins.value);
    var rosettaTx := converter.TxToRosettaTx(requestedTx.value);
    if rosettaTx.Err? {
      return Err(ErgoNode(Some(rosettaTx.error)));
    }
    return Ok(rosettaTx.value);
  }

  // ---------- when the requested transaction resolves ----------

  /** Every read finds the same coins. */
  predicate Stable(lookups: seq<Read>, store: Coins) {
    forall i :: 0 <= i < |lookups| ==> lookups[i] == Snapshot(store)
  }

  /** found is the part of store with the given identifiers. */
  ghost predicate IsPartOf(found: Coins, store: Coins, ids: set<string>) {
    && (forall id :: id in found <==> id in store && id in ids)
    && (forall id :: id in found ==> found[id] == store[id])
  }

  lemma {:induction false} StableLookups(inputs: seq<InputCtx>, lookups: seq<Read>, store: Coins)
    requires |lookups| == |inputs| && Stable(lookups, store)
    ensures LookUpAll(inputs, lookups).Ok? && IsPartOf(LookUpAll(inputs, lookups).value, store, InputIds(inputs))
  {
    if inputs != [] {
      var n := |inputs| - 1;
      StableInit(lookups, store);
      StableLookups(inputs[..n], lookups[..n], store);
      LastInputId(inputs);
      OneMoreLookup(LookUpAll(inputs[..n], lookups[..n]).value, store, InputIds(inputs[..n]), inputs[n].inputId);
    }
  }

  lemma StableInit(lookups: seq<Read>, store: Coins)
    requires Stable(lookups, store) && lookups != []
    ensures Stable(lookups[..|lookups| - 1], store) && lookups[|lookups| - 1] == Snapshot(store)
  {
  }

  lemma LastInputId(inputs: seq<InputCtx>)
    requires inputs != []
    ensures InputIds(inputs) == InputIds(inputs[..|inputs| - 1]) + {inputs[|inputs| - 1].inputId}
  {
    assert inputs == inputs[..|inputs| - 1] + [inputs[|inputs| - 1]];
  }

  lemma OneMoreLookup(found: Coins, store: Coins, ids: set<string>, id: string)
    requires IsPartOf(found, store, ids)
    ensures IsPartOf(if id in store then found[id := store[id]] else found, store, ids + {id})
  {
  }

  /** An input whose box is stored, and so made by no unconfirmed transaction, is looked up. */
  lemma StoredInputIsRequired(mempool: seq<ErgoTransaction>, store: Coins, t: nat, i: nat)
    requires OutputsOf(mempool) !! store.Keys && t < |mempool| && i < |mempool[t].inputs|
    requires mempool[t].inputs[i].boxId in store
    ensures mempool[t].inputs[i].boxId in InputIds(RequiredInputs(mempool))
  {
    RequiredIds(mempool);
    OutputsOfMembers(mempool);
    var o := Occurrence(t, i);
    assert IsOccurrence(mempool, o) && External(mempool, o) && BoxAt(mempool, o) == mempool[t].inputs[i].boxId;
  }

  predicate AllStored(tx: ErgoTransaction, store: Coins) {
    forall i :: 0 <= i < |tx.inputs| ==> tx.inputs[i].boxId in store
  }

  /** With stable storage that holds no unconfirmed output, the inputs of the requested transaction
      are found exactly when all of them are stored, wherever it stands among the others: an unstored
      input is what the error reports, with good amounts and trees it is the only reason to fail, and
      the answer is the transaction converted with the stored coins. */
  lemma MempoolResolvesIffStored(
      node: TreeToAddress, mempool: seq<ErgoTransaction>, requested: string, lookups: seq<Read>, store: Coins, t: int)
    requires |lookups| == |RequiredInputs(mempool)| && Stable(lookups, store) && OutputsOf(mempool) !! store.Keys
    requires LastListed(mempool, requested, t)
    ensures var r, tx := Response(true, node, Some(mempool), requested, lookups), mempool[t];
            && (r.Ok? ==> AllStored(tx, store) && IsConverted(node, map[], store, tx, r.value))
            && (r.Err? ==> r.error.ErgoNode? && r.error.conversion.Some?)
            && (r.Err? && r.error.conversion.value.MissingInput? ==> !AllStored(tx, store))
            && (AmountsGood(store) && TreesResolve(node, tx.outputs) ==> (r.Ok? <==> AllStored(tx, store)))
  {
    var tx := mempool[t];
    LastIsListed(mempool, requested);
    StableLookups(RequiredInputs(mempool), lookups, store);
    var coins := LookUpAll(RequiredInputs(mempool), lookups).value;
    forall i | 0 <= i < |tx.inputs|
      ensures tx.inputs[i].boxId in coins <==> tx.inputs[i].boxId in store
    {
      if tx.inputs[i].boxId in store {
        StoredInputIsRequired(mempool, store, t, i);
      }
    }
    assert InputsKnown(map[], coins, tx.inputs) <==> AllStored(tx, store);
    TxResolves(node, map[], coins, tx);
    TxIsConverted(node, map[], coins, tx);
    if ConvertTx(node, map[], coins, tx).Ok? {
      SameCoinsSameConversion(node, coins, store, tx, ConvertTx(node, map[], coins, tx).value);
    }
    if AmountsGood(store) && TreesResolve(node, tx.outputs) {
      TxConvertsIffKnown(node, map[], coins, tx);
    }
  }

  lemma SameCoinsSameConversion(node: TreeToAddress, coins: Coins, store: Coins, tx: ErgoTransaction, r: Transaction)
    requires IsConverted(node, map[], coins, tx, r)
    requires forall id :: id in coins ==> id in store && coins[id] == store[id]
    ensures IsConverted(node, map[], store, tx, r)
  {
    forall k | 0 <= k < |tx.inputs|
      ensures IsInputOp(map[], store, tx.inputs, k, r.operations[k])
    {
      assert IsInputOp(map[], coins, tx.inputs, k, r.operations[k]);
    }
  }

  // ---------- what the answer is, whatever the reads find ----------

  /** Position t is the last with the requested identifier. */
  predicate LastListed(mempool: seq<ErgoTransaction>, requested: string, t: int) {
    0 <= t < |mempool| && mempool[t].id == requested && forall u :: t < u < |mempool| ==> mempool[u].id != requested
  }

  predicate AnyReadFails(lookups: seq<Read>) {
    exists k :: 0 <= k < |lookups| && lookups[k].ReadFailed?
  }

  /** Read k is the last one that finds the coin id, and finds c. */
  predicate FindsLast(inputs: seq<InputCtx>, lookups: seq<Read>, k: int, id: string, c: AccountCoin) {
    && 0 <= k < |inputs| <= |lookups| && inputs[k].inputId == id
    && lookups[k].Snapshot? && id in lookups[k].coins && lookups[k].coins[id] == c
    && forall m :: k < m < |inputs| && inputs[m].inputId == id && lookups[m].Snapshot? ==> id !in lookups[m].coins
  }

  ghost predicate Reads(inputs: seq<InputCtx>, lookups: seq<Read>, id: string, c: AccountCoin) {
    exists k :: FindsLast(inputs, lookups, k, id, c)
  }

  predicate HasCoin(found: Coins, id: string, c: AccountCoin) {
    id in found && found[id] == c
  }

  /** found holds the coins that the reads have found, by their identifiers. */
  ghost predicate IsReadResult(inputs: seq<InputCtx>, lookups: seq<Read>, found: Coins) {
    forall id, c :: HasCoin(found, id, c) <==> Reads(inputs, lookups, id, c)
  }

  lemma {:induction false} LastIsListed(mempool: seq<ErgoTransaction>, requested: string)
    ensures LastWithId(mempool, requested).None? <==> forall t :: 0 <= t < |mempool| ==> mempool[t].id != requested
    ensures forall t :: LastListed(mempool, requested, t) ==> LastWithId(mempool, requested) == Some(mempool[t])
    ensures LastWithId(mempool, requested).Some? ==> exists t :: LastListed(mempool, requested, t)
  {
    if mempool != [] {
      var n := |mempool| - 1;
      LastIsListed(mempool[..n], requested);
      if mempool[n].id == requested {
        assert LastListed(mempool, requested, n);
      } else {
        forall t
          ensures LastListed(mempool, requested, t) <==> LastListed(mempool[..n], requested, t)
        {
        }
        assert forall t :: 0 <= t < n ==> mempool[..n][t] == mempool[t];
      }
    }
  }

  lemma OneMoreRead(inputs: seq<InputCtx>, lookups: seq<Read>, n: nat, id: string, c: AccountCoin)
    requires n == |inputs| - 1 && |lookups| == |inputs| && lookups[n].Snapshot?
    ensures Reads(inputs, lookups, id, c) <==>
              if inputs[n].inputId == id && id in lookups[n].coins then lookups[n].coins[id] == c
              else Reads(inputs[..n], lookups[..n], id, c)
  {
    if inputs[n].inputId == id && id in lookups[n].coins {
      assert lookups[n].coins[id] == c ==> FindsLast(inputs, lookups, n, id, c);
    } else {
      if k :| FindsLast(inputs, lookups, k, id, c) {
        assert FindsLast(inputs[..n], lookups[..n], k, id, c);
      }
      if k :| FindsLast(inputs[..n], lookups[..n], k, id, c) {
        assert FindsLast(inputs, lookups, k, id, c);
      }
    }
  }

  /** The search fails exactly on a failed read, and otherwise finds what the reads find. */
  lemma {:induction false} LookUpAllExact(inputs: seq<InputCtx>, lookups: seq<Read>)
    requires |lookups| == |inputs|
    ensures var r := LookUpAll(inputs, lookups);
            && (r.Err? <==> AnyReadFails(lookups))
            && (r.Err? ==> r.error == UnableToGetCoins)
            && (r.Ok? ==> IsReadResult(inputs, lookups, r.value))
  {
    if inputs != [] {
      var n := |inputs| - 1;
      LookUpAllExact(inputs[..n], lookups[..n]);
      assert AnyReadFails(lookups) <==> AnyReadFails(lookups[..n]) || lookups[n].ReadFailed?;
      if !AnyReadFails(lookups) {
        forall id, c
          ensures HasCoin(LookUpAll(inputs, lookups).value, id, c) <==> Reads(inputs, lookups, id, c)
        {
          assert HasCoin(LookUpAll(inputs[..n], lookups[..n]).value, id, c) <==> Reads(inputs[..n], lookups[..n], id, c);
          OneMoreRead(inputs, lookups, n, id, c);
        }
      }
    } else {
      forall id, c
        ensures !Reads(inputs, lookups, id, c)
      {
      }
    }
  }

  /** The answer was made from the requested transaction and the coins that were read. */
  ghost predicate Answers(
      node: TreeToAddress, mempool: seq<ErgoTransaction>, requested: string, found: Coins, t: int, r: Result<Transaction, MempoolError>)
  {
    && LastListed(mempool, requested, t)
    && match r
       case Ok(tx) => tx.hash == requested && IsConverted(node, map[], found, mempool[t], tx)
       case Err(error) => error.ErgoNode? && error.conversion.Some? && IsTxError(node, map[], found, mempool[t], error.conversion.value)
  }

  predicate Listed(mempool: seq<ErgoTransaction>, requested: string) {
    exists t :: 0 <= t < |mempool| && mempool[t].id == requested
  }

  /** In every other case the answer is the last listed transaction with that identifier, converted with
      the coins that were read, or the reason why it does not convert. */
  lemma ListedIsAnswered(node: TreeToAddress, mempool: seq<ErgoTransaction>, requested: string, lookups: seq<Read>) returns (found: Coins, t: int)
    requires |lookups| == |RequiredInputs(mempool)| && Listed(mempool, requested) && !AnyReadFails(lookups)
    ensures IsReadResult(RequiredInputs(mempool), lookups, found)
    ensures Answers(node, mempool, requested, found, t, Response(true, node, Some(mempool), requested, lookups))
  {
    LastIsListed(mempool, requested);
    LookUpAllExact(RequiredInputs(mempool), lookups);
    t :| LastListed(mempool, requested, t);
    found := LookUpAll(RequiredInputs(mempool), lookups).value;
    TxIsConverted(node, map[], found, mempool[t]);
    if ConvertTx(node, map[], found, mempool[t]).Err? {
      TxError(node, map[], found, mempool[t]);
    }
  }

  /** When each of the answers is given that carry no transaction, in the order of the checks. */
  lemma Refusals(
      online: bool, node: TreeToAddress, mempool: Option<seq<ErgoTransaction>>, requested: string, lookups: seq<Read>)
    requires mempool.Some? ==> |lookups| == |RequiredInputs(mempool.value)|
    ensures var r := Response(online, node, mempool, requested, lookups);
            && (r == Err(UnavailableOffline) <==> !online)
            && (r == Err(ErgoNode(None)) <==> online && mempool.None?)
            && (r == Err(TransactionNotFound) <==> online && mempool.Some? && !Listed(mempool.value, requested))
            && (r == Err(UnableToGetCoins) <==> online && mempool.Some? && Listed(mempool.value, requested) && AnyReadFails(lookups))
  {
    if mempool.Some? {
      LastIsListed(mempool.value, requested);
      LookUpAllExact(RequiredInputs(mempool.value), lookups);
    }
  }
}
