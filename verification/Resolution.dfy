/** When the converter finds every input: the agreement of the two "created earlier in this block"
    rules, the one that decides what to fetch and the one that looks the coins up. */
module Resolution {
  import opened Types
  import opened CoinEffects
  import opened Inputs
  import opened Converter
  import opened Operations

  /** Every input is an output of a strictly earlier transaction or prefetched. */
  predicate LookupsResolve(txs: seq<ErgoTransaction>, pre: Coins) {
    forall t, i :: 0 <= t < |txs| && 0 <= i < |txs[t].inputs| ==>
                     txs[t].inputs[i].boxId in OutputsOf(txs[..t]) || txs[t].inputs[i].boxId in pre
  }

  /** Every box that a transaction takes from its own outputs, and no earlier one makes, is prefetched. */
  predicate SelfSpendsFetched(txs: seq<ErgoTransaction>, pre: Coins) {
    forall t, i :: 0 <= t < |txs| && 0 <= i < |txs[t].inputs|
                   && txs[t].inputs[i].boxId in OutputIds(txs[t]) && txs[t].inputs[i].boxId !in OutputsOf(txs[..t]) ==>
                     txs[t].inputs[i].boxId in pre
  }

  /** No transaction spends an output of its own. */
  predicate NoSelfSpend(txs: seq<ErgoTransaction>) {
    forall t, i :: 0 <= t < |txs| && 0 <= i < |txs[t].inputs| ==> txs[t].inputs[i].boxId !in OutputIds(txs[t])
  }

  lemma ExternalOrMadeEarlier(txs: seq<ErgoTransaction>, o: Occurrence)
    requires IsOccurrence(txs, o)
    ensures External(txs, o) <==> BoxAt(txs, o) !in OutputsOf(txs[..o.t]) && BoxAt(txs, o) !in OutputIds(txs[o.t])
  {
    OutputsOfMembers(txs[..o.t]);
    assert forall t :: 0 <= t < o.t ==> txs[..o.t][t] == txs[t];
  }

  /** All lookups succeed exactly when the required inputs are prefetched and so are the boxes that
      transactions take from their own outputs. */
  lemma LookupsResolveIff(txs: seq<ErgoTransaction>, pre: Coins)
    ensures LookupsResolve(txs, pre) <==> InputIds(RequiredInputs(txs)) <= pre.Keys && SelfSpendsFetched(txs, pre)
  {
    RequiredIds(txs);
    if LookupsResolve(txs, pre) {
      forall id | id in InputIds(RequiredInputs(txs))
        ensures id in pre
      {
        var o :| IsOccurrence(txs, o) && External(txs, o) && BoxAt(txs, o) == id;
        ExternalOrMadeEarlier(txs, o);
        assert txs[o.t].inputs[o.i].boxId == id;
      }
    }
    if InputIds(RequiredInputs(txs)) <= pre.Keys && SelfSpendsFetched(txs, pre) {
      forall t, i | 0 <= t < |txs| && 0 <= i < |txs[t].inputs|
        ensures txs[t].inputs[i].boxId in OutputsOf(txs[..t]) || txs[t].inputs[i].boxId in pre
      {
        var o := Occurrence(t, i);
        ExternalOrMadeEarlier(txs, o);
        assert External(txs, o) ==> BoxAt(txs, o) in InputIds(RequiredInputs(txs));
      }
    }
  }

  /** Without self-spends, all lookups succeed exactly when the required inputs are prefetched. */
  lemma ResolveIffCovered(txs: seq<ErgoTransaction>, pre: Coins)
    requires NoSelfSpend(txs)
    ensures LookupsResolve(txs, pre) <==> InputIds(RequiredInputs(txs)) <= pre.Keys
  {
    LookupsResolveIff(txs, pre);
  }

  /** The two rules differ on a transaction that spends its own output: nothing is required, and
      the lookup fails. */
  lemma SelfSpendIsMissed(node: TreeToAddress)
    ensures var tx := ErgoTransaction("tx", [ErgoInput("box")], [ErgoOutput("box", 1, "cd07021a8e6f59fd4a", 0)]);
            RequiredInputs([tx]) == [] && ConvertTxs(node, map[], map[], [tx]) == Err(MissingInput("box"))
  {
    var tx := ErgoTransaction("tx", [ErgoInput("box")], [ErgoOutput("box", 1, "cd07021a8e6f59fd4a", 0)]);
    assert [tx][..0] == [] && tx.inputs[..0] == [];
    assert tx.outputs[0] in tx.outputs && "box" in OutputIds(tx);
    assert ExternalInputs(tx.id, tx.inputs, OutputsOf([tx])) == [];
    assert ConvertTxs(node, map[], map[], [tx][..0]) == Ok([]);
    assert map[] + CreatedCoins(AllOps([])) == map[];
    assert InputOps(map[], map[], tx.inputs[..0]) == Ok([]);
    assert InputOps(map[], map[], tx.inputs) == Err(MissingInput("box"));
  }

  // ---------- the converter's lookups ----------

  /** The identifiers created by a converted transaction are those of its outputs. */
  lemma TxCreates(node: TreeToAddress, created: Coins, pre: Coins, tx: ErgoTransaction)
    requires ConvertTx(node, created, pre, tx).Ok?
    ensures CreatedCoins(ConvertTx(node, created, pre, tx).value.operations).Keys == OutputIds(tx)
  {
    TxCoinChanges(node, created, pre, tx);
    var ops, n := ConvertTx(node, created, pre, tx).value.operations, |tx.inputs|;
    CreatedIds(ops);
    forall id | id in CreatedCoins(ops)
      ensures id in OutputIds(tx)
    {
      var k :| 0 <= k < |ops| && ops[k].Creates() && ops[k].CoinId() == id;
      assert tx.outputs[k - n] in tx.outputs;
    }
    forall id | id in OutputIds(tx)
      ensures id in CreatedCoins(ops)
    {
      var j :| 0 <= j < |tx.outputs| && tx.outputs[j].boxId == id;
      assert ops[n + j].coinChange == Some(CoinChange(tx.outputs[n + j - n].boxId, CoinCreated));
    }
  }

  lemma {:induction false} CreatedIds(ops: seq<Operation>)
    ensures forall id :: id in CreatedCoins(ops) <==> exists k :: 0 <= k < |ops| && ops[k].Creates() && ops[k].CoinId() == id
  {
    if ops != [] {
      var init := ops[..|ops| - 1];
      CreatedIds(init);
      assert forall k :: 0 <= k < |init| ==> init[k] == ops[k];
    }
  }

  /** The converter's running map after some converted transactions. */
  function Made(parsed: seq<Transaction>): Coins {
    CreatedCoins(AllOps(parsed))
  }

  /** Converting a list is converting all but the last transaction, then the last one. */
  lemma ConvertLast(node: TreeToAddress, pre: Coins, txs: seq<ErgoTransaction>)
    requires txs != []
    ensures var init, last := ConvertTxs(node, map[], pre, txs[..|txs| - 1]), txs[|txs| - 1];
            var r := ConvertTxs(node, map[], pre, txs);
            if init.Err? then r == init
            else
              var tx := ConvertTx(node, Made(init.value), pre, last);
              if tx.Err? then r == Err(tx.error)
              else r == Ok(init.value + [tx.value]) && Made(r.value) == Made(init.value) + CreatedCoins(tx.value.operations)
  {
    var init, last := ConvertTxs(node, map[], pre, txs[..|txs| - 1]), txs[|txs| - 1];
    if init.Ok? {
      assert map[] + Made(init.value) == Made(init.value);
      var tx := ConvertTx(node, Made(init.value), pre, last);
      if tx.Ok? {
        CreatedConcat(AllOps(init.value), tx.value.operations);
        assert (init.value + [tx.value])[..|init.value|] == init.value;
      }
    }
  }

  /** The running map of the converter has exactly the outputs of the transactions converted so far. */
  lemma {:induction false} ConvertedCreates(node: TreeToAddress, pre: Coins, txs: seq<ErgoTransaction>)
    requires ConvertTxs(node, map[], pre, txs).Ok?
    ensures |ConvertTxs(node, map[], pre, txs).value| == |txs|
    ensures Made(ConvertTxs(node, map[], pre, txs).value).Keys == OutputsOf(txs)
  {
    if txs != [] {
      ConvertLast(node, pre, txs);
      ConvertedCreates(node, pre, txs[..|txs| - 1]);
      TxCreates(node, Made(ConvertTxs(node, map[], pre, txs[..|txs| - 1]).value), pre, txs[|txs| - 1]);
    }
  }

  lemma {:induction false} MissingInputIsUnresolved(created: Coins, pre: Coins, inputs: seq<ErgoInput>)
    ensures var r := InputOps(created, pre, inputs);
            r.Err? && r.error.MissingInput? ==>
              exists i :: 0 <= i < |inputs| && inputs[i].boxId !in created && inputs[i].boxId !in pre
  {
    if inputs != [] {
      var init := inputs[..|inputs| - 1];
      MissingInputIsUnresolved(created, pre, init);
      if i :| 0 <= i < |init| && init[i].boxId !in created && init[i].boxId !in pre {
        assert inputs[i] == init[i];
      }
    }
  }

  lemma {:induction false} OutputsNeverMissInputs(node: TreeToAddress, outputs: seq<ErgoOutput>, first: nat, related: seq<int>)
    ensures var r := OutputOps(node, outputs, first, related); r.Err? ==> r.error.BadTree?
  {
    if outputs != [] {
      OutputsNeverMissInputs(node, outputs[..|outputs| - 1], first, related);
    }
  }

  /** A conversion that succeeds found every input, and one that reports a missing input did not. */
  lemma {:induction false} ConversionResolves(node: TreeToAddress, pre: Coins, txs: seq<ErgoTransaction>)
    ensures var r := ConvertTxs(node, map[], pre, txs);
            && (r.Ok? ==> LookupsResolve(txs, pre))
            && (r.Err? && r.error.MissingInput? ==> !LookupsResolve(txs, pre))
  {
    if txs != [] {
      var n := |txs| - 1;
      ConversionResolves(node, pre, txs[..n]);
      InitLookups(txs, pre);
      ConvertLast(node, pre, txs);
      if ConvertTxs(node, map[], pre, txs[..n]).Ok? {
        ConvertedCreates(node, pre, txs[..n]);
        TxResolves(node, Made(ConvertTxs(node, map[], pre, txs[..n]).value), pre, txs[n]);
      }
    }
  }

  /** One transaction: success finds every input, and a missing input is one that is nowhere. */
  lemma TxResolves(node: TreeToAddress, created: Coins, pre: Coins, tx: ErgoTransaction)
    ensures var r := ConvertTx(node, created, pre, tx);
            && (r.Ok? ==> InputsKnown(created, pre, tx.inputs))
            && (r.Err? && r.error.MissingInput? ==> !InputsKnown(created, pre, tx.inputs))
  {
    TxShape(node, created, pre, tx);
    MissingInputIsUnresolved(created, pre, tx.inputs);
    OutputsNeverMissInputs(node, tx.outputs, |tx.inputs|, UpTo(|tx.inputs|));
    if ConvertTx(node, created, pre, tx).Ok? {
      forall i | 0 <= i < |tx.inputs|
        ensures IsKnown(created, pre, tx.inputs[i].boxId)
      {
        assert InputResolves(created, pre, tx.inputs[i].boxId);
      }
    }
  }

  predicate InputsKnown(created: Coins, pre: Coins, inputs: seq<ErgoInput>) {
    forall i :: 0 <= i < |inputs| ==> IsKnown(created, pre, inputs[i].boxId)
  }

  lemma InitLookups(txs: seq<ErgoTransaction>, pre: Coins)
    requires txs != []
    ensures var n := |txs| - 1;
            LookupsResolve(txs, pre) <==>
              && LookupsResolve(txs[..n], pre)
              && forall i :: 0 <= i < |txs[n].inputs| ==> txs[n].inputs[i].boxId in OutputsOf(txs[..n]) || txs[n].inputs[i].boxId in pre
  {
    var n := |txs| - 1;
    assert forall t :: 0 <= t < n ==> txs[..n][t] == txs[t] && txs[..n][..t] == txs[..t];
  }

  /** When amounts and trees are good, a block converts exactly when all lookups succeed. */
  lemma {:induction false} ConvertsIffResolved(node: TreeToAddress, pre: Coins, txs: seq<ErgoTransaction>)
    requires forall t :: 0 <= t < |txs| ==> TreesResolve(node, txs[t].outputs)
    requires AmountsGood(pre)
    ensures ConvertTxs(node, map[], pre, txs).Ok? <==> LookupsResolve(txs, pre)
    ensures ConvertTxs(node, map[], pre, txs).Ok? ==> AmountsGood(Made(ConvertTxs(node, map[], pre, txs).value))
  {
    if txs != [] {
      var n := |txs| - 1;
      assert forall t :: 0 <= t < n ==> txs[..n][t] == txs[t];
      ConvertsIffResolved(node, pre, txs[..n]);
      InitLookups(txs, pre);
      ConvertLast(node, pre, txs);
      if ConvertTxs(node, map[], pre, txs[..n]).Ok? {
        ConvertedCreates(node, pre, txs[..n]);
        TxConvertsIffKnown(node, Made(ConvertTxs(node, map[], pre, txs[..n]).value), pre, txs[n]);
      }
    }
  }

  predicate AmountsGood(coins: Coins) {
    forall id :: id in coins ==> coins[id].amount.Num?
  }

  lemma TxConvertsIffKnown(node: TreeToAddress, created: Coins, pre: Coins, tx: ErgoTransaction)
    requires TreesResolve(node, tx.outputs) && AmountsGood(created) && AmountsGood(pre)
    ensures var r := ConvertTx(node, created, pre, tx);
            && (r.Ok? <==> InputsKnown(created, pre, tx.inputs))
            && (r.Ok? ==> AmountsGood(created + CreatedCoins(r.value.operations)))
  {
    TxShape(node, created, pre, tx);
    assert InputsResolve(created, pre, tx.inputs) <==> InputsKnown(created, pre, tx.inputs) by {
      forall i | 0 <= i < |tx.inputs|
        ensures InputResolves(created, pre, tx.inputs[i].boxId) <==> IsKnown(created, pre, tx.inputs[i].boxId)
      {
      }
    }
    if ConvertTx(node, created, pre, tx).Ok? {
      TxAmounts(node, created, pre, tx);
    }
  }

  lemma TxAmounts(node: TreeToAddress, created: Coins, pre: Coins, tx: ErgoTransaction)
    requires ConvertTx(node, created, pre, tx).Ok?
    ensures AmountsGood(CreatedCoins(ConvertTx(node, created, pre, tx).value.operations))
  {
    TxCoinChanges(node, created, pre, tx);
    CreatedAmounts(ConvertTx(node, created, pre, tx).value.operations);
  }

  lemma {:induction false} CreatedAmounts(ops: seq<Operation>)
    requires forall k :: 0 <= k < |ops| ==> ops[k].amount.Num?
    ensures AmountsGood(CreatedCoins(ops))
  {
    if ops != [] {
      CreatedAmounts(ops[..|ops| - 1]);
    }
  }

  /** With exactly the required inputs prefetched, the boxes that a transaction takes from its own
      outputs decide: a block that converts had them prefetched, one that misses an input had not, and
      with good amounts and trees it converts exactly when they are. */
  lemma FetchedResolvesIff(node: TreeToAddress, found: Coins, block: FullBlock)
    requires found.Keys == InputIds(RequiredInputs(block.transactions))
    ensures var r, fetched := ConvertBlock(node, found, block), SelfSpendsFetched(block.transactions, found);
            && (r.Ok? ==> fetched)
            && (r.Err? && r.error.MissingInput? ==> !fetched)
            && (BlockIsGood(node, found, block) ==> (r.Ok? <==> fetched))
  {
    LookupsResolveIff(block.transactions, found);
    ConversionResolves(node, found, block.transactions);
    if BlockIsGood(node, found, block) {
      ConvertsIffResolved(node, found, block.transactions);
    }
  }

  /** The coins are numbers, and the node knows every tree. */
  predicate BlockIsGood(node: TreeToAddress, found: Coins, block: FullBlock) {
    && AmountsGood(found)
    && forall t :: 0 <= t < |block.transactions| ==> TreesResolve(node, block.transactions[t].outputs)
  }
}
