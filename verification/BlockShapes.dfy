/** The converted block as a whole: its header, its transactions in order, and which error a failing
    conversion reports. */
module BlockShapes {
  import opened Types
  import opened Inputs
  import opened Converter
  import opened Operations
  import opened Resolution

  // ---------- what a converted block is ----------

  /** The identifiers and the time of a header; the genesis block is its own parent. */
  predicate HasHeader(b: Block, bh: BlockHeader) {
    && b.id.index == bh.height && b.id.hash == bh.id
    && (if bh.height == 1 then b.parent == b.id else b.parent.index == bh.height - 1 && b.parent.hash == bh.parentId)
    && b.timestamp == bh.timestamp
  }

  /** t is tx converted with the coins in created and pre: its identifier, its inputs spent in order with
      their coins' owners and negated amounts, then its outputs, each related to all inputs. */
  predicate IsConverted(node: TreeToAddress, created: Coins, pre: Coins, tx: ErgoTransaction, t: Transaction) {
    var n := |tx.inputs|;
    && t.hash == tx.id
    && |t.operations| == n + |tx.outputs|
    && (forall k :: 0 <= k < n ==> IsInputOp(created, pre, tx.inputs, k, t.operations[k]))
    && (forall k :: n <= k < n + |tx.outputs| ==> IsOutputOp(node, tx.outputs, n, k - n, t.operations[k]))
  }

  lemma TxIsConverted(node: TreeToAddress, created: Coins, pre: Coins, tx: ErgoTransaction)
    ensures ConvertTx(node, created, pre, tx).Ok? ==> IsConverted(node, created, pre, tx, ConvertTx(node, created, pre, tx).value)
  {
    TxShape(node, created, pre, tx);
  }

  /** Transaction t of a converted list is converted with the outputs of exactly the ones before it. */
  predicate IsConvertedAt(node: TreeToAddress, pre: Coins, txs: seq<ErgoTransaction>, parsed: seq<Transaction>, t: nat)
    requires t < |txs| && t < |parsed|
  {
    && Made(parsed[..t]).Keys == OutputsOf(txs[..t])
    && IsConverted(node, Made(parsed[..t]), pre, txs[t], parsed[t])
  }

  lemma ConvertedInPrefix(node: TreeToAddress, pre: Coins, txs: seq<ErgoTransaction>, parsed: seq<Transaction>, n: nat, t: nat)
    requires t < n <= |txs| && n <= |parsed| && IsConvertedAt(node, pre, txs[..n], parsed[..n], t)
    ensures IsConvertedAt(node, pre, txs, parsed, t)
  {
    assert txs[..n][..t] == txs[..t] && parsed[..n][..t] == parsed[..t];
  }

  lemma LastIsConverted(node: TreeToAddress, pre: Coins, txs: seq<ErgoTransaction>)
    requires txs != [] && ConvertTxs(node, map[], pre, txs).Ok?
    ensures var n, all := |txs| - 1, ConvertTxs(node, map[], pre, txs).value;
            && ConvertTxs(node, map[], pre, txs[..n]).Ok? && |all| == |txs|
            && all[..n] == ConvertTxs(node, map[], pre, txs[..n]).value
            && IsConvertedAt(node, pre, txs, all, n)
  {
    var n := |txs| - 1;
    ConvertLast(node, pre, txs);
    ConvertedCreates(node, pre, txs[..n]);
    TxIsConverted(node, Made(ConvertTxs(node, map[], pre, txs[..n]).value), pre, txs[n]);
  }

  lemma {:induction false} TxsShape(node: TreeToAddress, pre: Coins, txs: seq<ErgoTransaction>)
    requires ConvertTxs(node, map[], pre, txs).Ok?
    ensures var parsed := ConvertTxs(node, map[], pre, txs).value;
            |parsed| == |txs| && forall t :: 0 <= t < |txs| ==> IsConvertedAt(node, pre, txs, parsed, t)
  {
    if txs != [] {
      var n, all := |txs| - 1, ConvertTxs(node, map[], pre, txs).value;
      LastIsConverted(node, pre, txs);
      TxsShape(node, pre, txs[..n]);
      forall t | 0 <= t < n
        ensures IsConvertedAt(node, pre, txs, all, t)
      {
        ConvertedInPrefix(node, pre, txs, all, n, t);
      }
    }
  }

  /** A converted block has the header's identifiers and time, and its transactions in order. */
  lemma BlockShape(node: TreeToAddress, pre: Coins, block: FullBlock)
    requires ConvertBlock(node, pre, block).Ok?
    ensures var b := ConvertBlock(node, pre, block).value;
            && HasHeader(b, block.header)
            && |b.transactions| == |block.transactions|
            && forall t :: 0 <= t < |b.transactions| ==> IsConvertedAt(node, pre, block.transactions, b.transactions, t)
  {
    TxsShape(node, pre, block.transactions);
  }

  // ---------- which error is reported ----------

  /** Input k is the first that does not resolve, and error says why. */
  predicate FirstBadInput(created: Coins, pre: Coins, inputs: seq<ErgoInput>, k: nat, error: ConvertError)
    requires k < |inputs|
  {
    && (forall j :: 0 <= j < k ==> InputResolves(created, pre, inputs[j].boxId))
    && !InputResolves(created, pre, inputs[k].boxId)
    && error == if IsKnown(created, pre, inputs[k].boxId) then BadAmount(inputs[k].boxId) else MissingInput(inputs[k].boxId)
  }

  /** Output k is the first whose tree the node cannot translate. */
  predicate FirstBadOutput(node: TreeToAddress, outputs: seq<ErgoOutput>, k: nat, error: ConvertError)
    requires k < |outputs|
  {
    && (forall j :: 0 <= j < k ==> TreeResolves(node, outputs[j].ergoTree))
    && !TreeResolves(node, outputs[k].ergoTree)
    && error == BadTree(outputs[k].boxId)
  }

  /** The error of one transaction: its first bad input, or else its first bad output. */
  predicate IsTxError(node: TreeToAddress, created: Coins, pre: Coins, tx: ErgoTransaction, error: ConvertError) {
    || (exists k :: 0 <= k < |tx.inputs| && FirstBadInput(created, pre, tx.inputs, k, error))
    || (InputsResolve(created, pre, tx.inputs) && exists k :: 0 <= k < |tx.outputs| && FirstBadOutput(node, tx.outputs, k, error))
  }

  lemma {:induction false} InputError(created: Coins, pre: Coins, inputs: seq<ErgoInput>)
    requires InputOps(created, pre, inputs).Err?
    ensures exists k :: 0 <= k < |inputs| && FirstBadInput(created, pre, inputs, k, InputOps(created, pre, inputs).error)
  {
    var n := |inputs| - 1;
    var init := inputs[..n];
    InputOpsShape(created, pre, init);
    if InputOps(created, pre, init).Err? {
      InputError(created, pre, init);
      var error := InputOps(created, pre, init).error;
      var k :| 0 <= k < n && FirstBadInput(created, pre, init, k, error);
      assert FirstBadInput(created, pre, inputs, k, error);
    } else {
      forall j | 0 <= j < n
        ensures InputResolves(created, pre, inputs[j].boxId)
      {
        assert init[j] == inputs[j];
      }
      assert FirstBadInput(created, pre, inputs, n, InputOps(created, pre, inputs).error);
    }
  }

  lemma {:induction false} OutputError(node: TreeToAddress, outputs: seq<ErgoOutput>, n: nat)
    requires OutputOps(node, outputs, n, UpTo(n)).Err?
    ensures exists k :: 0 <= k < |outputs| && FirstBadOutput(node, outputs, k, OutputOps(node, outputs, n, UpTo(n)).error)
  {
    var m := |outputs| - 1;
    var init := outputs[..m];
    OutputOpsShape(node, init, n);
    if OutputOps(node, init, n, UpTo(n)).Err? {
      OutputError(node, init, n);
      var error := OutputOps(node, init, n, UpTo(n)).error;
      var k :| 0 <= k < m && FirstBadOutput(node, init, k, error);
      assert FirstBadOutput(node, outputs, k, error);
    } else {
      forall j | 0 <= j < m
        ensures TreeResolves(node, outputs[j].ergoTree)
      {
        assert init[j] == outputs[j];
      }
      assert FirstBadOutput(node, outputs, m, OutputOps(node, outputs, n, UpTo(n)).error);
    }
  }

  lemma TxError(node: TreeToAddress, created: Coins, pre: Coins, tx: ErgoTransaction)
    requires ConvertTx(node, created, pre, tx).Err?
    ensures IsTxError(node, created, pre, tx, ConvertTx(node, created, pre, tx).error)
  {
    InputOpsShape(created, pre, tx.inputs);
    if InputOps(created, pre, tx.inputs).Err? {
      InputError(created, pre, tx.inputs);
    } else {
      OutputError(node, tx.outputs, |tx.inputs|);
    }
  }

  /** A failing block reports the first bad input or output of its first bad transaction, where the
      transactions before it convert and their outputs count as found. */
  lemma {:induction false} BlockError(node: TreeToAddress, pre: Coins, txs: seq<ErgoTransaction>) returns (t: nat)
    requires ConvertTxs(node, map[], pre, txs).Err?
    ensures t < |txs| && ConvertTxs(node, map[], pre, txs[..t]).Ok?
    ensures var made := Made(ConvertTxs(node, map[], pre, txs[..t]).value);
            && made.Keys == OutputsOf(txs[..t])
            && IsTxError(node, made, pre, txs[t], ConvertTxs(node, map[], pre, txs).error)
  {
    var n := |txs| - 1;
    ConvertLast(node, pre, txs);
    if ConvertTxs(node, map[], pre, txs[..n]).Err? {
      t := BlockError(node, pre, txs[..n]);
      assert txs[..n][..t] == txs[..t];
    } else {
      t := n;
      ConvertedCreates(node, pre, txs[..n]);
      TxError(node, Made(ConvertTxs(node, map[], pre, txs[..n]).value), pre, txs[n]);
    }
  }
}
