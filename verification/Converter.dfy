/** Conversion of an Ergo block into a Rosetta block. The functions are the specification, the
    class is the converter that updates its running map of block outputs. */
module Converter {
  import opened Types
  import opened CoinEffects

  datatype ConvertError =
    | MissingInput(inputId: string)
    | BadAmount(boxId: string)
    | BadTree(boxId: string)

  /** The node's translation of ergo trees to addresses, which can fail. */
  type TreeToAddress = string -> Option<string>

  // ---------- one operation ----------

  function AddressOf(node: TreeToAddress, tree: string): Option<string> {
    if tree == "cd07021a8e6f59fd4a" then Some("4MQyMKvMbnCJG3aJ") else node(tree)
  }

  /** Coins made earlier in the block come before prefetched ones. */
  function FindCoin(created: Coins, pre: Coins, id: string): Option<AccountCoin> {
    if id in created then Some(created[id])
    else if id in pre then Some(pre[id])
    else None
  }

  function InputOp(i: ErgoInput, operationIndex: int, inputIndex: int, coin: AccountCoin): Result<Operation, ConvertError> {
    match coin.amount
    case NotANumber => Err(BadAmount(i.boxId))
    case Num(n) =>
      Ok(Operation(operationIndex, inputIndex, [], INPUT, coin.account, Num(-n), Some(CoinChange(i.boxId, CoinSpent))))
  }

  function OutputOp(node: TreeToAddress, o: ErgoOutput, operationIndex: int, related: seq<int>): Result<Operation, ConvertError> {
    match AddressOf(node, o.ergoTree)
    case None => Err(BadTree(o.boxId))
    case Some(address) =>
      Ok(Operation(operationIndex, o.index, related, OUTPUT, address, Num(o.value), Some(CoinChange(o.boxId, CoinCreated))))
  }

  // ---------- one transaction ----------

  function InputOpAt(created: Coins, pre: Coins, i: ErgoInput, index: int): Result<Operation, ConvertError> {
    match FindCoin(created, pre, i.boxId)
    case None => Err(MissingInput(i.boxId))
    case Some(coin) => InputOp(i, index, index, coin)
  }

  function InputOps(created: Coins, pre: Coins, inputs: seq<ErgoInput>): Result<seq<Operation>, ConvertError> {
    if inputs == [] then Ok([])
    else
      match InputOps(created, pre, inputs[..|inputs| - 1])
      case Err(error) => Err(error)
      case Ok(ops) =>
        match InputOpAt(created, pre, inputs[|inputs| - 1], |inputs| - 1)
        case Err(error) => Err(error)
        case Ok(op) => Ok(ops + [op])
  }

  function OutputOps(node: TreeToAddress, outputs: seq<ErgoOutput>, first: nat, related: seq<int>): Result<seq<Operation>, ConvertError> {
    if outputs == [] then Ok([])
    else
      match OutputOps(node, outputs[..|outputs| - 1], first, related)
      case Err(error) => Err(error)
      case Ok(ops) =>
        match OutputOp(node, outputs[|outputs| - 1], first + |outputs| - 1, related)
        case Err(error) => Err(error)
        case Ok(op) => Ok(ops + [op])
  }

  function UpTo(n: nat): seq<int> {
    seq(n, i => i)
  }

  function ConvertTx(node: TreeToAddress, created: Coins, pre: Coins, tx: ErgoTransaction): Result<Transaction, ConvertError> {
    match InputOps(created, pre, tx.inputs)
    case Err(error) => Err(error)
    case Ok(ins) =>
      match OutputOps(node, tx.outputs, |tx.inputs|, UpTo(|tx.inputs|))
      case Err(error) => Err(error)
      case Ok(outs) => Ok(Transaction(tx.id, ins + outs))
  }

  // ---------- a block ----------

  /** The transactions in order; each may spend what the ones before it created. */
  function ConvertTxs(node: TreeToAddress, created: Coins, pre: Coins, txs: seq<ErgoTransaction>): Result<seq<Transaction>, ConvertError> {
    if txs == [] then Ok([])
    else
      match ConvertTxs(node, created, pre, txs[..|txs| - 1])
      case Err(error) => Err(error)
      case Ok(parsed) =>
        match ConvertTx(node, created + CreatedCoins(AllOps(parsed)), pre, txs[|txs| - 1])
        case Err(error) => Err(error)
        case Ok(tx) => Ok(parsed + [tx])
  }

  const genesisBlockIndex := 1

  /** The block identifiers of a header; the genesis block is its own parent. */
  function HeaderToRosettaBlock(bh: BlockHeader): Block {
    var id := BlockIdentifier(bh.height, bh.id);
    var parent := if bh.height == genesisBlockIndex then id else BlockIdentifier(bh.height - 1, bh.parentId);
    Block(id, parent, bh.timestamp, [])
  }

  function ConvertBlock(node: TreeToAddress, pre: Coins, block: FullBlock): Result<Block, ConvertError> {
    match ConvertTxs(node, map[], pre, block.transactions)
    case Err(error) => Err(error)
    case Ok(txs) => Ok(HeaderToRosettaBlock(block.header).(transactions := txs))
  }

  // ---------- an error in a prefix is the error of the whole ----------

  lemma {:induction false} InputOpsPrefix(created: Coins, pre: Coins, inputs: seq<ErgoInput>, n: nat)
    requires n <= |inputs|
    ensures InputOps(created, pre, inputs[..n]).Err? ==> InputOps(created, pre, inputs) == InputOps(created, pre, inputs[..n])
  {
    if n == |inputs| {
      assert inputs[..n] == inputs;
    } else {
      InputOpsPrefix(created, pre, inputs[..|inputs| - 1], n);
      assert inputs[..|inputs| - 1][..n] == inputs[..n];
    }
  }

  /** Converting one more input. */
  lemma InputOpsStep(created: Coins, pre: Coins, inputs: seq<ErgoInput>, n: nat, ops: seq<Operation>)
    requires n < |inputs| && InputOps(created, pre, inputs[..n]) == Ok(ops)
    ensures var r := InputOpAt(created, pre, inputs[n], n);
            if r.Err? then InputOps(created, pre, inputs) == Err(r.error)
            else InputOps(created, pre, inputs[..n + 1]) == Ok(ops + [r.value])
  {
    assert inputs[..n + 1][..n] == inputs[..n];
    InputOpsPrefix(created, pre, inputs, n + 1);
  }

  lemma {:induction false} OutputOpsPrefix(node: TreeToAddress, outputs: seq<ErgoOutput>, first: nat, related: seq<int>, n: nat)
    requires n <= |outputs|
    ensures OutputOps(node, outputs[..n], first, related).Err? ==>
              OutputOps(node, outputs, first, related) == OutputOps(node, outputs[..n], first, related)
  {
    if n == |outputs| {
      assert outputs[..n] == outputs;
    } else {
      OutputOpsPrefix(node, outputs[..|outputs| - 1], first, related, n);
      assert outputs[..|outputs| - 1][..n] == outputs[..n];
    }
  }

  /** Converting one more output. */
  lemma OutputOpsStep(node: TreeToAddress, outputs: seq<ErgoOutput>, first: nat, related: seq<int>, n: nat, ops: seq<Operation>)
    requires n < |outputs| && OutputOps(node, outputs[..n], first, related) == Ok(ops)
    ensures var r := OutputOp(node, outputs[n], first + n, related);
            if r.Err? then OutputOps(node, outputs, first, related) == Err(r.error)
            else OutputOps(node, outputs[..n + 1], first, related) == Ok(ops + [r.value])
  {
    assert outputs[..n + 1][..n] == outputs[..n];
    OutputOpsPrefix(node, outputs, first, related, n + 1);
  }

  lemma {:induction false} ConvertTxsPrefix(node: TreeToAddress, created: Coins, pre: Coins, txs: seq<ErgoTransaction>, n: nat)
    requires n <= |txs|
    ensures ConvertTxs(node, created, pre, txs[..n]).Err? ==>
              ConvertTxs(node, created, pre, txs) == ConvertTxs(node, created, pre, txs[..n])
  {
    if n == |txs| {
      assert txs[..n] == txs;
    } else {
      ConvertTxsPrefix(node, created, pre, txs[..|txs| - 1], n);
      assert txs[..|txs| - 1][..n] == txs[..n];
    }
  }

  /** Storing the coins of one more transaction. */
  lemma StoredStep(created: Coins, parsed: seq<Transaction>, tx: Transaction)
    ensures created + CreatedCoins(AllOps(parsed)) + CreatedCoins(tx.operations)
         == created + CreatedCoins(AllOps(parsed + [tx]))
  {
    CreatedConcat(AllOps(parsed), tx.operations);
    assert (parsed + [tx])[..|parsed|] == parsed;
  }

  // ---------- the converter ----------

  class BlockConverter {
    const treeToAddress: TreeToAddress
    const preFetchedInputs: Coins
    /** Outputs of the transactions converted so far. */
    var blockTxInputs: Coins

    constructor (treeToAddress: TreeToAddress, preFetchedInputs: Coins)
      ensures this.treeToAddress == treeToAddress && this.preFetchedInputs == preFetchedInputs
      ensures blockTxInputs == map[]
    {
      this.treeToAddress, this.preFetchedInputs, blockTxInputs := treeToAddress, preFetchedInputs, map[];
    }

    function FindCoinForInput(inputId: string): Option<AccountCoin>
      reads this
    {
      FindCoin(blockTxInputs, preFetchedInputs, inputId)
    }

    method TxToRosettaTx(ergoTx: ErgoTransaction) returns (r: Result<Transaction, ConvertError>)
      ensures r == ConvertTx(treeToAddress, blockTxInputs, preFetchedInputs, ergoTx)
    {
      var txOps: seq<Operation> := [];
      var relatedOps: seq<int> := [];
      var inputs := ergoTx.inputs;
      for inputIdx := 0 to |inputs|
        invariant InputOps(blockTxInputs, preFetchedInputs, inputs[..inputIdx]) == Ok(txOps)
        invariant |txOps| == inputIdx && relatedOps == UpTo(inputIdx)
      {
        InputOpsStep(blockTxInputs, preFetchedInputs, inputs, inputIdx, txOps);
        var acctCoin := FindCoinForInput(inputs[inputIdx].boxId);
        if acctCoin.None? {
          return Err(MissingInput(inputs[inputIdx].boxId));
        }
        var txOp := InputOp(inputs[inputIdx], |txOps|, inputIdx, acctCoin.value);
        if txOp.Err? {
          return Err(txOp.error);
        }
        txOps := txOps + [txOp.value];
        relatedOps := relatedOps + [txOp.value.index];
      }
      assert inputs[..|inputs|] == inputs;
      ghost var ins, outs := txOps, [];
      var outputs := ergoTx.outputs;
      for outputIdx := 0 to |outputs|
        invariant txOps == ins + outs && |outs| == outputIdx
        invariant OutputOps(treeToAddress, outputs[..outputIdx], |inputs|, relatedOps) == Ok(outs)
      {
        OutputOpsStep(treeToAddress, outputs, |inputs|, relatedOps, outputIdx, outs);
        var txOp := OutputOp(treeToAddress, outputs[outputIdx], |txOps|, relatedOps);
        if txOp.Err? {
          return Err(txOp.error);
        }
        txOps := txOps + [txOp.value];
        outs := outs + [txOp.value];
      }
      assert outputs[..|outputs|] == outputs;
      return Ok(Transaction(ergoTx.id, txOps));
    }

    /** Keeps the outputs of a converted transaction for later transactions of the block. */
    method StoreTxCoins(tx: Transaction)
      modifies this
      ensures blockTxInputs == old(blockTxInputs) + CreatedCoins(tx.operations)
    {
      var ops := tx.operations;
      for i := 0 to |ops|
        invariant blockTxInputs == old(blockTxInputs) + CreatedCoins(ops[..i])
      {
        assert ops[..i + 1][..i] == ops[..i];
        var op := ops[i];
        if op.coinChange.None? || op.coinChange.value.action != CoinCreated {
          continue;
        }
        blockTxInputs := blockTxInputs[op.coinChange.value.coinId := AccountCoin(op.account, op.coinChange.value.coinId, op.amount)];
      }
      assert ops[..|ops|] == ops;
    }

    method BlockToRosettaBlock(block: FullBlock) returns (r: Result<Block, ConvertError>)
      modifies this
      ensures old(blockTxInputs) == map[] ==> r == ConvertBlock(treeToAddress, preFetchedInputs, block)
      ensures r.Ok? ==> blockTxInputs == old(blockTxInputs) + BlockCreates(r.value)
    {
      ghost var created := blockTxInputs;
      var b := HeaderToRosettaBlock(block.header);
      var ergoTxs := block.transactions;
      var parsedTxs: seq<Transaction> := [];
      for idx := 0 to |ergoTxs|
        invariant ConvertTxs(treeToAddress, created, preFetchedInputs, ergoTxs[..idx]) == Ok(parsedTxs)
        invariant |parsedTxs| == idx
        invariant blockTxInputs == created + CreatedCoins(AllOps(parsedTxs))
      {
        assert ergoTxs[..idx + 1][..idx] == ergoTxs[..idx];
        ConvertTxsPrefix(treeToAddress, created, preFetchedInputs, ergoTxs, idx + 1);
        var parsedTx := TxToRosettaTx(ergoTxs[idx]);
        if parsedTx.Err? {
          return Err(parsedTx.error);
        }
        StoreTxCoins(parsedTx.value);
        StoredStep(created, parsedTxs, parsedTx.value);
        parsedTxs := parsedTxs + [parsedTx.value];
      }
      assert ergoTxs[..|ergoTxs|] == ergoTxs;
      return Ok(b.(transactions := parsedTxs));
    }
  }
}
