/** What a converted block means: the same change of the unspent boxes as the Ergo block, balances
    that follow the unspent coins, and a record from which the block can be undone. */
module Ledger {
  import opened Types
  import opened MapSums
  import opened CoinEffects
  import opened Inputs
  import opened Converter
  import opened Operations
  import opened Resolution

  // ---------- Ergo's own meaning of a transaction ----------

  /** The box an output makes. The address is that of a resolved tree; ValidTx asks for one. */
  function OutputCoin(node: TreeToAddress, o: ErgoOutput): AccountCoin {
    var address :=
      if o.ergoTree == "cd07021a8e6f59fd4a" then "4MQyMKvMbnCJG3aJ"
      else if node(o.ergoTree).Some? then node(o.ergoTree).value
      else "";
    AccountCoin(address, o.boxId, Num(o.value))
  }

  function OutputCoins(node: TreeToAddress, outputs: seq<ErgoOutput>): Coins {
    if outputs == [] then map[]
    else
      var o := outputs[|outputs| - 1];
      OutputCoins(node, outputs[..|outputs| - 1])[o.boxId := OutputCoin(node, o)]
  }

  function BoxIds(inputs: seq<ErgoInput>): set<string> {
    set i | i in inputs :: i.boxId
  }

  /** A transaction deletes its inputs and inserts its outputs. */
  function ErgoApply(node: TreeToAddress, u: Coins, tx: ErgoTransaction): Coins {
    (u - BoxIds(tx.inputs)) + OutputCoins(node, tx.outputs)
  }

  function ErgoApplyAll(node: TreeToAddress, u: Coins, txs: seq<ErgoTransaction>): Coins {
    if txs == [] then u
    else ErgoApply(node, ErgoApplyAll(node, u, txs[..|txs| - 1]), txs[|txs| - 1])
  }

  predicate WellFormed(u: Coins) {
    forall id :: id in u ==> u[id].coinId == id && u[id].amount.Num?
  }

  /** The inputs are distinct and unspent, the outputs distinct and new, and every tree resolves. */
  predicate ValidTx(node: TreeToAddress, u: Coins, tx: ErgoTransaction) {
    && TreesResolve(node, tx.outputs)
    && UnspentAndDistinct(u, tx.inputs)
    && NewAndDistinct(u, tx.outputs)
  }

  predicate NewAndDistinct(u: Coins, outputs: seq<ErgoOutput>) {
    && (forall i :: 0 <= i < |outputs| ==> outputs[i].boxId !in u)
    && (forall i, j :: 0 <= i < j < |outputs| ==> outputs[i].boxId != outputs[j].boxId)
  }

  predicate ValidTxs(node: TreeToAddress, u: Coins, txs: seq<ErgoTransaction>) {
    txs == [] || (ValidTxs(node, u, txs[..|txs| - 1]) && ValidTx(node, ErgoApplyAll(node, u, txs[..|txs| - 1]), txs[|txs| - 1]))
  }

  // ---------- operations that carry the coins they change ----------

  /** A spending operation names the owner and the negated amount of the coin it removes; a creating
      one makes a new identifier. */
  predicate FaithfulOp(u: Coins, op: Operation) {
    && op.coinChange.Some? && op.amount.Num?
    && (op.Spends() ==> op.CoinId() in u && u[op.CoinId()] == AccountCoin(op.account, op.CoinId(), Num(-op.amount.n)))
    && (op.Creates() ==> op.CoinId() !in u)
  }

  predicate Faithful(u: Coins, ops: seq<Operation>) {
    ops == [] || (Faithful(u, ops[..|ops| - 1]) && FaithfulOp(ApplyOps(u, ops[..|ops| - 1]), ops[|ops| - 1]))
  }

  lemma {:induction false} FaithfulConcat(u: Coins, a: seq<Operation>, b: seq<Operation>)
    requires Faithful(u, a) && Faithful(ApplyOps(u, a), b)
    ensures Faithful(u, a + b)
  {
    if b == [] {
      assert a + b == a;
    } else {
      FaithfulConcat(u, a, b[..|b| - 1]);
      assert (a + b)[..|a + b| - 1] == a + b[..|b| - 1];
      ApplyOpsConcat(u, a, b[..|b| - 1]);
    }
  }

  // ---------- one transaction ----------

  /** Only the coins found for its inputs matter to the conversion of a transaction. */
  lemma {:induction false} InputOpsAgree(created: Coins, pre: Coins, u: Coins, inputs: seq<ErgoInput>)
    requires forall i :: 0 <= i < |inputs| ==> inputs[i].boxId in u && FindCoin(created, pre, inputs[i].boxId) == Some(u[inputs[i].boxId])
    ensures InputOps(created, pre, inputs) == InputOps(map[], u, inputs)
  {
    if inputs != [] {
      InputOpsAgree(created, pre, u, inputs[..|inputs| - 1]);
    }
  }

  predicate UnspentAndDistinct(u: Coins, inputs: seq<ErgoInput>) {
    && (forall i :: 0 <= i < |inputs| ==> inputs[i].boxId in u)
    && (forall i, j :: 0 <= i < j < |inputs| ==> inputs[i].boxId != inputs[j].boxId)
  }

  predicate SpendsInputs(u: Coins, inputs: seq<ErgoInput>, ops: seq<Operation>) {
    |ops| == |inputs| && forall i :: 0 <= i < |inputs| ==> IsInputOp(map[], u, inputs, i, ops[i])
  }

  lemma OneInput(u: Coins, inputs: seq<ErgoInput>, ops: seq<Operation>, k: nat)
    requires WellFormed(u) && UnspentAndDistinct(u, inputs) && SpendsInputs(u, inputs, ops) && k < |inputs|
    ensures FaithfulOp(u - BoxIds(inputs[..k]), ops[k])
    ensures ApplyOp(u - BoxIds(inputs[..k]), ops[k]) == u - BoxIds(inputs[..k + 1])
  {
    assert IsInputOp(map[], u, inputs, k, ops[k]);
    assert inputs[..k + 1] == inputs[..k] + [inputs[k]];
    assert BoxIds(inputs[..k + 1]) == BoxIds(inputs[..k]) + {inputs[k].boxId};
    assert inputs[k].boxId !in BoxIds(inputs[..k]);
  }

  /** The first k operations of a converted transaction delete its first k inputs. */
  lemma {:induction false} SpendInputs(u: Coins, inputs: seq<ErgoInput>, ops: seq<Operation>, k: nat)
    requires WellFormed(u) && UnspentAndDistinct(u, inputs) && SpendsInputs(u, inputs, ops) && k <= |inputs|
    ensures Faithful(u, ops[..k]) && ApplyOps(u, ops[..k]) == u - BoxIds(inputs[..k])
  {
    if k > 0 {
      SpendInputs(u, inputs, ops, k - 1);
      assert ops[..k][..k - 1] == ops[..k - 1];
      OneInput(u, inputs, ops, k - 1);
    }
  }

  lemma {:induction false} OutputCoinIds(node: TreeToAddress, outputs: seq<ErgoOutput>)
    ensures forall id :: id in OutputCoins(node, outputs) <==> exists j :: 0 <= j < |outputs| && outputs[j].boxId == id
    ensures WellFormed(OutputCoins(node, outputs))
  {
    if outputs != [] {
      var init := outputs[..|outputs| - 1];
      OutputCoinIds(node, init);
      assert forall j :: 0 <= j < |init| ==> init[j] == outputs[j];
    }
  }

  predicate MakesOutputs(node: TreeToAddress, outputs: seq<ErgoOutput>, n: nat, ops: seq<Operation>) {
    |ops| == |outputs| && forall j :: 0 <= j < |outputs| ==> IsOutputOp(node, outputs, n, j, ops[j])
  }

  lemma OneOutput(node: TreeToAddress, v: Coins, outputs: seq<ErgoOutput>, n: nat, ops: seq<Operation>, k: nat)
    requires NewAndDistinct(v, outputs) && MakesOutputs(node, outputs, n, ops) && k < |outputs|
    ensures FaithfulOp(v + OutputCoins(node, outputs[..k]), ops[k])
    ensures ApplyOp(v + OutputCoins(node, outputs[..k]), ops[k]) == v + OutputCoins(node, outputs[..k + 1])
  {
    assert IsOutputOp(node, outputs, n, k, ops[k]);
    var id, coin, before := outputs[k].boxId, OutputCoin(node, outputs[k]), OutputCoins(node, outputs[..k]);
    assert id !in before by {
      OutputCoinIds(node, outputs[..k]);
    }
    assert outputs[..k + 1][..k] == outputs[..k];
    assert CoinOf(ops[k]) == coin;
    assert (v + before)[id := coin] == v + before[id := coin];
  }

  /** The operations of the outputs insert them one by one into v, the coins without the inputs. */
  lemma {:induction false} CreateOutputs(node: TreeToAddress, v: Coins, outputs: seq<ErgoOutput>, n: nat, ops: seq<Operation>, k: nat)
    requires NewAndDistinct(v, outputs) && MakesOutputs(node, outputs, n, ops) && k <= |outputs|
    ensures Faithful(v, ops[..k]) && ApplyOps(v, ops[..k]) == v + OutputCoins(node, outputs[..k])
  {
    if k > 0 {
      CreateOutputs(node, v, outputs, n, ops, k - 1);
      assert ops[..k][..k - 1] == ops[..k - 1];
      OneOutput(node, v, outputs, n, ops, k - 1);
    }
  }

  /** Inputs deleted, then outputs inserted. */
  lemma OpsMeaning(node: TreeToAddress, u: Coins, tx: ErgoTransaction, ins: seq<Operation>, outs: seq<Operation>)
    requires Faithful(u, ins) && ApplyOps(u, ins) == u - BoxIds(tx.inputs)
    requires NewAndDistinct(u, tx.outputs) && MakesOutputs(node, tx.outputs, |ins|, outs)
    ensures Faithful(u, ins + outs) && ApplyOps(u, ins + outs) == ErgoApply(node, u, tx)
  {
    CreateOutputs(node, u - BoxIds(tx.inputs), tx.outputs, |ins|, outs, |outs|);
    assert tx.outputs[..|outs|] == tx.outputs && outs[..|outs|] == outs;
    ApplyOpsConcat(u, ins, outs);
    FaithfulConcat(u, ins, outs);
  }

  lemma StaysWellFormed(node: TreeToAddress, u: Coins, tx: ErgoTransaction)
    requires WellFormed(u)
    ensures WellFormed(ErgoApply(node, u, tx))
  {
    OutputCoinIds(node, tx.outputs);
  }

  lemma TxParts(node: TreeToAddress, u: Coins, tx: ErgoTransaction) returns (ins: seq<Operation>, outs: seq<Operation>)
    requires ConvertTx(node, map[], u, tx).Ok?
    ensures ConvertTx(node, map[], u, tx).value.operations == ins + outs
    ensures SpendsInputs(u, tx.inputs, ins) && MakesOutputs(node, tx.outputs, |ins|, outs)
  {
    TxShape(node, map[], u, tx);
    var ops, n := ConvertTx(node, map[], u, tx).value.operations, |tx.inputs|;
    ins, outs := ops[..n], ops[n..];
    forall j | 0 <= j < |tx.outputs|
      ensures IsOutputOp(node, tx.outputs, n, j, outs[j])
    {
      assert IsOutputOp(node, tx.outputs, n, n + j - n, ops[n + j]);
    }
  }

  lemma SpendAll(u: Coins, inputs: seq<ErgoInput>, ops: seq<Operation>)
    requires WellFormed(u) && UnspentAndDistinct(u, inputs) && SpendsInputs(u, inputs, ops)
    ensures Faithful(u, ops) && ApplyOps(u, ops) == u - BoxIds(inputs)
  {
    SpendInputs(u, inputs, ops, |ops|);
    assert inputs[..|ops|] == inputs && ops[..|ops|] == ops;
  }

  lemma ValidConverts(node: TreeToAddress, u: Coins, tx: ErgoTransaction)
    requires WellFormed(u) && ValidTx(node, u, tx)
    ensures ConvertTx(node, map[], u, tx).Ok?
  {
    TxShape(node, map[], u, tx);
  }

  /** A valid transaction, converted against the unspent coins, changes them as Ergo does. */
  lemma TxMeaning(node: TreeToAddress, u: Coins, tx: ErgoTransaction)
    requires WellFormed(u) && ValidTx(node, u, tx)
    ensures ConvertTx(node, map[], u, tx).Ok?
    ensures var ops := ConvertTx(node, map[], u, tx).value.operations;
            Faithful(u, ops) && ApplyOps(u, ops) == ErgoApply(node, u, tx)
    ensures WellFormed(ErgoApply(node, u, tx))
  {
    StaysWellFormed(node, u, tx);
    ValidConverts(node, u, tx);
    var ins, outs := TxParts(node, u, tx);
    SpendAll(u, tx.inputs, ins);
    OpsMeaning(node, u, tx, ins, outs);
  }

  // ---------- a block ----------

  /** Reference conversion: each transaction looks its inputs up in the unspent coins at that point. */
  function IdealTxs(node: TreeToAddress, u: Coins, txs: seq<ErgoTransaction>): Result<seq<Transaction>, ConvertError> {
    if txs == [] then Ok([])
    else
      match IdealTxs(node, u, txs[..|txs| - 1])
      case Err(error) => Err(error)
      case Ok(parsed) =>
        match ConvertTx(node, map[], ErgoApplyAll(node, u, txs[..|txs| - 1]), txs[|txs| - 1])
        case Err(error) => Err(error)
        case Ok(tx) => Ok(parsed + [tx])
  }

  /** The required inputs are prefetched with the coins of u. */
  predicate Prefetched(u: Coins, pre: Coins, txs: seq<ErgoTransaction>) {
    forall id :: id in InputIds(RequiredInputs(txs)) ==> id in pre && id in u && pre[id] == u[id]
  }

  lemma {:induction false} ExternalMember(id: string, inputs: seq<ErgoInput>, known: set<string>, i: nat)
    requires i < |inputs| && inputs[i].boxId !in known
    ensures InputCtx(id, inputs[i].boxId) in ExternalInputs(id, inputs, known)
  {
    if i < |inputs| - 1 {
      ExternalMember(id, inputs[..|inputs| - 1], known, i);
    }
  }

  /** For the last transaction, the running map and the prefetched coins together are the unspent
      coins at that point. */
  lemma LastLookups(node: TreeToAddress, u: Coins, pre: Coins, txs: seq<ErgoTransaction>, parsed: seq<Transaction>, i: nat)
    requires txs != [] && Prefetched(u, pre, txs) && i < |txs[|txs| - 1].inputs|
    requires var now := ErgoApplyAll(node, u, txs[..|txs| - 1]);
             ApplyOps(u, AllOps(parsed)) == now && ValidTx(node, now, txs[|txs| - 1])
    requires Made(parsed).Keys == OutputsOf(txs[..|txs| - 1])
    ensures var now, id := ErgoApplyAll(node, u, txs[..|txs| - 1]), txs[|txs| - 1].inputs[i].boxId;
            id in now && FindCoin(Made(parsed), pre, id) == Some(now[id])
  {
    var last := txs[|txs| - 1];
    var id := last.inputs[i].boxId;
    ApplyOpsOrigin(u, AllOps(parsed));
    if id !in Made(parsed) {
      assert id !in OutputIds(last);
      ExternalMember(last.id, last.inputs, OutputsOf(txs), i);
      assert InputCtx(last.id, id) in RequiredInputs(txs);
      assert id in InputIds(RequiredInputs(txs));
    }
  }

  /** So the last transaction converts as it would against the unspent coins at that point. */
  lemma LastAgrees(node: TreeToAddress, u: Coins, pre: Coins, txs: seq<ErgoTransaction>, parsed: seq<Transaction>)
    requires txs != [] && Prefetched(u, pre, txs)
    requires var now := ErgoApplyAll(node, u, txs[..|txs| - 1]);
             ApplyOps(u, AllOps(parsed)) == now && ValidTx(node, now, txs[|txs| - 1])
    requires Made(parsed).Keys == OutputsOf(txs[..|txs| - 1])
    ensures var now, last := ErgoApplyAll(node, u, txs[..|txs| - 1]), txs[|txs| - 1];
            ConvertTx(node, Made(parsed), pre, last) == ConvertTx(node, map[], now, last)
  {
    var now, last := ErgoApplyAll(node, u, txs[..|txs| - 1]), txs[|txs| - 1];
    forall i | 0 <= i < |last.inputs|
      ensures last.inputs[i].boxId in now && FindCoin(Made(parsed), pre, last.inputs[i].boxId) == Some(now[last.inputs[i].boxId])
    {
      LastLookups(node, u, pre, txs, parsed, i);
    }
    InputOpsAgree(Made(parsed), pre, now, last.inputs);
  }

  lemma PrefetchedInit(u: Coins, pre: Coins, txs: seq<ErgoTransaction>)
    requires txs != [] && Prefetched(u, pre, txs)
    ensures Prefetched(u, pre, txs[..|txs| - 1])
  {
    assert InputIds(RequiredInputs(txs[..|txs| - 1])) <= InputIds(RequiredInputs(txs)) by {
      assert forall c :: c in RequiredInputs(txs[..|txs| - 1]) ==> c in RequiredInputs(txs);
    }
  }

  /** Converting a valid block with its required inputs prefetched gives the reference conversion,
      and the coin changes of the result, in order, give Ergo's unspent boxes. */
  lemma {:induction false} BlockMeaning(node: TreeToAddress, u: Coins, pre: Coins, txs: seq<ErgoTransaction>)
    requires WellFormed(u) && ValidTxs(node, u, txs) && Prefetched(u, pre, txs)
    ensures IdealTxs(node, u, txs).Ok? && ConvertTxs(node, map[], pre, txs) == IdealTxs(node, u, txs)
    ensures var ops := AllOps(IdealTxs(node, u, txs).value);
            ApplyOps(u, ops) == ErgoApplyAll(node, u, txs) && Faithful(u, ops)
    ensures WellFormed(ErgoApplyAll(node, u, txs))
  {
    if txs != [] {
      var init, last := txs[..|txs| - 1], txs[|txs| - 1];
      PrefetchedInit(u, pre, txs);
      BlockMeaning(node, u, pre, init);
      var parsed, now := IdealTxs(node, u, init).value, ErgoApplyAll(node, u, init);
      ConvertedCreates(node, pre, init);
      TxMeaning(node, now, last);
      LastAgrees(node, u, pre, txs, parsed);
      var tx := ConvertTx(node, map[], now, last).value;
      ConvertLast(node, pre, txs);
      AppendTx(u, parsed, tx);
    }
  }

  /** One more transaction after some converted ones. */
  lemma AppendTx(u: Coins, parsed: seq<Transaction>, tx: Transaction)
    requires Faithful(u, AllOps(parsed)) && Faithful(ApplyOps(u, AllOps(parsed)), tx.operations)
    ensures Faithful(u, AllOps(parsed + [tx]))
    ensures ApplyOps(u, AllOps(parsed + [tx])) == ApplyOps(ApplyOps(u, AllOps(parsed)), tx.operations)
  {
    assert (parsed + [tx])[..|parsed|] == parsed;
    FaithfulConcat(u, AllOps(parsed), tx.operations);
    ApplyOpsConcat(u, AllOps(parsed), tx.operations);
  }

  // ---------- balances ----------

  function BalanceOf(balances: map<string, int>, account: string): int {
    if account in balances then balances[account] else 0
  }

  /** Each operation adds its amount to its account; an unknown account starts at zero. */
  function ApplyBalances(balances: map<string, int>, ops: seq<Operation>): map<string, int> {
    if ops == [] then balances
    else
      var before, op := ApplyBalances(balances, ops[..|ops| - 1]), ops[|ops| - 1];
      before[op.account := BalanceOf(before, op.account) + op.amount.Nano()]
  }

  function ValueFor(account: string): AccountCoin -> int {
    (c: AccountCoin) => if c.account == account then c.amount.Nano() else 0
  }

  /** The total value of an account's unspent coins. */
  ghost function Owned(u: Coins, account: string): int {
    Sum(u, ValueFor(account))
  }

  ghost predicate LedgerAgrees(u: Coins, balances: map<string, int>) {
    forall account :: BalanceOf(balances, account) == Owned(u, account)
  }

  lemma {:induction false} OpsKeepAgreement(u: Coins, balances: map<string, int>, ops: seq<Operation>)
    requires LedgerAgrees(u, balances) && Faithful(u, ops)
    ensures LedgerAgrees(ApplyOps(u, ops), ApplyBalances(balances, ops))
  {
    if ops != [] {
      var init, op := ops[..|ops| - 1], ops[|ops| - 1];
      OpsKeepAgreement(u, balances, init);
      var before := ApplyBalances(balances, init);
      forall account
        ensures BalanceOf(before[op.account := BalanceOf(before, op.account) + op.amount.Nano()], account)
             == Owned(ApplyOp(ApplyOps(u, init), op), account)
      {
        assert BalanceOf(before, account) == Owned(ApplyOps(u, init), account);
        OneOpOwned(ApplyOps(u, init), op, account);
      }
    }
  }

  /** An operation moves what its account owns by its amount, and what others own not at all. */
  lemma OneOpOwned(u: Coins, op: Operation, account: string)
    requires FaithfulOp(u, op)
    ensures Owned(ApplyOp(u, op), account) == Owned(u, account) + (if op.account == account then op.amount.Nano() else 0)
  {
    if op.Creates() {
      SumUpdate(u, ValueFor(account), op.CoinId(), CoinOf(op));
    } else {
      SumRemove(u, ValueFor(account), op.CoinId());
    }
  }

  /** Blocks converted one after the other, each valid on the coins its predecessors leave and each
      with its required inputs prefetched from those coins. */
  predicate ConvertedChain(node: TreeToAddress, genesis: Coins, ergo: seq<FullBlock>, pres: seq<Coins>, blocks: seq<Block>) {
    && |ergo| == |pres| == |blocks|
    && forall h :: 0 <= h < |blocks| ==> ConvertedAt(node, CoinsAfter(genesis, blocks[..h]), ergo[h], pres[h], blocks[h])
  }

  predicate ConvertedAt(node: TreeToAddress, u: Coins, ergo: FullBlock, pre: Coins, b: Block) {
    && ValidTxs(node, u, ergo.transactions)
    && Prefetched(u, pre, ergo.transactions)
    && ConvertBlock(node, pre, ergo) == Ok(b)
  }

  function BalancesAfter(balances: map<string, int>, blocks: seq<Block>): map<string, int> {
    if blocks == [] then balances
    else ApplyBalances(BalancesAfter(balances, blocks[..|blocks| - 1]), AllOps(blocks[|blocks| - 1].transactions))
  }

  function ErgoCoinsAfter(node: TreeToAddress, genesis: Coins, ergo: seq<FullBlock>): Coins {
    if ergo == [] then genesis
    else ErgoApplyAll(node, ErgoCoinsAfter(node, genesis, ergo[..|ergo| - 1]), ergo[|ergo| - 1].transactions)
  }

  /** After any sequence of converted valid blocks the stored coins are Ergo's unspent boxes and every
      account's balance is the total value of its unspent coins. */
  lemma {:induction false} LedgerAgreement(
      node: TreeToAddress, genesis: Coins, balances: map<string, int>, ergo: seq<FullBlock>, pres: seq<Coins>, blocks: seq<Block>)
    requires WellFormed(genesis) && LedgerAgrees(genesis, balances) && ConvertedChain(node, genesis, ergo, pres, blocks)
    ensures CoinsAfter(genesis, blocks) == ErgoCoinsAfter(node, genesis, ergo) && WellFormed(CoinsAfter(genesis, blocks))
    ensures LedgerAgrees(CoinsAfter(genesis, blocks), BalancesAfter(balances, blocks))
  {
    if blocks != [] {
      var n := |blocks| - 1;
      var u, b := CoinsAfter(genesis, blocks[..n]), blocks[n];
      ConvertedInit(node, genesis, ergo, pres, blocks);
      LedgerAgreement(node, genesis, balances, ergo[..n], pres[..n], blocks[..n]);
      assert ConvertedAt(node, u, ergo[n], pres[n], b);
      BlockMeaning(node, u, pres[n], ergo[n].transactions);
      OpsKeepAgreement(u, BalancesAfter(balances, blocks[..n]), AllOps(b.transactions));
    }
  }

  lemma ConvertedInit(node: TreeToAddress, genesis: Coins, ergo: seq<FullBlock>, pres: seq<Coins>, blocks: seq<Block>)
    requires blocks != [] && ConvertedChain(node, genesis, ergo, pres, blocks)
    ensures var n := |blocks| - 1; ConvertedChain(node, genesis, ergo[..n], pres[..n], blocks[..n])
  {
    var n := |blocks| - 1;
    forall h | 0 <= h < n
      ensures ConvertedAt(node, CoinsAfter(genesis, blocks[..n][..h]), ergo[..n][h], pres[..n][h], blocks[..n][h])
    {
      assert blocks[..n][..h] == blocks[..h];
    }
  }

  // ---------- undoing a block ----------

  /** Drops a created coin, restores a spent one from the operation's account and negated amount. */
  function UndoOp(u: Coins, op: Operation): Coins {
    if op.coinChange.None? then u
    else if op.Creates() then u - {op.CoinId()}
    else u[op.CoinId() := AccountCoin(op.account, op.CoinId(), Num(-op.amount.Nano()))]
  }

  function UndoOps(u: Coins, ops: seq<Operation>): Coins
    decreases |ops|
  {
    if ops == [] then u
    else UndoOps(UndoOp(u, ops[|ops| - 1]), ops[..|ops| - 1])
  }

  function UndoBalances(balances: map<string, int>, ops: seq<Operation>): map<string, int>
    decreases |ops|
  {
    if ops == [] then balances
    else
      var op := ops[|ops| - 1];
      UndoBalances(balances[op.account := BalanceOf(balances, op.account) - op.amount.Nano()], ops[..|ops| - 1])
  }

  lemma {:induction false} UndoCoins(u: Coins, ops: seq<Operation>)
    requires Faithful(u, ops)
    ensures UndoOps(ApplyOps(u, ops), ops) == u
  {
    if ops != [] {
      var init, op := ops[..|ops| - 1], ops[|ops| - 1];
      var before := ApplyOps(u, init);
      assert UndoOp(ApplyOp(before, op), op) == before;
      UndoCoins(u, init);
    }
  }

  ghost predicate SameBalances(a: map<string, int>, b: map<string, int>) {
    forall account :: BalanceOf(a, account) == BalanceOf(b, account)
  }

  lemma {:induction false} UndoSame(a: map<string, int>, b: map<string, int>, ops: seq<Operation>)
    requires SameBalances(a, b)
    ensures SameBalances(UndoBalances(a, ops), UndoBalances(b, ops))
    decreases |ops|
  {
    if ops != [] {
      var op := ops[|ops| - 1];
      var a' := a[op.account := BalanceOf(a, op.account) - op.amount.Nano()];
      var b' := b[op.account := BalanceOf(b, op.account) - op.amount.Nano()];
      forall account
        ensures BalanceOf(a', account) == BalanceOf(b', account)
      {
        assert BalanceOf(a, account) == BalanceOf(b, account) && BalanceOf(a, op.account) == BalanceOf(b, op.account);
      }
      UndoSame(a', b', ops[..|ops| - 1]);
    }
  }

  lemma {:induction false} UndoAmounts(balances: map<string, int>, ops: seq<Operation>)
    ensures SameBalances(UndoBalances(ApplyBalances(balances, ops), ops), balances)
  {
    if ops != [] {
      var init, op := ops[..|ops| - 1], ops[|ops| - 1];
      var before, after := ApplyBalances(balances, init), ApplyBalances(balances, ops);
      UndoSame(after[op.account := BalanceOf(after, op.account) - op.amount.Nano()], before, init);
      UndoAmounts(balances, init);
    }
  }

  /** Applying a converted valid block and undoing its operations in reverse order gives back the
      unspent coins and every balance. */
  lemma BlockIsLossless(node: TreeToAddress, u: Coins, balances: map<string, int>, pre: Coins, ergo: FullBlock)
    requires WellFormed(u) && ValidTxs(node, u, ergo.transactions) && Prefetched(u, pre, ergo.transactions)
    ensures ConvertBlock(node, pre, ergo).Ok?
    ensures var ops := AllOps(ConvertBlock(node, pre, ergo).value.transactions);
            && UndoOps(ApplyOps(u, ops), ops) == u
            && SameBalances(UndoBalances(ApplyBalances(balances, ops), ops), balances)
  {
    BlockMeaning(node, u, pre, ergo.transactions);
    var ops := AllOps(ConvertBlock(node, pre, ergo).value.transactions);
    UndoCoins(u, ops);
    UndoAmounts(balances, ops);
  }
}
