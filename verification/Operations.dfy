/** The shape of a converted transaction: numbering, relations and amounts. */
module Operations {
  import opened Types
  import opened Converter

  predicate IsKnown(created: Coins, pre: Coins, id: string) {
    id in created || id in pre
  }

  /** op is number k and spends the k-th input with the owner and the negated amount of its coin: the
      one made earlier in the block if there is one, else the prefetched one. */
  predicate IsInputOp(created: Coins, pre: Coins, inputs: seq<ErgoInput>, k: nat, op: Operation)
    requires k < |inputs|
  {
    var id := inputs[k].boxId;
    && IsKnown(created, pre, id)
    && var coin := if id in created then created[id] else pre[id];
       && coin.amount.Num?
       && op == Operation(k, k, [], INPUT, coin.account, Num(-coin.amount.n), Some(CoinChange(id, CoinSpent)))
  }

  /** The account of an output: the node's address for the tree, but for the one tree that the node
      cannot parse. */
  predicate PaysTo(node: TreeToAddress, tree: string, account: string) {
    if tree == "cd07021a8e6f59fd4a" then account == "4MQyMKvMbnCJG3aJ" else node(tree) == Some(account)
  }

  /** op is number n + j, creates the j-th output, and relates to the operations 0..n-1. */
  predicate IsOutputOp(node: TreeToAddress, outputs: seq<ErgoOutput>, n: nat, j: nat, op: Operation)
    requires j < |outputs|
  {
    var o := outputs[j];
    && op.index == n + j && op.networkIndex == o.index && op.kind == OUTPUT
    && |op.related| == n && (forall r :: 0 <= r < n ==> op.related[r] == r)
    && PaysTo(node, o.ergoTree, op.account)
    && op.amount == Num(o.value)
    && op.coinChange == Some(CoinChange(o.boxId, CoinCreated))
  }

  predicate InputResolves(created: Coins, pre: Coins, id: string) {
    if id in created then created[id].amount.Num? else id in pre && pre[id].amount.Num?
  }

  predicate InputsResolve(created: Coins, pre: Coins, inputs: seq<ErgoInput>) {
    forall k :: 0 <= k < |inputs| ==> InputResolves(created, pre, inputs[k].boxId)
  }

  predicate TreeResolves(node: TreeToAddress, tree: string) {
    tree == "cd07021a8e6f59fd4a" || node(tree).Some?
  }

  predicate TreesResolve(node: TreeToAddress, outputs: seq<ErgoOutput>) {
    forall j :: 0 <= j < |outputs| ==> TreeResolves(node, outputs[j].ergoTree)
  }

  lemma {:induction false} InputOpsShape(created: Coins, pre: Coins, inputs: seq<ErgoInput>)
    ensures InputOps(created, pre, inputs).Ok? <==> InputsResolve(created, pre, inputs)
    ensures var r := InputOps(created, pre, inputs);
            r.Ok? ==> |r.value| == |inputs| && forall k :: 0 <= k < |inputs| ==> IsInputOp(created, pre, inputs, k, r.value[k])
  {
    if inputs != [] {
      var init := inputs[..|inputs| - 1];
      InputOpsShape(created, pre, init);
      assert forall k :: 0 <= k < |init| ==> init[k] == inputs[k];
      var r := InputOps(created, pre, inputs);
      if r.Ok? {
        var before := InputOps(created, pre, init).value;
        forall k | 0 <= k < |inputs|
          ensures IsInputOp(created, pre, inputs, k, r.value[k])
        {
          assert k < |init| ==> IsInputOp(created, pre, init, k, before[k]);
        }
      }
    }
  }

  lemma {:induction false} OutputOpsShape(node: TreeToAddress, outputs: seq<ErgoOutput>, n: nat)
    ensures OutputOps(node, outputs, n, UpTo(n)).Ok? <==> TreesResolve(node, outputs)
    ensures var r := OutputOps(node, outputs, n, UpTo(n));
            r.Ok? ==> |r.value| == |outputs| && forall j :: 0 <= j < |outputs| ==> IsOutputOp(node, outputs, n, j, r.value[j])
  {
    if outputs != [] {
      var init := outputs[..|outputs| - 1];
      OutputOpsShape(node, init, n);
      assert forall j :: 0 <= j < |init| ==> init[j] == outputs[j];
      var r := OutputOps(node, outputs, n, UpTo(n));
      if r.Ok? {
        var before := OutputOps(node, init, n, UpTo(n)).value;
        forall j | 0 <= j < |outputs|
          ensures IsOutputOp(node, outputs, n, j, r.value[j])
        {
          assert j < |init| ==> IsOutputOp(node, init, n, j, before[j]);
        }
      }
    }
  }

  /** Conversion of a transaction succeeds exactly when all inputs and trees resolve; its operations
      are numbered in list order, inputs first, and every output relates to exactly the inputs. */
  lemma TxShape(node: TreeToAddress, created: Coins, pre: Coins, tx: ErgoTransaction)
    ensures ConvertTx(node, created, pre, tx).Ok? <==> InputsResolve(created, pre, tx.inputs) && TreesResolve(node, tx.outputs)
    ensures var r, n := ConvertTx(node, created, pre, tx), |tx.inputs|;
            r.Ok? ==>
              && r.value.hash == tx.id
              && |r.value.operations| == n + |tx.outputs|
              && (forall k :: 0 <= k < |r.value.operations| ==> r.value.operations[k].index == k)
              && (forall k :: 0 <= k < n ==> IsInputOp(created, pre, tx.inputs, k, r.value.operations[k]))
              && (forall k :: n <= k < |r.value.operations| ==> IsOutputOp(node, tx.outputs, n, k - n, r.value.operations[k]))
  {
    InputOpsShape(created, pre, tx.inputs);
    OutputOpsShape(node, tx.outputs, |tx.inputs|);
    var r, n := ConvertTx(node, created, pre, tx), |tx.inputs|;
    if r.Ok? {
      var ops := r.value.operations;
      var ins, outs := InputOps(created, pre, tx.inputs).value, OutputOps(node, tx.outputs, n, UpTo(n)).value;
      forall k | 0 <= k < |ops|
        ensures k < n ==> IsInputOp(created, pre, tx.inputs, k, ops[k])
        ensures k >= n ==> IsOutputOp(node, tx.outputs, n, k - n, ops[k])
        ensures ops[k].index == k
      {
        if k < n {
          assert IsInputOp(created, pre, tx.inputs, k, ins[k]);
        } else {
          assert IsOutputOp(node, tx.outputs, n, k - n, outs[k - n]);
        }
      }
    }
  }

  /** The inputs are spent and the outputs created, in order. */
  lemma TxCoinChanges(node: TreeToAddress, created: Coins, pre: Coins, tx: ErgoTransaction)
    requires ConvertTx(node, created, pre, tx).Ok?
    ensures var ops, n := ConvertTx(node, created, pre, tx).value.operations, |tx.inputs|;
            && |ops| == n + |tx.outputs|
            && (forall k :: 0 <= k < n ==> ops[k].coinChange == Some(CoinChange(tx.inputs[k].boxId, CoinSpent)))
            && (forall k :: n <= k < |ops| ==> ops[k].coinChange == Some(CoinChange(tx.outputs[k - n].boxId, CoinCreated)))
            && (forall k :: 0 <= k < |ops| ==> ops[k].amount.Num?)
  {
    TxShape(node, created, pre, tx);
    var ops, n := ConvertTx(node, created, pre, tx).value.operations, |tx.inputs|;
    forall k | 0 <= k < n
      ensures ops[k].coinChange == Some(CoinChange(tx.inputs[k].boxId, CoinSpent)) && ops[k].amount.Num?
    {
      assert IsInputOp(created, pre, tx.inputs, k, ops[k]);
    }
    forall k | n <= k < |ops|
      ensures ops[k].coinChange == Some(CoinChange(tx.outputs[k - n].boxId, CoinCreated)) && ops[k].amount.Num?
    {
      assert IsOutputOp(node, tx.outputs, n, k - n, ops[k]);
    }
  }

  // ---------- amounts ----------

  /** The sum of the amounts of some operations. */
  function Total(ops: seq<Operation>): int {
    if ops == [] then 0 else Total(ops[..|ops| - 1]) + ops[|ops| - 1].amount.Nano()
  }

  function OutputValue(outputs: seq<ErgoOutput>): int {
    if outputs == [] then 0 else OutputValue(outputs[..|outputs| - 1]) + outputs[|outputs| - 1].value
  }

  function InputValue(created: Coins, pre: Coins, inputs: seq<ErgoInput>): int {
    if inputs == [] then 0
    else
      var id := inputs[|inputs| - 1].boxId;
      InputValue(created, pre, inputs[..|inputs| - 1])
      + (if id in created then created[id].amount.Nano() else if id in pre then pre[id].amount.Nano() else 0)
  }

  lemma {:induction false} TotalConcat(a: seq<Operation>, b: seq<Operation>)
    ensures Total(a + b) == Total(a) + Total(b)
  {
    if b == [] {
      assert a + b == a;
    } else {
      TotalConcat(a, b[..|b| - 1]);
      assert (a + b)[..|a + b| - 1] == a + b[..|b| - 1];
    }
  }

  lemma {:induction false} InputTotal(created: Coins, pre: Coins, inputs: seq<ErgoInput>)
    ensures var r := InputOps(created, pre, inputs);
            r.Ok? ==> Total(r.value) == -InputValue(created, pre, inputs)
  {
    if inputs != [] && InputOps(created, pre, inputs).Ok? {
      InputTotal(created, pre, inputs[..|inputs| - 1]);
      var ops := InputOps(created, pre, inputs).value;
      assert ops[..|ops| - 1] == InputOps(created, pre, inputs[..|inputs| - 1]).value;
    }
  }

  lemma {:induction false} OutputTotal(node: TreeToAddress, outputs: seq<ErgoOutput>, n: nat, related: seq<int>)
    ensures var r := OutputOps(node, outputs, n, related);
            r.Ok? ==> Total(r.value) == OutputValue(outputs)
  {
    if outputs != [] && OutputOps(node, outputs, n, related).Ok? {
      OutputTotal(node, outputs[..|outputs| - 1], n, related);
      var ops := OutputOps(node, outputs, n, related).value;
      assert ops[..|ops| - 1] == OutputOps(node, outputs[..|outputs| - 1], n, related).value;
    }
  }

  /** The amounts of a converted transaction sum to its output value minus its input value: to zero
      exactly when the transaction conserves value. */
  lemma AmountsBalance(node: TreeToAddress, created: Coins, pre: Coins, tx: ErgoTransaction)
    requires ConvertTx(node, created, pre, tx).Ok?
    ensures Total(ConvertTx(node, created, pre, tx).value.operations)
         == OutputValue(tx.outputs) - InputValue(created, pre, tx.inputs)
  {
    InputTotal(created, pre, tx.inputs);
    OutputTotal(node, tx.outputs, |tx.inputs|, UpTo(|tx.inputs|));
    TotalConcat(InputOps(created, pre, tx.inputs).value, OutputOps(node, tx.outputs, |tx.inputs|, UpTo(|tx.inputs|)).value);
  }
}
