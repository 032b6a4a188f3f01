/** Small blocks for the runs that show what can happen: each transaction moves one box of one nanoErg. */
module Samples {
  import opened Types
  import opened CoinEffects
  import opened Inputs
  import opened Converter
  import opened Ledger
  import opened Protocol
  import opened ReorgFree

  const OWNER := "4MQyMKvMbnCJG3aJ"
  const TREE := "cd07021a8e6f59fd4a"

  function BoxCoin(id: string): AccountCoin {
    AccountCoin(OWNER, id, Num(1))
  }

  function Move(id: string, from: string, to: string): ErgoTransaction {
    ErgoTransaction(id, [ErgoInput(from)], [ErgoOutput(to, 1, TREE, 0)])
  }

  function SpendOp(from: string): Operation {
    Operation(0, 0, [], INPUT, OWNER, Num(-1), Some(CoinChange(from, CoinSpent)))
  }

  function CreateOp(to: string): Operation {
    Operation(1, 0, [0], OUTPUT, OWNER, Num(1), Some(CoinChange(to, CoinCreated)))
  }

  function Moved(id: string, from: string, to: string): Transaction {
    Transaction(id, [SpendOp(from), CreateOp(to)])
  }

  lemma MoveConverts(node: TreeToAddress, u: Coins, id: string, from: string, to: string)
    requires from in u && u[from] == BoxCoin(from)
    ensures ConvertTxs(node, map[], u, [Move(id, from, to)]) == Ok([Moved(id, from, to)])
  {
    var tx := Move(id, from, to);
    assert [tx][..0] == [];
    assert ConvertTxs(node, map[], u, []) == Ok([]);
    assert map[] + CreatedCoins(AllOps([])) == map[];
    MoveTxConverts(node, u, id, from, to);
    assert [] + [Moved(id, from, to)] == [Moved(id, from, to)];
  }

  lemma MoveTxConverts(node: TreeToAddress, u: Coins, id: string, from: string, to: string)
    requires from in u && u[from] == BoxCoin(from)
    ensures ConvertTx(node, map[], u, Move(id, from, to)) == Ok(Moved(id, from, to))
  {
    var tx := Move(id, from, to);
    assert tx.inputs[..0] == [] && tx.outputs[..0] == [];
    assert InputOps(map[], u, []) == Ok([]);
    assert InputOpAt(map[], u, tx.inputs[0], 0) == Ok(SpendOp(from));
    assert InputOps(map[], u, tx.inputs) == Ok([] + [SpendOp(from)]);
    assert UpTo(1) == [0];
    assert OutputOps(node, [], 1, [0]) == Ok([]);
    assert OutputOp(node, tx.outputs[0], 1, [0]) == Ok(CreateOp(to));
    assert OutputOps(node, tx.outputs, 1, [0]) == Ok([] + [CreateOp(to)]);
    assert [] + [SpendOp(from)] + ([] + [CreateOp(to)]) == [SpendOp(from), CreateOp(to)];
  }

  lemma MoveRequires(id: string, from: string, to: string)
    requires from != to
    ensures RequiredInputs([Move(id, from, to)]) == [InputCtx(id, from)]
  {
    var tx := Move(id, from, to);
    assert [tx][..0] == [] && tx.inputs[..0] == [];
    assert OutputIds(tx) == {to};
    assert OutputsOf([tx]) == {to};
    assert RequiredInputs([tx][..0]) == [];
    assert ExternalInputs(id, tx.inputs, {to}) == [InputCtx(id, from)];
  }

  lemma MovedOps(id: string, from: string, to: string)
    ensures AllOps([Moved(id, from, to)]) == [SpendOp(from), CreateOp(to)]
    ensures CreatedCoins(AllOps([Moved(id, from, to)])) == map[to := BoxCoin(to)]
    ensures forall u :: ApplyOps(u, AllOps([Moved(id, from, to)])) == (u - {from})[to := BoxCoin(to)]
  {
    var tx := Moved(id, from, to);
    assert [tx][..0] == [];
    var ops := [SpendOp(from), CreateOp(to)];
    assert AllOps([tx]) == ops;
    assert ops[..1] == [SpendOp(from)] && [SpendOp(from)][..0] == [];
    assert CreatedCoins([SpendOp(from)]) == map[];
    forall u: Coins
      ensures ApplyOps(u, ops) == (u - {from})[to := BoxCoin(to)]
    {
      assert ApplyOps(u, [SpendOp(from)]) == u - {from};
    }
  }

  lemma MoveValid(node: TreeToAddress, u: Coins, id: string, from: string, to: string)
    requires from in u && to !in u
    ensures ValidTxs(node, u, [Move(id, from, to)])
  {
    var tx := Move(id, from, to);
    assert [tx][..0] == [];
    assert ErgoApplyAll(node, u, []) == u;
    assert ValidTx(node, u, tx);
  }

  // ---------- building a run step by step ----------

  ghost predicate RunTo(e: Env, states: seq<State>, actions: seq<Action>, s: State) {
    IsRun(e, states, actions) && states[|actions|] == s
  }

  lemma Extend(e: Env, states: seq<State>, actions: seq<Action>, s: State, a: Action, s': State)
    returns (states': seq<State>, actions': seq<Action>)
    requires RunTo(e, states, actions, s) && Follows(e, s, a, s')
    ensures states' == states + [s'] && actions' == actions + [a] && RunTo(e, states', actions', s')
  {
    states', actions' := states + [s'], actions + [a];
    forall i | 0 <= i < |actions'|
      ensures Follows(e, states'[i], actions'[i], states'[i + 1])
    {
      assert i < |actions| ==> actions'[i] == actions[i];
    }
  }

  /** A planned run that has reached s. */
  ghost predicate Reaches(e: Env, w: Plan, s: State) {
    exists states, actions :: IsPlannedRun(e, w, states, actions) && RunTo(e, states, actions, s)
  }

  lemma ExtendPlanned(e: Env, w: Plan, states: seq<State>, actions: seq<Action>, s: State, a: Action, s': State)
    requires IsPlannedRun(e, w, states, actions) && states[|actions|] == s
    requires Follows(e, s, a, s') && |w.ergo| == |w.blocks| && Allowed(w, s, a)
    requires IsRun(e, states + [s'], actions + [a])
    ensures IsPlannedRun(e, w, states + [s'], actions + [a])
  {
    var states', actions' := states + [s'], actions + [a];
    forall i | 0 <= i < |actions'|
      ensures Allowed(w, states'[i], actions'[i])
    {
      assert i < |actions| ==> actions'[i] == actions[i] && states'[i] == states[i];
    }
  }

  lemma Reach(e: Env, w: Plan, s: State, a: Action, s': State)
    requires Reaches(e, w, s) && Follows(e, s, a, s') && |w.ergo| == |w.blocks| && Allowed(w, s, a)
    ensures Reaches(e, w, s')
  {
    var states, actions :| IsPlannedRun(e, w, states, actions) && RunTo(e, states, actions, s);
    var states', actions' := Extend(e, states, actions, s, a, s');
    ExtendPlanned(e, w, states, actions, s, a, s');
  }
}
