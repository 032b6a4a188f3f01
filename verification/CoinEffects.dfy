/** What the coin changes of a block do to a set of unspent coins. */
module CoinEffects {
  import opened Types

  /** The operations of a list of transactions, in order. */
  function AllOps(txs: seq<Transaction>): seq<Operation> {
    if txs == [] then []
    else AllOps(txs[..|txs| - 1]) + txs[|txs| - 1].operations
  }

  function CoinOf(op: Operation): AccountCoin
    requires op.coinChange.Some?
  {
    AccountCoin(op.account, op.CoinId(), op.amount)
  }

  /** The coins that some operations create; a later operation on the same identifier wins. */
  function CreatedCoins(ops: seq<Operation>): Coins {
    if ops == [] then map[]
    else
      var rest := CreatedCoins(ops[..|ops| - 1]);
      var op := ops[|ops| - 1];
      if op.Creates() then rest[op.CoinId() := CoinOf(op)] else rest
  }

  function BlockCreates(b: Block): Coins {
    CreatedCoins(AllOps(b.transactions))
  }

  function SpentIds(ops: seq<Operation>): set<string> {
    set op | op in ops && op.Spends() :: op.CoinId()
  }

  function BlockSpends(b: Block): set<string> {
    SpentIds(AllOps(b.transactions))
  }

  function ApplyOp(u: Coins, op: Operation): Coins {
    if op.coinChange.None? then u
    else if op.Creates() then u[op.CoinId() := CoinOf(op)]
    else u - {op.CoinId()}
  }

  /** The unspent coins after the coin changes of ops, in order. */
  function ApplyOps(u: Coins, ops: seq<Operation>): Coins {
    if ops == [] then u
    else ApplyOp(ApplyOps(u, ops[..|ops| - 1]), ops[|ops| - 1])
  }

  function ApplyBlock(u: Coins, b: Block): Coins {
    ApplyOps(u, AllOps(b.transactions))
  }

  /** The unspent coins after committing a chain on top of the bootstrapped genesis coins. */
  function CoinsAfter(genesis: Coins, chain: seq<Block>): Coins {
    if chain == [] then genesis
    else ApplyBlock(CoinsAfter(genesis, chain[..|chain| - 1]), chain[|chain| - 1])
  }

  lemma {:induction false} ApplyOpsConcat(u: Coins, a: seq<Operation>, b: seq<Operation>)
    ensures ApplyOps(u, a + b) == ApplyOps(ApplyOps(u, a), b)
  {
    if b == [] {
      assert a + b == a;
    } else {
      ApplyOpsConcat(u, a, b[..|b| - 1]);
      assert (a + b)[..|a + b| - 1] == a + b[..|b| - 1];
    }
  }

  lemma {:induction false} CreatedConcat(a: seq<Operation>, b: seq<Operation>)
    ensures CreatedCoins(a + b) == CreatedCoins(a) + CreatedCoins(b)
  {
    if b == [] {
      assert a + b == a;
    } else {
      CreatedConcat(a, b[..|b| - 1]);
      assert (a + b)[..|a + b| - 1] == a + b[..|b| - 1];
    }
  }

  /** Where an unspent coin comes from, and why a coin is no longer unspent. */
  lemma {:induction false} ApplyOpsOrigin(u: Coins, ops: seq<Operation>)
    ensures forall id :: id in ApplyOps(u, ops) ==>
                           if id in CreatedCoins(ops) then ApplyOps(u, ops)[id] == CreatedCoins(ops)[id]
                           else id in u && ApplyOps(u, ops)[id] == u[id]
    ensures forall id :: (id in u || id in CreatedCoins(ops)) && id !in SpentIds(ops) ==> id in ApplyOps(u, ops)
  {
    if ops != [] {
      var init, op := ops[..|ops| - 1], ops[|ops| - 1];
      ApplyOpsOrigin(u, init);
      assert op in ops;
      assert SpentIds(init) <= SpentIds(ops) by {
        assert forall o :: o in init ==> o in ops;
      }
    }
  }

  /** A coin created by a committed block is unspent unless a committed block spends it. */
  lemma {:induction false} CommittedCoinUnspent(genesis: Coins, chain: seq<Block>, h: nat, id: string)
    requires h < |chain| && id in BlockCreates(chain[h])
    ensures id in CoinsAfter(genesis, chain) || exists j :: h <= j < |chain| && id in BlockSpends(chain[j])
  {
    var init, last := chain[..|chain| - 1], chain[|chain| - 1];
    ApplyOpsOrigin(CoinsAfter(genesis, init), AllOps(last.transactions));
    if h < |chain| - 1 {
      CommittedCoinUnspent(genesis, init, h, id);
      if id !in CoinsAfter(genesis, init) {
        var j :| h <= j < |init| && id in BlockSpends(init[j]);
        assert id in BlockSpends(chain[j]);
      }
    }
    if id !in CoinsAfter(genesis, chain) && (h == |chain| - 1 || id in CoinsAfter(genesis, init)) {
      assert id in BlockSpends(chain[|chain| - 1]);
    }
  }

  /** An operation of some block of the chain spends the coin. */
  predicate SpentIn(chain: seq<Block>, id: string) {
    exists j, op :: 0 <= j < |chain| && op in AllOps(chain[j].transactions) && op.Spends() && op.CoinId() == id
  }

  lemma UnspentUnlessSpent(genesis: Coins, chain: seq<Block>, h: nat, id: string)
    requires h < |chain| && id in BlockCreates(chain[h])
    ensures id in CoinsAfter(genesis, chain) || SpentIn(chain, id)
  {
    CommittedCoinUnspent(genesis, chain, h, id);
    if j :| h <= j < |chain| && id in BlockSpends(chain[j]) {
      var op :| op in AllOps(chain[j].transactions) && op.Spends() && op.CoinId() == id;
    }
  }
}
