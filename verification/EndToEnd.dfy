/** The lookup protocol and the conversion together: in a run without reorganisations over a valid
    chain, whatever a fetch read and whenever it read it, it yields the one correct block. */
module EndToEnd {
  import opened Types
  import opened CoinEffects
  import opened Inputs
  import opened Converter
  import opened Resolution
  import opened Ledger
  import opened Protocol
  import opened ProtocolSafety
  import opened ProtocolTheorems
  import opened ReorgFree
  import opened CacheContents

  /** Each Ergo block is valid on the coins its parent leaves, and the stored block is its
      conversion against those coins. */
  predicate ValidPlan(node: TreeToAddress, e: Env, w: Plan) {
    && |w.ergo| == |w.blocks|
    && ValidChain(e, w.blocks)
    && WellFormed(e.genesisCoins)
    && forall h :: 0 <= h < |w.blocks| ==> ValidAt(node, StoredCoins(e, w.blocks[..h]), w.ergo[h], w.blocks[h])
  }

  predicate ValidAt(node: TreeToAddress, u: Coins, ergo: FullBlock, b: Block) {
    ValidTxs(node, u, ergo.transactions) && ConvertBlock(node, u, ergo) == Ok(b)
  }

  lemma {:induction false} ErgoKeys(node: TreeToAddress, u: Coins, txs: seq<ErgoTransaction>)
    ensures ErgoApplyAll(node, u, txs).Keys <= u.Keys + OutputsOf(txs)
  {
    if txs != [] {
      var last := txs[|txs| - 1];
      ErgoKeys(node, u, txs[..|txs| - 1]);
      OutputCoinIds(node, last.outputs);
      forall id | id in OutputCoins(node, last.outputs)
        ensures id in OutputIds(last)
      {
        var j :| 0 <= j < |last.outputs| && last.outputs[j].boxId == id;
        assert last.outputs[j] in last.outputs;
      }
    }
  }

  /** What a valid list of transactions must look up is unspent before it. */
  lemma {:induction false} RequiredAreUnspent(node: TreeToAddress, u: Coins, txs: seq<ErgoTransaction>, c: InputCtx)
    requires ValidTxs(node, u, txs) && c in RequiredInputs(txs)
    ensures c.inputId in u
  {
    var init, last := txs[..|txs| - 1], txs[|txs| - 1];
    if c in RequiredInputs(init) {
      RequiredAreUnspent(node, u, init, c);
    } else {
      var i := ExternalIsInput(last.id, last.inputs, OutputsOf(txs), c);
      ErgoKeys(node, u, init);
    }
  }

  lemma {:induction false} ExternalIsInput(id: string, inputs: seq<ErgoInput>, known: set<string>, c: InputCtx) returns (i: nat)
    requires c in ExternalInputs(id, inputs, known)
    ensures i < |inputs| && inputs[i].boxId == c.inputId && c.inputId !in known
  {
    if c in ExternalInputs(id, inputs[..|inputs| - 1], known) {
      i := ExternalIsInput(id, inputs[..|inputs| - 1], known, c);
    } else {
      i := |inputs| - 1;
    }
  }

  lemma CommittedWellFormed(node: TreeToAddress, u: Coins, ergo: FullBlock, b: Block)
    requires WellFormed(u) && ValidAt(node, u, ergo, b)
    ensures WellFormed(ApplyBlock(u, b))
  {
    PrefetchedByParent(node, u, ergo.transactions);
    BlockMeaning(node, u, u, ergo.transactions);
  }

  lemma StoredNext(e: Env, w: Plan, h: nat)
    requires h < |w.blocks|
    ensures StoredCoins(e, w.blocks[..h + 1]) == ApplyBlock(StoredCoins(e, w.blocks[..h]), w.blocks[h])
  {
    assert w.blocks[..h + 1][..h] == w.blocks[..h];
  }

  /** Along a valid plan the stored coins are well formed. */
  lemma {:induction false} StoredWellFormed(node: TreeToAddress, e: Env, w: Plan, n: nat)
    requires ValidPlan(node, e, w) && n <= |w.blocks|
    ensures WellFormed(StoredCoins(e, w.blocks[..n]))
  {
    if n > 0 {
      StoredWellFormed(node, e, w, n - 1);
      var u := StoredCoins(e, w.blocks[..n - 1]);
      assert ValidAt(node, u, w.ergo[n - 1], w.blocks[n - 1]);
      CommittedWellFormed(node, u, w.ergo[n - 1], w.blocks[n - 1]);
      StoredNext(e, w, n - 1);
    } else {
      assert w.blocks[..0] == [];
    }
  }

  lemma PrefetchedByParent(node: TreeToAddress, u: Coins, txs: seq<ErgoTransaction>)
    requires ValidTxs(node, u, txs)
    ensures Prefetched(u, u, txs)
  {
    forall c | c in RequiredInputs(txs)
      ensures c.inputId in u
    {
      RequiredAreUnspent(node, u, txs, c);
    }
  }

  /** The transactions of a conversion carry the identifiers of the originals. */
  lemma {:induction false} ConvertedHashes(node: TreeToAddress, pre: Coins, txs: seq<ErgoTransaction>)
    requires ConvertTxs(node, map[], pre, txs).Ok?
    ensures var parsed := ConvertTxs(node, map[], pre, txs).value;
            |parsed| == |txs| && forall i :: 0 <= i < |txs| ==> parsed[i].hash == txs[i].id
  {
    if txs != [] {
      ConvertLast(node, pre, txs);
      var n, all := |txs| - 1, ConvertTxs(node, map[], pre, txs).value;
      ConvertedHashes(node, pre, txs[..n]);
      assert |all| == n + 1 && all[..n] == ConvertTxs(node, map[], pre, txs[..n]).value;
      TxKeepsId(node, Made(all[..n]), pre, txs[n]);
      forall i | 0 <= i < |txs|
        ensures all[i].hash == txs[i].id
      {
        assert i < n ==> all[i] == all[..n][i] && txs[i] == txs[..n][i];
      }
    }
  }

  lemma TxKeepsId(node: TreeToAddress, created: Coins, pre: Coins, tx: ErgoTransaction)
    ensures ConvertTx(node, created, pre, tx).Ok? ==> ConvertTx(node, created, pre, tx).value.hash == tx.id
  {
  }

  lemma SameTransactionIds(node: TreeToAddress, u: Coins, ergo: FullBlock, b: Block)
    requires ConvertBlock(node, u, ergo) == Ok(b)
    ensures TxIds(ergo) == TxHashes(b)
  {
    ConvertedHashes(node, u, ergo.transactions);
    forall id
      ensures id in TxIds(ergo) <==> id in TxHashes(b)
    {
      if id in TxIds(ergo) {
        var i :| 0 <= i < |ergo.transactions| && ergo.transactions[i].id == id;
        assert b.transactions[i] in b.transactions;
      }
      if id in TxHashes(b) {
        var i :| 0 <= i < |b.transactions| && b.transactions[i].hash == id;
        assert ergo.transactions[i] in ergo.transactions;
      }
    }
  }

  /** A valid plan is a plan for which the waiting results hold. */
  lemma ValidPlanCovers(node: TreeToAddress, e: Env, w: Plan)
    requires ValidPlan(node, e, w)
    ensures PlanOk(e, w) && Covers(e, w)
  {
    forall h | 0 <= h < |w.ergo|
      ensures w.ergo[h].header.height == h + 1 && TxIds(w.ergo[h]) == TxHashes(w.blocks[h])
    {
      assert ValidAt(node, StoredCoins(e, w.blocks[..h]), w.ergo[h], w.blocks[h]);
      assert Connects(e, w.blocks[..h], w.blocks[h]);
      SameTransactionIds(node, StoredCoins(e, w.blocks[..h]), w.ergo[h], w.blocks[h]);
    }
    forall h, c | 0 <= h < |w.ergo| && c in RequiredInputs(w.ergo[h].transactions)
      ensures c.inputId in StoredCoins(e, w.blocks[..h])
    {
      assert ValidAt(node, StoredCoins(e, w.blocks[..h]), w.ergo[h], w.blocks[h]);
      RequiredAreUnspent(node, StoredCoins(e, w.blocks[..h]), w.ergo[h].transactions, c);
    }
  }

  /** Whether the block would be next on the head but names another parent. */
  predicate Detached(chain: seq<Block>, b: Block) {
    && chain != []
    && b.id.index == chain[|chain| - 1].id.index + 1
    && b.parent != chain[|chain| - 1].id
  }

  lemma OrphanedMeansDetached(node: TreeToAddress, e: Env, chain: seq<Block>, found: Coins, ergo: FullBlock)
    requires ValidChain(e, chain) && ConvertBlock(node, found, ergo).Ok?
    ensures Orphaned(chain, ergo) <==> Detached(chain, ConvertBlock(node, found, ergo).value)
  {
    if chain != [] {
      LastConnects(e, chain);
    }
  }

  /** The header check fails hard when the head cannot be read, and reports an orphan exactly when the
      block, once converted, would be next and does not name the head as its parent. */
  lemma OrphanedIffDetached(node: TreeToAddress, e: Env, s: State, p: nat, ioError: bool, found: Coins)
    requires ValidChain(e, s.chain) && FetchEnabled(s, p, CheckHeader(ioError))
    requires ConvertBlock(node, found, s.fetches[p].block).Ok?
    ensures DoFetch(e, s, p, CheckHeader(ioError)).fetches[p].pc
         == if ioError then Done(HardError)
            else if Detached(s.chain, ConvertBlock(node, found, s.fetches[p].block).value) then Done(Orphan)
            else Looking
  {
    OrphanedMeansDetached(node, e, s.chain, found, s.fetches[p].block);
  }

  /** In every run, reorganisations included, the block of a successful findCoins call converts, given
      good amounts and trees, exactly when the boxes that its transactions take from their own outputs
      were found; a missing input is reported only when one of them was not. */
  lemma BlockConvertsIff(node: TreeToAddress, e: Env, states: seq<State>, actions: seq<Action>, i: nat, p: nat)
    requires IsRun(e, states, actions) && i < |states|
    requires p in states[i].fetches && states[i].fetches[p].pc == Done(Success)
    ensures var f := states[i].fetches[p];
            var r, fetched := ConvertBlock(node, f.found, f.block), SelfSpendsFetched(f.block.transactions, f.found);
            && (r.Ok? ==> fetched)
            && (r.Err? && r.error.MissingInput? ==> !fetched)
            && (BlockIsGood(node, f.found, f.block) ==> (r.Ok? <==> fetched))
            && (NoSelfSpend(f.block.transactions) ==> fetched)
  {
    FindCoinsExact(e, states, actions, i, p);
    FetchedResolvesIff(node, states[i].fetches[p].found, states[i].fetches[p].block);
  }

  lemma PlannedAt(node: TreeToAddress, e: Env, w: Plan, h: nat)
    requires ValidPlan(node, e, w) && h < |w.blocks|
    ensures ValidAt(node, StoredCoins(e, w.blocks[..h]), w.ergo[h], w.blocks[h])
    ensures Connects(e, w.blocks[..h], w.blocks[h]) && WellFormed(StoredCoins(e, w.blocks[..h]))
  {
    StoredWellFormed(node, e, w, h);
  }

  /** Prefetching the required inputs of a valid block from its parent's coins is enough to convert it. */
  lemma ConvertsFromRequired(node: TreeToAddress, u: Coins, found: Coins, ergo: FullBlock, b: Block)
    requires WellFormed(u) && ValidAt(node, u, ergo, b) && Prefetched(u, found, ergo.transactions)
    ensures ConvertBlock(node, found, ergo) == Ok(b)
  {
    PrefetchedByParent(node, u, ergo.transactions);
    BlockMeaning(node, u, u, ergo.transactions);
    BlockMeaning(node, u, found, ergo.transactions);
  }

  /** Whatever ran beside it, a fetch whose findCoins call succeeds converts its block without error
      and into exactly the block that belongs at that height. */
  lemma FetchYieldsThePlannedBlock(
      node: TreeToAddress, e: Env, w: Plan, states: seq<State>, actions: seq<Action>, i: nat, p: nat)
    requires IsPlannedRun(e, w, states, actions) && ValidPlan(node, e, w) && DistinctCoins(e, w)
    requires i < |states| && p in states[i].fetches && states[i].fetches[p].pc == Done(Success)
    ensures var f := states[i].fetches[p];
            1 <= f.block.header.height <= |w.blocks| && ConvertBlock(node, f.found, f.block) == Ok(w.blocks[f.block.header.height - 1])
  {
    ValidPlanCovers(node, e, w);
    FetchFindsParentCoins(e, w, states, actions, i, p);
    var f := states[i].fetches[p];
    var h := Position(f);
    PlannedAt(node, e, w, h);
    ConvertsFromRequired(node, StoredCoins(e, w.blocks[..h]), f.found, f.block, w.blocks[h]);
  }
}
