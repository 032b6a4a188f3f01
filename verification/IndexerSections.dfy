/** The indexer's own fields and the sections of BlockSeen, BlockAdded and findCoin that update them.
    Each section is one action of the protocol; the state functions it is proved against are the
    ones the protocol's actions use. */
module IndexerSections {
  import opened Types
  import opened CoinEffects
  import opened WaitTables
  import opened WaitTableClass
  import opened Protocol
  import opened Signs

  /** How findCoin leaves the waiter lock: by a hard error, for another pass, or having registered. */
  datatype LockedResult = HeadLookupFailed | Retry | Missing

  function LockedOutcome(startSeen: int, seen: int, coinHead: Option<BlockIdentifier>, currHead: Option<BlockIdentifier>): LockedResult {
    if currHead.None? then HeadLookupFailed
    else if currHead == coinHead && seen == startSeen then Missing
    else Retry
  }

  /** The live operations have the coin changes of ops. */
  predicate ShowsChanges(live: seq<LiveOp>, ops: seq<Operation>) {
    |live| == |ops| && forall k :: 0 <= k < |ops| ==> live[k].coinChange == ops[k].coinChange
  }

  class Indexer {
    /** Coins created by blocks that were seen but not yet added. */
    var coinCache: Coins
    /** How many blocks were seen. */
    var seen: int
    const waiter: WaitTable

    constructor ()
      ensures coinCache == map[] && seen == 0 && fresh(waiter)
      ensures waiter.Valid() && waiter.model == EmptyWaiter
    {
      coinCache, seen := map[], 0;
      waiter := new WaitTable();
    }

    /** BlockSeen: eagerly adds the coins that a block creates. */
    method InsertCreatedCoins(block: Block)
      modifies this`coinCache
      ensures coinCache == old(coinCache) + BlockCreates(block)
    {
      var txs := block.transactions;
      for t := 0 to |txs|
        invariant coinCache == old(coinCache) + CreatedCoins(AllOps(txs[..t]))
      {
        InsertTxCoins(txs[t].operations);
        OneMoreTx(old(coinCache), txs, t);
      }
      assert txs[..|txs|] == txs;
    }

    method InsertTxCoins(ops: seq<Operation>)
      modifies this`coinCache
      ensures coinCache == old(coinCache) + CreatedCoins(ops)
    {
      for o := 0 to |ops|
        invariant coinCache == old(coinCache) + CreatedCoins(ops[..o])
      {
        OneMoreOp(ops, o);
        var op := ops[o];
        if op.coinChange.None? {
          continue;
        }
        if op.coinChange.value.action != CoinCreated {
          continue;
        }
        coinCache := coinCache[op.coinChange.value.coinId := AccountCoin(op.account, op.coinChange.value.coinId, op.amount)];
      }
      assert ops[..|ops|] == ops;
    }

    /** BlockAdded: drops the coins of a block that storage holds now. */
    method RemoveCreatedCoins(block: Block)
      modifies this`coinCache
      ensures coinCache == old(coinCache) - BlockCreates(block).Keys
    {
      var txs := block.transactions;
      for t := 0 to |txs|
        invariant coinCache == old(coinCache) - CreatedCoins(AllOps(txs[..t])).Keys
      {
        RemoveTxCoins(txs[t].operations);
        OneMoreTx(old(coinCache), txs, t);
      }
      assert txs[..|txs|] == txs;
    }

    method RemoveTxCoins(ops: seq<Operation>)
      modifies this`coinCache
      ensures coinCache == old(coinCache) - CreatedCoins(ops).Keys
    {
      for o := 0 to |ops|
        invariant coinCache == old(coinCache) - CreatedCoins(ops[..o]).Keys
      {
        OneMoreOp(ops, o);
        var op := ops[o];
        if op.coinChange.None? {
          continue;
        }
        if op.coinChange.value.action != CoinCreated {
          continue;
        }
        coinCache := coinCache - {op.coinChange.value.coinId};
      }
      assert ops[..|ops|] == ops;
    }

    /** findCoin under the waiter lock: currHead is None when the head cannot be read. The listener is
        added only if neither the head nor the seen counter has moved. */
    method MatchAndRegister(
        inputCtx: InputCtx, height: int, startSeen: int, coinHead: Option<BlockIdentifier>, currHead: Option<BlockIdentifier>)
      returns (r: LockedResult)
      requires waiter.Valid()
      modifies waiter, waiter.table.Values
      ensures waiter.Valid()
      ensures r == LockedOutcome(startSeen, seen, coinHead, currHead)
      ensures waiter.model == if r == Missing then Register(old(waiter.model), inputCtx.txId, height) else old(waiter.model)
    {
      if currHead.None? {
        return HeadLookupFailed;
      }
      if currHead != coinHead || seen != startSeen {
        return Retry;
      }
      waiter.RegisterListener(inputCtx.txId, height);
      return Missing;
    }

    /** BlockSeen without interference; seeBlockFails is the storage call's error, after which the
        waits of the block stay open. */
    method BlockSeen(block: Block, seeBlockFails: bool) returns (ok: bool)
      requires waiter.Valid() && Consistent(waiter.model)
      modifies this, waiter, waiter.table.Values
      ensures coinCache == old(coinCache) + BlockCreates(block) && seen == old(seen) + 1
      ensures waiter.Valid() && ok == !seeBlockFails
      ensures waiter.model == if ok then CloseAll(old(waiter.model), TxHashes(block), false) else old(waiter.model)
    {
      InsertCreatedCoins(block);
      seen := seen + 1;
      if seeBlockFails {
        return false;
      }
      var txHashes := seq(|block.transactions|, i requires 0 <= i < |block.transactions| => block.transactions[i].hash);
      HashesOf(block, txHashes);
      waiter.CloseSeen(txHashes);
      return true;
    }

    /** BlockAdded without interference; live are the block's operations with their amount objects, and
        addFails is the commit's error. The spent amounts before operation n, the first that spends
        something that is not a number, are normalised even when the call fails; nothing else is. */
    method BlockAdded(block: Block, live: seq<seq<LiveOp>>, addFails: bool) returns (ok: bool, ghost n: nat)
      requires waiter.Valid() && Consistent(waiter.model)
      requires ShowsChanges(Flat(live), AllOps(block.transactions))
      requires forall op :: op in Flat(live) ==> op.coinChange.Some?
      modifies this`coinCache, waiter, waiter.table.Values, SpentAmounts(Flat(live))
      ensures n <= |Flat(live)| && waiter.Valid()
      ensures NormalisedIn(SpentAmounts(Flat(live)[..n]), old(Snapshot(Flat(live))))
      ensures SpendsNumbers(Flat(live)[..n], old(Snapshot(Flat(live))))
      ensures n < |Flat(live)| ==> Flat(live)[n].Spends() && old(Flat(live)[n].amount.value) == NotANumber
      ensures ok <==> n == |Flat(live)| && !addFails
      ensures !ok ==> coinCache == old(coinCache) && waiter.model == old(waiter.model)
      ensures ok ==>
                && coinCache == old(coinCache) - BlockCreates(block).Keys
                && waiter.model == CloseAll(old(waiter.model), StaleAt(old(waiter.model), block.id.index), true)
    {
      ok, n := EnsureNegativeValueInputs(live);
      if !ok {
        return;
      }
      if addFails {
        ok := false;
        return;
      }
      FinishAdding(block, SpentAmounts(Flat(live)));
    }

    /** BlockAdded after its commit: the cleanup and the abort section; amounts are left alone. */
    method FinishAdding(block: Block, ghost amounts: set<Amount>)
      requires waiter.Valid() && Consistent(waiter.model)
      modifies this`coinCache, waiter, waiter.table.Values
      ensures waiter.Valid()
      ensures coinCache == old(coinCache) - BlockCreates(block).Keys
      ensures waiter.model == CloseAll(old(waiter.model), StaleAt(old(waiter.model), block.id.index), true)
      ensures forall a :: a in amounts ==> a.value == old(a.value)
    {
      RemoveCreatedCoins(block);
      waiter.AbortStale(block.id.index);
      forall a | a in amounts
        ensures a.value == old(a.value)
      {
        ghost var o: object := a;
        assert !(o is WaitTableEntry) && !(o is WaitTable);
      }
    }
  }

  /** The protocol's actions of a fetch that holds the waiter lock, one after the other. */
  function LockedSection(e: Env, s: State, p: nat, ioError: bool): State
    requires FetchEnabled(s, p, MatchHead(ioError)) && s.fetches[p].todo != []
  {
    var matched := DoFetch(e, s, p, MatchHead(ioError));
    if !matched.fetches[p].pc.HeadMatched? then matched
    else
      var steady := DoFetch(e, matched, p, MatchSeen);
      if !steady.fetches[p].pc.SeenMatched? then steady
      else DoFetch(e, steady, p, AddListener)
  }

  /** The method and the protocol agree on the section: the same wait table, the listener recorded with
      its entry's channel exactly when one was added, and the lock given back. */
  lemma LockedSectionAgrees(e: Env, s: State, p: nat, ioError: bool)
    requires FetchEnabled(s, p, MatchHead(ioError)) && s.fetches[p].todo != []
    ensures var f := s.fetches[p];
            var currHead := if ioError then None else HeadOf(s.chain);
            var r := LockedOutcome(f.pc.look.startSeen, s.seen, f.pc.look.head, currHead);
            var s' := LockedSection(e, s, p, ioError);
            var f' := s'.fetches[p];
            && s'.lock == None
            && s'.waiter == (if r == Missing then Register(s.waiter, f.todo[0].txId, f.block.header.height) else s.waiter)
            && (if r == HeadLookupFailed then f'.pc == Done(HardError) else f'.pc == Looking)
            && (if r == Missing
                then f'.todo == f.todo[1..] && f'.missed == f.missed + [Registration(f.todo[0], s'.waiter.table[f.todo[0].txId].chan)]
                else f'.todo == f.todo && f'.missed == f.missed)
  {
  }

  lemma HashesOf(block: Block, txHashes: seq<string>)
    requires |txHashes| == |block.transactions|
    requires forall i :: 0 <= i < |txHashes| ==> txHashes[i] == block.transactions[i].hash
    ensures (set h | h in txHashes) == TxHashes(block)
  {
    forall h | h in TxHashes(block)
      ensures h in txHashes
    {
      var i :| 0 <= i < |block.transactions| && block.transactions[i].hash == h;
      assert txHashes[i] == h;
    }
  }

  /** The created coins after one more operation, and after one more transaction. */
  lemma OneMoreOp(ops: seq<Operation>, o: nat)
    requires o < |ops|
    ensures CreatedCoins(ops[..o + 1])
         == if ops[o].Creates() then CreatedCoins(ops[..o])[ops[o].CoinId() := CoinOf(ops[o])] else CreatedCoins(ops[..o])
  {
    assert ops[..o + 1][..o] == ops[..o];
  }

  lemma OneMoreTx(cache: Coins, txs: seq<Transaction>, t: nat)
    requires t < |txs|
    ensures var before, more, after := CreatedCoins(AllOps(txs[..t])), CreatedCoins(txs[t].operations), CreatedCoins(AllOps(txs[..t + 1]));
            cache + before + more == cache + after && cache - before.Keys - more.Keys == cache - after.Keys
  {
    CreatedUpTo(txs, t);
    TwoMerges(cache, CreatedCoins(AllOps(txs[..t])), CreatedCoins(txs[t].operations));
  }

  lemma CreatedUpTo(txs: seq<Transaction>, t: nat)
    requires t < |txs|
    ensures CreatedCoins(AllOps(txs[..t + 1])) == CreatedCoins(AllOps(txs[..t])) + CreatedCoins(txs[t].operations)
  {
    assert txs[..t + 1][..t] == txs[..t];
    CreatedConcat(AllOps(txs[..t]), txs[t].operations);
  }

  lemma TwoMerges(cache: Coins, a: Coins, b: Coins)
    ensures cache + a + b == cache + (a + b)
    ensures cache - a.Keys - b.Keys == cache - (a + b).Keys
  {
  }
}
