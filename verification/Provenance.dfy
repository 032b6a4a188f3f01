/** Where the coins that a fetch finds come from, in every run, reorganisations included: which coins
    linger in the cache, and when what was found belongs to the fetched block's own chain. */
module Provenance {
  import opened Types
  import opened CoinEffects
  import opened Inputs
  import opened Converter
  import opened Ledger
  import opened Protocol
  import opened ProtocolSafety
  import opened ProtocolTheorems
  import opened ReorgFree
  import opened EndToEnd

  // ---------- which coins are in the cache ----------

  /** The action is a BlockSeen call putting the coin id into the cache. */
  predicate Inserts(s: State, a: Action, id: string) {
    a.SeenAction? && a.seenStep == InsertSeen && a.q in s.seens && id in BlockCreates(s.seens[a.q].block)
  }

  /** The action is a BlockAdded call taking the coin id out of the cache. */
  predicate Cleans(s: State, a: Action, id: string) {
    a.SyncAction? && a.syncStep == CleanAdd && s.sync.Committed? && id in BlockCreates(s.sync.block)
  }

  /** What a step from s to s' does to the cached coin id. */
  predicate CacheMoves(s: State, a: Action, s': State, id: string) {
    if Inserts(s, a, id) then id in s'.cache && s'.cache[id] == BlockCreates(s.seens[a.q].block)[id]
    else if Cleans(s, a, id) then id !in s'.cache
    else (id in s'.cache <==> id in s.cache) && (id in s.cache ==> s'.cache[id] == s.cache[id])
  }

  lemma CacheAfter(e: Env, s: State, a: Action, id: string)
    requires Enabled(e, s, a)
    ensures CacheMoves(s, a, Do(e, s, a), id)
  {
  }

  /** Action k put the coin id into the cache, and nothing before i wrote it again or took it out. */
  predicate Lingers(states: seq<State>, actions: seq<Action>, i: nat, k: nat, id: string)
    requires k < i <= |actions| <= |states|
  {
    Inserts(states[k], actions[k], id)
    && forall m :: k < m < i ==> !Inserts(states[m], actions[m], id) && !Cleans(states[m], actions[m], id)
  }

  lemma LingersNext(states: seq<State>, actions: seq<Action>, n: nat, k: nat, id: string)
    requires k <= n < |actions| <= |states|
    ensures Lingers(states, actions, n + 1, k, id) <==>
              if k == n then Inserts(states[n], actions[n], id)
              else Lingers(states, actions, n, k, id) && !Inserts(states[n], actions[n], id) && !Cleans(states[n], actions[n], id)
  {
  }

  /** The state i has the coin id in its cache, as put there by action k. */
  predicate CachedBy(states: seq<State>, actions: seq<Action>, i: nat, k: nat, id: string)
    requires k < i < |states| && i <= |actions| && Inserts(states[k], actions[k], id)
  {
    id in states[i].cache && states[i].cache[id] == BlockCreates(states[k].seens[actions[k].q].block)[id]
  }

  lemma {:induction false} CacheFollowsHistory(states: seq<State>, actions: seq<Action>, i: nat, id: string)
    requires |states| == |actions| + 1 && i < |states| && id !in states[0].cache
    requires forall n :: 0 <= n < |actions| ==> CacheMoves(states[n], actions[n], states[n + 1], id)
    ensures id in states[i].cache <==> exists k :: 0 <= k < i && Lingers(states, actions, i, k, id)
    ensures forall k :: 0 <= k < i && Lingers(states, actions, i, k, id) ==> CachedBy(states, actions, i, k, id)
  {
    if i > 0 {
      var n := i - 1;
      CacheFollowsHistory(states, actions, n, id);
      assert CacheMoves(states[n], actions[n], states[n + 1], id);
      forall k | 0 <= k < i && Lingers(states, actions, i, k, id)
        ensures CachedBy(states, actions, i, k, id)
      {
        LingersNext(states, actions, n, k, id);
      }
      if Inserts(states[n], actions[n], id) {
        LingersNext(states, actions, n, n, id);
      } else if id in states[i].cache {
        var k :| 0 <= k < n && Lingers(states, actions, n, k, id);
        LingersNext(states, actions, n, k, id);
      }
    }
  }

  /** In every run a coin is in the cache exactly if some BlockSeen call put it there and no BlockAdded
      call took it out since; it is the coin of the last block that put it there. */
  lemma CacheHistory(e: Env, states: seq<State>, actions: seq<Action>, i: nat, id: string)
    requires IsRun(e, states, actions) && i < |states|
    ensures id in states[i].cache <==> exists k :: 0 <= k < i && Lingers(states, actions, i, k, id)
    ensures forall k :: 0 <= k < i && Lingers(states, actions, i, k, id) ==> CachedBy(states, actions, i, k, id)
  {
    forall n | 0 <= n < |actions|
      ensures CacheMoves(states[n], actions[n], states[n + 1], id)
    {
      assert Follows(e, states[n], actions[n], states[n + 1]);
      CacheAfter(e, states[n], actions[n], id);
    }
    CacheFollowsHistory(states, actions, i, id);
  }

  // ---------- where found coins come from ----------

  /** The block b has filled the cache or is committed. */
  predicate Appeared(s: State, b: Block) {
    b in s.chain || exists q :: q in s.seens && HasInserted(s.seens[q]) && s.seens[q].block == b
  }

  predicate Makes(b: Block, id: string, c: AccountCoin) {
    id in BlockCreates(b) && BlockCreates(b)[id] == c
  }

  lemma {:induction false} StoredFromChain(e: Env, chain: seq<Block>, id: string) returns (b: Option<Block>)
    requires id in StoredCoins(e, chain)
    ensures b.None? ==> id in e.genesisCoins && e.genesisCoins[id] == StoredCoins(e, chain)[id]
    ensures b.Some? ==> b.value in chain && Makes(b.value, id, StoredCoins(e, chain)[id])
  {
    if chain == [] {
      b := None;
    } else {
      var init, last := chain[..|chain| - 1], chain[|chain| - 1];
      ApplyOpsOrigin(StoredCoins(e, init), AllOps(last.transactions));
      if id in BlockCreates(last) {
        b := Some(last);
      } else {
        b := StoredFromChain(e, init, id);
      }
    }
  }

  /** A BlockSeen call that has filled the cache stays one that has. */
  lemma {:induction false} InsertedStays(e: Env, states: seq<State>, actions: seq<Action>, k: nat, i: nat, q: nat)
    requires IsRun(e, states, actions) && k < i < |states|
    requires actions[k] == SeenAction(q, InsertSeen)
    ensures q in states[k].seens && q in states[i].seens && HasInserted(states[i].seens[q])
    ensures states[i].seens[q].block == states[k].seens[q].block
    decreases i
  {
    assert Follows(e, states[k], actions[k], states[k + 1]);
    if i > k + 1 {
      InsertedStays(e, states, actions, k, i - 1, q);
      assert Follows(e, states[i - 1], actions[i - 1], states[i - 1 + 1]);
      InsertedOnce(e, states[i - 1], actions[i - 1], q);
    }
  }

  lemma InsertedOnce(e: Env, s: State, a: Action, q: nat)
    requires Enabled(e, s, a) && q in s.seens && HasInserted(s.seens[q])
    ensures var s' := Do(e, s, a); q in s'.seens && HasInserted(s'.seens[q]) && s'.seens[q].block == s.seens[q].block
  {
    if a.SeenAction? {
      InsertedInSeen(s, a.q, a.seenStep, q);
    } else {
      SeensUntouched(e, s, a);
    }
  }

  lemma InsertedInSeen(s: State, r: nat, step: SeenStep, q: nat)
    requires SeenEnabled(s, r, step) && q in s.seens && HasInserted(s.seens[q])
    ensures var s' := DoSeen(s, r, step); q in s'.seens && HasInserted(s'.seens[q]) && s'.seens[q].block == s.seens[q].block
  {
  }

  lemma ReadableSource(e: Env, states: seq<State>, actions: seq<Action>, j: nat, id: string, c: AccountCoin) returns (b: Option<Block>)
    requires IsRun(e, states, actions) && j < |states| && ReadableIn(e, states[j], id, c)
    ensures b.None? ==> id in e.genesisCoins && e.genesisCoins[id] == c
    ensures b.Some? ==> Appeared(states[j], b.value) && Makes(b.value, id, c)
  {
    var s := states[j];
    if id in StoredCoins(e, s.chain) && StoredCoins(e, s.chain)[id] == c {
      b := StoredFromChain(e, s.chain, id);
    } else {
      CacheHistory(e, states, actions, j, id);
      var k :| 0 <= k < j && Lingers(states, actions, j, k, id);
      InsertedStays(e, states, actions, k, j, actions[k].q);
      b := Some(s.seens[actions[k].q].block);
    }
  }

  /** Every coin that a call has found was bootstrapped, or created by a block that had been seen or
      committed by the time the coin was read. */
  lemma FoundCoinSource(e: Env, states: seq<State>, actions: seq<Action>, i: nat, p: nat, id: string)
    returns (j: nat, b: Option<Block>)
    requires IsRun(e, states, actions) && i < |states|
    requires p in states[i].fetches && id in states[i].fetches[p].found
    ensures j < i && ReadableIn(e, states[j], id, states[i].fetches[p].found[id])
    ensures b.None? ==> id in e.genesisCoins && e.genesisCoins[id] == states[i].fetches[p].found[id]
    ensures b.Some? ==> Appeared(states[j], b.value) && Makes(b.value, id, states[i].fetches[p].found[id])
  {
    j := FoundOrigin(e, states, actions, i, p, id);
    b := ReadableSource(e, states, actions, j, id, states[i].fetches[p].found[id]);
  }

  // ---------- coins of the fetched block's own chain ----------

  predicate Known(e: Env, b: Block) {
    b.id.hash in e.blocks && e.blocks[b.id.hash] == b
  }

  /** BlockSeen is called with blocks of the node. */
  predicate SeesKnownBlocks(e: Env, actions: seq<Action>) {
    forall k :: 0 <= k < |actions| && actions[k].SeenAction? && actions[k].seenStep.StartSeen? ==>
                  Known(e, actions[k].seenStep.block)
  }

  /** A coin identifier names one coin, on whichever branch it is created. */
  ghost predicate IdsNameCoins(e: Env) {
    && (forall a, b, id :: Known(e, a) && Known(e, b) && id in BlockCreates(a) && id in BlockCreates(b) ==>
                             BlockCreates(a)[id] == BlockCreates(b)[id])
    && (forall b, id :: Known(e, b) && id in BlockCreates(b) && id in e.genesisCoins ==>
                          BlockCreates(b)[id] == e.genesisCoins[id])
  }

  lemma {:induction false} SeenAreKnown(e: Env, states: seq<State>, actions: seq<Action>, i: nat, q: nat)
    requires IsRun(e, states, actions) && SeesKnownBlocks(e, actions) && i < |states| && q in states[i].seens
    ensures Known(e, states[i].seens[q].block)
  {
    if i > 0 {
      var s, a := states[i - 1], actions[i - 1];
      assert Follows(e, s, a, states[i - 1 + 1]);
      SeenFrom(e, s, a, q);
      if q in s.seens {
        SeenAreKnown(e, states, actions, i - 1, q);
      }
    }
  }

  lemma SeenFrom(e: Env, s: State, a: Action, q: nat)
    requires Enabled(e, s, a) && q in Do(e, s, a).seens
    ensures if q in s.seens then Do(e, s, a).seens[q].block == s.seens[q].block
            else a.SeenAction? && a.seenStep == StartSeen(Do(e, s, a).seens[q].block)
  {
    if a.SeenAction? {
      SeenBlocksStep(s, a.q, a.seenStep);
    } else {
      SeensUntouched(e, s, a);
    }
  }

  lemma ChainIsKnown(e: Env, chain: seq<Block>, b: Block)
    requires ValidChain(e, chain) && b in chain
    ensures Known(e, b)
  {
    var h :| 0 <= h < |chain| && chain[h] == b;
    assert Connects(e, chain[..h], chain[h]);
  }

  /** c is what the identifier id names. */
  ghost predicate Named(e: Env, id: string, c: AccountCoin) {
    (id in e.genesisCoins && e.genesisCoins[id] == c) || exists b :: Known(e, b) && Makes(b, id, c)
  }

  lemma NamedOnce(e: Env, id: string, c: AccountCoin, d: AccountCoin)
    requires IdsNameCoins(e) && Named(e, id, c) && Named(e, id, d)
    ensures c == d
  {
  }

  lemma StoredAreNamed(e: Env, chain: seq<Block>, id: string)
    requires ValidChain(e, chain) && id in StoredCoins(e, chain)
    ensures Named(e, id, StoredCoins(e, chain)[id])
  {
    var b := StoredFromChain(e, chain, id);
    if b.Some? {
      ChainIsKnown(e, chain, b.value);
    }
  }

  lemma FoundAreNamed(e: Env, states: seq<State>, actions: seq<Action>, i: nat, p: nat, id: string)
    requires IsRun(e, states, actions) && SeesKnownBlocks(e, actions) && i < |states|
    requires p in states[i].fetches && id in states[i].fetches[p].found
    ensures Named(e, id, states[i].fetches[p].found[id])
  {
    var j, b := FoundCoinSource(e, states, actions, i, p, id);
    if b.Some? {
      if b.value in states[j].chain {
        RunInv(e, states, actions, j);
        ChainIsKnown(e, states[j].chain, b.value);
      } else {
        var q :| q in states[j].seens && HasInserted(states[j].seens[q]) && states[j].seens[q].block == b.value;
        SeenAreKnown(e, states, actions, j, q);
      }
    }
  }

  /** In every run, what a successful call has found are the coins of a given chain exactly if that
      chain has the inputs the block must look up. For the block's own chain this asks that the node
      serves a block whose inputs exist; otherwise a coin of another branch has been taken. */
  lemma FoundOnChainIff(e: Env, states: seq<State>, actions: seq<Action>, i: nat, p: nat, own: seq<Block>)
    requires IsRun(e, states, actions) && SeesKnownBlocks(e, actions) && IdsNameCoins(e) && i < |states|
    requires p in states[i].fetches && states[i].fetches[p].pc == Done(Success) && ValidChain(e, own)
    ensures var f := states[i].fetches[p];
            (forall id :: id in f.found ==> id in StoredCoins(e, own) && f.found[id] == StoredCoins(e, own)[id])
            <==> InputIds(RequiredInputs(f.block.transactions)) <= StoredCoins(e, own).Keys
  {
    FindCoinsExact(e, states, actions, i, p);
    var f := states[i].fetches[p];
    forall id | id in f.found && id in StoredCoins(e, own)
      ensures f.found[id] == StoredCoins(e, own)[id]
    {
      FoundAreNamed(e, states, actions, i, p, id);
      StoredAreNamed(e, own, id);
      NamedOnce(e, id, f.found[id], StoredCoins(e, own)[id]);
    }
  }

  /** In every run, reorganisations included, a successful fetch of a block that is valid on its own
      chain converts it into the block that belongs there, from whichever branch its coins were read. */
  lemma FetchYieldsItsBlock(
      node: TreeToAddress, e: Env, states: seq<State>, actions: seq<Action>, i: nat, p: nat, own: seq<Block>, b: Block)
    requires IsRun(e, states, actions) && SeesKnownBlocks(e, actions) && IdsNameCoins(e) && i < |states|
    requires p in states[i].fetches && states[i].fetches[p].pc == Done(Success)
    requires ValidChain(e, own) && WellFormed(StoredCoins(e, own)) && ValidAt(node, StoredCoins(e, own), states[i].fetches[p].block, b)
    ensures ConvertBlock(node, states[i].fetches[p].found, states[i].fetches[p].block) == Ok(b)
  {
    var f, u := states[i].fetches[p], StoredCoins(e, own);
    PrefetchedByParent(node, u, f.block.transactions);
    FoundOnChainIff(e, states, actions, i, p, own);
    FindCoinsExact(e, states, actions, i, p);
    ConvertsFromRequired(node, u, f.found, f.block, b);
  }
}
