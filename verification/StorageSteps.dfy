/** What commits and removals do to the stored chain and to its coins. */
module StorageSteps {
  import opened Types
  import opened CoinEffects
  import opened Converter
  import opened Ledger
  import opened Protocol
  import opened ProtocolSafety

  /** In every run the stored chain grows by exactly the block that is being added, shrinks by exactly
      its last block, and is otherwise left alone. */
  lemma ChainHistory(e: Env, states: seq<State>, actions: seq<Action>, i: nat)
    requires IsRun(e, states, actions) && i < |actions|
    ensures var s, s' := states[i], states[i + 1];
            match actions[i]
            case SyncAction(CommitAdd) => s.sync.Adding? && s'.chain == s.chain + [s.sync.block] && s'.sync == Committed(s.sync.block)
            case SyncAction(RemoveHead) => s.chain != [] && s.chain == s'.chain + [s.chain[|s.chain| - 1]]
            case _ => s'.chain == s.chain
  {
    assert Follows(e, states[i], actions[i], states[i + 1]);
    match actions[i]
    case FetchAction(p, step) => FetchKeepsChain(e, states[i], p, step);
    case SeenAction(q, step) =>
    case SyncAction(step) =>
  }

  lemma FetchKeepsChain(e: Env, s: State, p: nat, step: FetchStep)
    requires FetchEnabled(s, p, step)
    ensures DoFetch(e, s, p, step).chain == s.chain && DoFetch(e, s, p, step).cache == s.cache
  {
  }

  /** Committing a block that was converted from a valid Ergo block turns the stored coins into Ergo's
      unspent boxes after that block. */
  lemma CommitApplies(
      node: TreeToAddress, e: Env, states: seq<State>, actions: seq<Action>, i: nat, ergo: FullBlock, pre: Coins)
    requires IsRun(e, states, actions) && i < |actions| && actions[i] == SyncAction(CommitAdd) && states[i].sync.Adding?
    requires WellFormed(StoredCoins(e, states[i].chain))
    requires ConvertedAt(node, StoredCoins(e, states[i].chain), ergo, pre, states[i].sync.block)
    ensures StoredCoins(e, states[i + 1].chain) == ErgoApplyAll(node, StoredCoins(e, states[i].chain), ergo.transactions)
  {
    ChainHistory(e, states, actions, i);
    var s, s' := states[i], states[i + 1];
    assert s'.chain[..|s'.chain| - 1] == s.chain;
    BlockMeaning(node, StoredCoins(e, s.chain), pre, ergo.transactions);
  }

  /** Removing the head gives back the coins before it: those of the shorter chain are the present ones
      with the operations of the removed block undone in reverse order. The new head is the removed
      block's parent, and the cache and the wait table are left alone. */
  lemma RemovalUndoes(
      node: TreeToAddress, e: Env, states: seq<State>, actions: seq<Action>, i: nat, ergo: FullBlock, pre: Coins)
    requires IsRun(e, states, actions) && i < |actions| && actions[i] == SyncAction(RemoveHead) && states[i].chain != []
    requires var n := |states[i].chain| - 1;
             var u := StoredCoins(e, states[i].chain[..n]);
             WellFormed(u) && ConvertedAt(node, u, ergo, pre, states[i].chain[n])
    ensures var s, s' := states[i], states[i + 1];
            var removed := s.chain[|s.chain| - 1];
            && s'.chain == s.chain[..|s.chain| - 1]
            && StoredCoins(e, s'.chain) == UndoOps(StoredCoins(e, s.chain), AllOps(removed.transactions))
            && (s'.chain != [] ==> s'.chain[|s'.chain| - 1].id == removed.parent)
            && s'.cache == s.cache && s'.waiter == s.waiter
  {
    var s, n := states[i], |states[i].chain| - 1;
    assert Follows(e, s, actions[i], states[i + 1]);
    assert ValidChain(e, s.chain) by {
      RunInv(e, states, actions, i);
    }
    LastConnects(e, s.chain);
    var u := StoredCoins(e, s.chain[..n]);
    BlockMeaning(node, u, pre, ergo.transactions);
    UndoCoins(u, AllOps(s.chain[n].transactions));
  }
}
