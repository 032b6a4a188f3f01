/** What wakes a waiting fetch, and how a fetch that has waited can end. */
module WaitOutcomes {
  import opened Types
  import opened Converter
  import opened WaitTables
  import opened Protocol
  import opened ProtocolSafety
  import opened ProtocolTheorems
  import opened ReorgFree
  import opened BoundedWaiting
  import opened EndToEnd

  // ---------- what wakes a fetch ----------

  /** The action closes the waits on key: a BlockSeen for a block that contains the transaction key, or
      a BlockAdded for the block before the earliest one that waits on it. */
  predicate Wakes(s: State, a: Action, key: string) {
    match a
    case FetchAction(_, _) => false
    case SeenAction(q, step) => step.CloseSeen? && q in s.seens && key in TxHashes(s.seens[q].block)
    case SyncAction(step) =>
      && step.AbortAdd? && s.sync.Cleaned? && key in s.waiter.table
      && s.waiter.table[key].earliestBlock == s.sync.block.id.index + 1
  }

  /** Closing keys closes the channel of an open entry exactly if its key is among them. */
  lemma CloseAllCloses(w: Waiter, keys: set<string>, abort: bool, key: string)
    requires Consistent(w) && key in w.table && w.table[key].chan !in w.closed
    ensures w.table[key].chan in CloseAll(w, keys, abort).closed <==> key in keys
  {
    assert EntryConsistent(w, w.table[key]);
    assert key in keys <==> key in OpenAmong(w, keys);
  }

  lemma WakesIff(e: Env, s: State, a: Action, key: string)
    requires Consistent(s.waiter) && Enabled(e, s, a)
    requires key in s.waiter.table && s.waiter.table[key].chan !in s.waiter.closed
    ensures s.waiter.table[key].chan in Do(e, s, a).waiter.closed <==> Wakes(s, a, key)
  {
    match a
    case FetchAction(p, step) =>
      assert DoFetch(e, s, p, step).waiter.closed == s.waiter.closed;
    case SeenAction(q, step) =>
      if step.CloseSeen? {
        CloseAllCloses(s.waiter, TxHashes(s.seens[q].block), false, key);
      }
    case SyncAction(step) =>
      if step.AbortAdd? {
        CloseAllCloses(s.waiter, StaleAt(s.waiter, s.sync.block.id.index), true, key);
      }
  }

  /** In every run, reorganisations included, an action wakes a fetch that waits on an open channel
      exactly if it closes the waits on the spending transaction. So the BlockSeen of the block that
      creates the coin wakes the fetch exactly if that block also contains the spending transaction. */
  lemma WokenIff(e: Env, states: seq<State>, actions: seq<Action>, i: nat, p: nat)
    requires IsRun(e, states, actions) && i < |actions|
    requires p in states[i].fetches && states[i].fetches[p].pc.Waiting?
    requires states[i].fetches[p].pc.chan !in states[i].waiter.closed
    ensures var f := states[i].fetches[p];
            && f.missed != []
            && (f.pc.chan in states[i + 1].waiter.closed <==> Wakes(states[i], actions[i], f.missed[0].input.txId))
  {
    var s := states[i];
    assert Follows(e, s, actions[i], states[i + 1]);
    assert Consistent(s.waiter) && WaitsOnFirst(s.waiter, s.fetches[p]) by {
      RunInv(e, states, actions, i);
      InvAt(e, s, p);
      FirstRegistration(s.waiter, s.fetches[p]);
    }
    WakesIff(e, s, actions[i], s.fetches[p].missed[0].input.txId);
  }

  /** In every run an entry that stays is closed exactly when its waits are closed, and aborted exactly
      when that is the doing of a BlockAdded that finds it open; a BlockSeen never aborts. */
  lemma FlagsRiseIff(e: Env, states: seq<State>, actions: seq<Action>, i: nat, key: string)
    requires IsRun(e, states, actions) && i < |actions|
    requires key in states[i].waiter.table && key in states[i + 1].waiter.table
    ensures var before, after := states[i].waiter.table[key], states[i + 1].waiter.table[key];
            var wakes := Wakes(states[i], actions[i], key);
            && after.chan == before.chan
            && (after.channelClosed <==> before.channelClosed || wakes)
            && (after.aborted <==> before.aborted || (wakes && actions[i].SyncAction? && !before.channelClosed))
  {
    assert Follows(e, states[i], actions[i], states[i + 1]);
    match actions[i]
    case FetchAction(p, step) => FlagsInFetch(e, states[i], p, step, key);
    case SeenAction(q, step) => FlagsInSeen(states[i], q, step, key);
    case SyncAction(step) => FlagsInSync(e, states[i], step, key);
  }

  predicate SameFlags(before: Entry, after: Entry) {
    after.chan == before.chan && after.channelClosed == before.channelClosed && after.aborted == before.aborted
  }

  lemma FlagsInFetch(e: Env, s: State, p: nat, step: FetchStep, key: string)
    requires FetchEnabled(s, p, step) && key in s.waiter.table && key in DoFetch(e, s, p, step).waiter.table
    ensures SameFlags(s.waiter.table[key], DoFetch(e, s, p, step).waiter.table[key])
  {
  }

  lemma FlagsInSeen(s: State, q: nat, step: SeenStep, key: string)
    requires SeenEnabled(s, q, step) && key in s.waiter.table
    ensures key in DoSeen(s, q, step).waiter.table
    ensures var before, after := s.waiter.table[key], DoSeen(s, q, step).waiter.table[key];
            && after.chan == before.chan && after.aborted == before.aborted
            && (after.channelClosed <==> before.channelClosed || Wakes(s, SeenAction(q, step), key))
  {
  }

  lemma FlagsInSync(e: Env, s: State, step: SyncStep, key: string)
    requires SyncEnabled(e, s, step) && key in s.waiter.table
    ensures key in DoSync(e, s, step).waiter.table
    ensures var before, after := s.waiter.table[key], DoSync(e, s, step).waiter.table[key];
            var wakes := Wakes(s, SyncAction(step), key);
            && after.chan == before.chan
            && (after.channelClosed <==> before.channelClosed || wakes)
            && (after.aborted <==> before.aborted || (wakes && !before.channelClosed))
  {
  }

  predicate WaitsOnFirst(w: Waiter, f: Fetch) {
    && f.pc.Waiting? && f.missed != []
    && f.missed[0].input.txId in w.table
    && w.table[f.missed[0].input.txId].chan == f.pc.chan
  }

  // ---------- how a fetch ends ----------

  /** On a valid plan the header check never reports an orphan. */
  lemma PlannedNotOrphaned(node: TreeToAddress, e: Env, w: Plan, s: State, f: Fetch)
    requires ValidPlan(node, e, w) && ChainPlanned(w, s) && FetchPlanned(w, s, f) && ValidChain(e, s.chain)
    ensures !Orphaned(s.chain, f.block)
  {
    var h := Position(f);
    PlannedAt(node, e, w, h);
    NextNotOrphaned(node, e, s.chain, w.blocks, StoredCoins(e, w.blocks[..h]), f.block, h);
  }

  lemma NextNotOrphaned(node: TreeToAddress, e: Env, chain: seq<Block>, blocks: seq<Block>, u: Coins, b: FullBlock, h: nat)
    requires ValidChain(e, chain) && chain <= blocks && h < |blocks| && Connects(e, blocks[..h], blocks[h])
    requires ConvertBlock(node, u, b) == Ok(blocks[h])
    ensures !Orphaned(chain, b)
  {
    OrphanedMeansDetached(node, e, chain, u, b);
    if chain != [] {
      LastConnects(e, chain);
      assert h == |chain| ==> blocks[..h] == chain;
    }
  }

  /** A fetch that has registered nothing so far. */
  predicate Untroubled(f: Fetch) {
    && f.missed == [] && f.retry == [] && !f.shouldAbort
    && !f.pc.Waits? && !f.pc.Waiting? && !f.pc.Woken? && f.pc != Done(Orphan)
  }

  lemma StaysUntroubled(e: Env, s: State, p: nat, step: FetchStep)
    requires FetchEnabled(s, p, step) && DoFetch(e, s, p, step).fetches[p].missed == []
    requires p in s.fetches ==> Untroubled(s.fetches[p]) && !Orphaned(s.chain, s.fetches[p].block)
    ensures Untroubled(DoFetch(e, s, p, step).fetches[p])
  {
  }

  predicate NeverRegistered(states: seq<State>, i: nat, p: nat)
    requires i < |states|
  {
    forall j :: 0 <= j <= i && p in states[j].fetches ==> states[j].fetches[p].missed == []
  }

  /** A fetch that never registered a listener has not been aborted either. */
  lemma {:induction false} NeverRegisteredUntroubled(
      node: TreeToAddress, e: Env, w: Plan, states: seq<State>, actions: seq<Action>, i: nat, p: nat)
    requires IsPlannedRun(e, w, states, actions) && ValidPlan(node, e, w) && i < |states|
    requires NeverRegistered(states, i, p) && p in states[i].fetches
    ensures Untroubled(states[i].fetches[p])
  {
    var s, a := states[i - 1], actions[i - 1];
    assert Follows(e, s, a, states[i - 1 + 1]);
    if p in s.fetches {
      NeverRegisteredUntroubled(node, e, w, states, actions, i - 1, p);
      assert !Orphaned(s.chain, s.fetches[p].block) by {
        PlannedRunInv(e, w, states, actions, i - 1);
        RunInv(e, states, actions, i - 1);
        PlannedNotOrphaned(node, e, w, s, s.fetches[p]);
      }
    }
    if a.FetchAction? && a.p == p {
      StaysUntroubled(e, s, p, a.fetchStep);
    } else {
      OthersUntouched(e, s, a, p);
    }
  }

  /** Without reorganisations, a findCoins call that ran to its end succeeded exactly if it never
      registered a listener; every other one returned the orphan error. */
  lemma SucceedsIffNeverRegistered(
      node: TreeToAddress, e: Env, w: Plan, states: seq<State>, actions: seq<Action>, i: nat, p: nat)
    requires IsPlannedRun(e, w, states, actions) && ValidPlan(node, e, w) && DistinctTransactions(w) && i < |states|
    requires p in states[i].fetches && states[i].fetches[p].pc.Done? && !GaveUp(states[i].fetches[p])
    ensures states[i].fetches[p].pc == Done(if NeverRegistered(states, i, p) then Success else Orphan)
  {
    if NeverRegistered(states, i, p) {
      NeverRegisteredUntroubled(node, e, w, states, actions, i, p);
    } else {
      var j :| 0 <= j <= i && p in states[j].fetches && states[j].fetches[p].missed != [];
      WaitsNeverSucceed(e, w, states, actions, j, i, p);
    }
    assert states[i].fetches[p].pc != Done(NotInWaiter) by {
      PlannedRunInv(e, w, states, actions, i);
      InvAt(e, states[i], p);
    }
    var outcome := states[i].fetches[p].pc.outcome;
    assert outcome == Success || outcome == Orphan;
  }
}
