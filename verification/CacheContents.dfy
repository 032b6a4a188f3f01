/** What the optimistic coin cache holds in runs without reorganisations, and what a fetch can
    therefore read. */
module CacheContents {
  import opened Types
  import opened CoinEffects
  import opened Inputs
  import opened Protocol
  import opened ProtocolTheorems
  import opened ReorgFree

  /** BlockAdded has committed b and cleaned up after it. */
  predicate CleanedUp(s: State, b: Block) {
    b.id.index <= |s.chain| && !(s.sync.Committed? && b.id.index == |s.chain|)
  }

  /** The BlockSeen call q has filled the cache and its block has not been cleaned up. */
  predicate Fills(s: State, q: nat) {
    q in s.seens && HasInserted(s.seens[q]) && !CleanedUp(s, s.seens[q].block)
  }

  predicate Filled(s: State, q: nat, id: string) {
    Fills(s, q) && id in BlockCreates(s.seens[q].block)
  }

  /** The cache holds exactly the coins created by blocks whose insertion is done and whose cleanup
      is not. */
  ghost predicate CacheExact(s: State) {
    && (forall id :: id in s.cache ==> exists q :: Filled(s, q, id))
    && (forall q, id :: Filled(s, q, id) ==> id in s.cache && s.cache[id] == BlockCreates(s.seens[q].block)[id])
  }

  /** Two positions of the plan create different coins. */
  lemma CreatesApart(e: Env, w: Plan, i: int, j: int)
    requires DistinctCoins(e, w) && 0 <= i < |w.blocks| && 0 <= j < |w.blocks|
    ensures i == j || BlockCreates(w.blocks[i]).Keys !! BlockCreates(w.blocks[j]).Keys
  {
    if j < i {
      assert BlockCreates(w.blocks[j]).Keys !! BlockCreates(w.blocks[i]).Keys;
    }
  }

  lemma DistinctCreates(e: Env, w: Plan, s: State, q: nat, r: nat, id: string)
    requires DistinctCoins(e, w) && SeenOnce(s) && q in s.seens && r in s.seens
    requires SeenPlanned(w, s, s.seens[q]) && SeenPlanned(w, s, s.seens[r])
    requires id in BlockCreates(s.seens[q].block) && id in BlockCreates(s.seens[r].block)
    ensures q == r
  {
    var i, j := s.seens[q].block.id.index - 1, s.seens[r].block.id.index - 1;
    CreatesApart(e, w, i, j);
  }

  lemma CacheInsert(e: Env, w: Plan, s: State, q: nat)
    requires SeenEnabled(s, q, InsertSeen) && CacheExact(s) && DistinctCoins(e, w) && SeenOnce(s)
    requires forall x :: x in s.seens ==> SeenPlanned(w, s, s.seens[x])
    ensures CacheExact(DoSeen(s, q, InsertSeen))
  {
    var s' := DoSeen(s, q, InsertSeen);
    assert SeenPlanned(w, s, s.seens[q]) && Fills(s', q);
    assert forall x :: x != q ==> Fills(s', x) == Fills(s, x);
    assert forall x :: x in s.seens ==> s'.seens[x].block == s.seens[x].block;
    forall id | id in s'.cache
      ensures exists x :: Filled(s', x, id)
    {
      if id in BlockCreates(s.seens[q].block) {
        assert Filled(s', q, id);
      } else {
        var x :| Filled(s, x, id);
        assert Filled(s', x, id);
      }
    }
    forall x, id | Filled(s', x, id)
      ensures id in s'.cache && s'.cache[id] == BlockCreates(s'.seens[x].block)[id]
    {
      if x != q {
        assert Filled(s, x, id);
        if id in BlockCreates(s.seens[q].block) {
          DistinctCreates(e, w, s, q, x, id);
        }
      }
    }
  }

  lemma CommittedIsLast(e: Env, w: Plan, s: State)
    requires s.sync.Committed? && ChainPlanned(w, s) && PlanOk(e, w)
    ensures s.chain != [] && s.sync.block == w.blocks[|s.chain| - 1] && s.sync.block.id.index == |s.chain|
  {
    PlanIndex(e, w, |s.chain| - 1);
  }

  /** The cleanup ends the filling of the committed block and of no other. */
  lemma CleanedFills(e: Env, w: Plan, s: State, x: nat)
    requires s.sync.Committed? && s.sync.block.id.index == |s.chain| <= |w.blocks| && s.chain != []
    requires s.sync.block == w.blocks[|s.chain| - 1]
    requires x in s.seens && SeenPlanned(w, s, s.seens[x])
    ensures Fills(DoSync(e, s, CleanAdd), x) <==> Fills(s, x) && s.seens[x].block != s.sync.block
  {
  }

  lemma CleanedApart(e: Env, w: Plan, s: State, x: nat)
    requires s.chain != [] && |s.chain| <= |w.blocks| && DistinctCoins(e, w)
    requires x in s.seens && SeenPlanned(w, s, s.seens[x]) && s.seens[x].block != w.blocks[|s.chain| - 1]
    ensures BlockCreates(s.seens[x].block).Keys !! BlockCreates(w.blocks[|s.chain| - 1]).Keys
  {
    var i, j := s.seens[x].block.id.index - 1, |s.chain| - 1;
    CreatesApart(e, w, i, j);
  }

  /** The coins of the fillings that are left, when one block's coins are taken out. */
  lemma CacheWithout(s: State, s': State, b: Block)
    requires CacheExact(s) && s'.cache == s.cache - BlockCreates(b).Keys && s'.seens == s.seens
    requires forall x :: x in s.seens ==> (Fills(s', x) <==> Fills(s, x) && s.seens[x].block != b)
    requires forall x :: x in s.seens && s.seens[x].block != b ==> BlockCreates(s.seens[x].block).Keys !! BlockCreates(b).Keys
    ensures CacheExact(s')
  {
    forall id | id in s'.cache
      ensures exists x :: Filled(s', x, id)
    {
      var x :| Filled(s, x, id);
      assert Filled(s', x, id);
    }
    forall x, id | Filled(s', x, id)
      ensures id in s'.cache && s'.cache[id] == BlockCreates(s'.seens[x].block)[id]
    {
      assert Filled(s, x, id);
    }
  }

  lemma CacheClean(e: Env, w: Plan, s: State)
    requires s.sync.Committed? && CacheExact(s) && DistinctCoins(e, w) && ChainPlanned(w, s) && PlanOk(e, w)
    requires forall x :: x in s.seens ==> SeenPlanned(w, s, s.seens[x])
    ensures CacheExact(DoSync(e, s, CleanAdd))
  {
    CommittedIsLast(e, w, s);
    forall x | x in s.seens
      ensures Fills(DoSync(e, s, CleanAdd), x) <==> Fills(s, x) && s.seens[x].block != s.sync.block
      ensures s.seens[x].block != s.sync.block ==> BlockCreates(s.seens[x].block).Keys !! BlockCreates(s.sync.block).Keys
    {
      CleanedFills(e, w, s, x);
      if s.seens[x].block != s.sync.block {
        CleanedApart(e, w, s, x);
      }
    }
    CacheWithout(s, DoSync(e, s, CleanAdd), s.sync.block);
  }

  /** A step that moves neither insertions nor cleanups keeps the cache exact. */
  lemma CacheQuiet(s: State, s': State)
    requires CacheExact(s) && s'.cache == s.cache
    requires forall q :: Fills(s', q) <==> Fills(s, q)
    requires forall q :: Fills(s, q) ==> q in s'.seens && s'.seens[q].block == s.seens[q].block
    ensures CacheExact(s')
  {
    assert forall q, id :: Filled(s', q, id) <==> Filled(s, q, id);
  }

  lemma FillsSync(e: Env, s: State, step: SyncStep, q: nat)
    requires SyncEnabled(e, s, step) && !step.RemoveHead? && !step.CleanAdd?
    requires s.sync.Committed? ==> s.sync.block.id.index == |s.chain|
    ensures Fills(DoSync(e, s, step), q) <==> Fills(s, q)
    ensures DoSync(e, s, step).seens == s.seens && DoSync(e, s, step).cache == s.cache
  {
  }

  lemma FillsSeen(s: State, q: nat, step: SeenStep, x: nat)
    requires SeenEnabled(s, q, step) && !step.InsertSeen?
    ensures Fills(DoSeen(s, q, step), x) <==> Fills(s, x)
    ensures x in s.seens ==> x in DoSeen(s, q, step).seens && DoSeen(s, q, step).seens[x].block == s.seens[x].block
    ensures DoSeen(s, q, step).cache == s.cache
  {
  }

  lemma CacheSync(e: Env, w: Plan, s: State, step: SyncStep)
    requires PlanOk(e, w) && ChainPlanned(w, s) && CacheExact(s) && SeenOnce(s) && DistinctCoins(e, w)
    requires forall x :: x in s.seens ==> SeenPlanned(w, s, s.seens[x])
    requires SyncEnabled(e, s, step) && !step.RemoveHead?
    ensures CacheExact(DoSync(e, s, step))
  {
    if step.CleanAdd? {
      CacheClean(e, w, s);
    } else {
      forall q
        ensures Fills(DoSync(e, s, step), q) <==> Fills(s, q)
      {
        FillsSync(e, s, step, q);
      }
      CacheQuiet(s, DoSync(e, s, step));
    }
  }

  lemma CacheSeen(e: Env, w: Plan, s: State, q: nat, step: SeenStep)
    requires CacheExact(s) && SeenOnce(s) && DistinctCoins(e, w) && SeenEnabled(s, q, step)
    requires forall x :: x in s.seens ==> SeenPlanned(w, s, s.seens[x])
    ensures CacheExact(DoSeen(s, q, step))
  {
    if step.InsertSeen? {
      CacheInsert(e, w, s, q);
    } else {
      forall x
        ensures Fills(DoSeen(s, q, step), x) <==> Fills(s, x)
        ensures x in s.seens ==> x in DoSeen(s, q, step).seens && DoSeen(s, q, step).seens[x].block == s.seens[x].block
      {
        FillsSeen(s, q, step, x);
      }
      FillsSeen(s, q, step, q);
      CacheQuiet(s, DoSeen(s, q, step));
    }
  }

  lemma CacheStep(e: Env, w: Plan, s: State, a: Action)
    requires RInv(e, w, s) && DistinctCoins(e, w) && CacheExact(s) && Enabled(e, s, a) && Allowed(w, s, a)
    ensures CacheExact(Do(e, s, a))
  {
    match a
    case FetchAction(p, step) =>
      SeensUntouched(e, s, a);
      ChainUntouched(e, s, a);
      FetchKeepsCache(e, s, p, step);
      CacheQuiet(s, DoFetch(e, s, p, step));
    case SeenAction(q, step) => CacheSeen(e, w, s, q, step);
    case SyncAction(step) => CacheSync(e, w, s, step);
  }

  lemma FetchKeepsCache(e: Env, s: State, p: nat, step: FetchStep)
    requires FetchEnabled(s, p, step)
    ensures DoFetch(e, s, p, step).cache == s.cache
  {
  }

  /** In every state the cache is exact. */
  lemma {:induction false} CacheIsExact(e: Env, w: Plan, states: seq<State>, actions: seq<Action>, i: nat)
    requires IsPlannedRun(e, w, states, actions) && DistinctCoins(e, w) && i < |states|
    ensures CacheExact(states[i])
  {
    if i > 0 {
      CacheIsExact(e, w, states, actions, i - 1);
      PlannedRunInv(e, w, states, actions, i - 1);
      assert Follows(e, states[i - 1], actions[i - 1], states[i - 1 + 1]);
      CacheStep(e, w, states[i - 1], actions[i - 1]);
    }
  }

  /** A coin created by a block that BlockSeen has inserted is in the cache or in storage, unless a
      committed block has spent it. */
  lemma NoAvailabilityGap(e: Env, w: Plan, states: seq<State>, actions: seq<Action>, i: nat, q: nat, id: string)
    requires IsPlannedRun(e, w, states, actions) && DistinctCoins(e, w) && i < |states|
    requires q in states[i].seens && HasInserted(states[i].seens[q]) && id in BlockCreates(states[i].seens[q].block)
    ensures var s := states[i];
            || id in s.cache
            || id in StoredCoins(e, s.chain)
            || SpentIn(s.chain, id)
  {
    var s := states[i];
    CacheIsExact(e, w, states, actions, i);
    PlannedRunInv(e, w, states, actions, i);
    if CleanedUp(s, s.seens[q].block) {
      var h := s.seens[q].block.id.index - 1;
      assert SeenPlanned(w, s, s.seens[q]);
      assert s.chain[h] == s.seens[q].block;
      UnspentUnlessSpent(e.genesisCoins, s.chain, h, id);
    } else {
      assert Filled(s, q, id);
    }
  }

  // ---------- what a fetch can have read ----------

  /** c is the coin that the plan gives the identifier id: bootstrapped, or created by a block. */
  ghost predicate IsPlanCoin(e: Env, w: Plan, id: string, c: AccountCoin) {
    || (id in e.genesisCoins && e.genesisCoins[id] == c)
    || exists h :: 0 <= h < |w.blocks| && id in BlockCreates(w.blocks[h]) && BlockCreates(w.blocks[h])[id] == c
  }

  lemma PlanCoinUnique(e: Env, w: Plan, id: string, c: AccountCoin, d: AccountCoin)
    requires DistinctCoins(e, w) && IsPlanCoin(e, w, id, c) && IsPlanCoin(e, w, id, d)
    ensures c == d
  {
    if id in e.genesisCoins {
      forall h | 0 <= h < |w.blocks|
        ensures id !in BlockCreates(w.blocks[h])
      {
        assert BlockCreates(w.blocks[h]).Keys !! e.genesisCoins.Keys;
      }
    } else {
      var g :| 0 <= g < |w.blocks| && id in BlockCreates(w.blocks[g]) && BlockCreates(w.blocks[g])[id] == c;
      var h :| 0 <= h < |w.blocks| && id in BlockCreates(w.blocks[h]) && BlockCreates(w.blocks[h])[id] == d;
      CreatesApart(e, w, g, h);
    }
  }

  lemma {:induction false} StoredArePlanCoins(e: Env, w: Plan, n: nat, id: string)
    requires n <= |w.blocks| && id in StoredCoins(e, w.blocks[..n])
    ensures IsPlanCoin(e, w, id, StoredCoins(e, w.blocks[..n])[id])
  {
    if n > 0 {
      var last := w.blocks[n - 1];
      assert w.blocks[..n][..n - 1] == w.blocks[..n - 1];
      ApplyOpsOrigin(StoredCoins(e, w.blocks[..n - 1]), AllOps(last.transactions));
      if id !in BlockCreates(last) {
        StoredArePlanCoins(e, w, n - 1, id);
      }
    } else {
      assert w.blocks[..0] == [];
    }
  }

  lemma ReadableIsPlanCoin(e: Env, w: Plan, s: State, id: string, c: AccountCoin)
    requires PlanOk(e, w) && ChainPlanned(w, s) && CacheExact(s) && ReadableIn(e, s, id, c)
    requires forall x :: x in s.seens ==> SeenPlanned(w, s, s.seens[x])
    ensures IsPlanCoin(e, w, id, c)
  {
    if id in StoredCoins(e, s.chain) && StoredCoins(e, s.chain)[id] == c {
      StoredArePlanCoins(e, w, |s.chain|, id);
    } else {
      var q :| Filled(s, q, id);
      assert SeenPlanned(w, s, s.seens[q]);
    }
  }

  /** A successful findCoins call for the block at position h has found, for exactly the inputs that
      block must look up, the coins that are stored when the block's parent is the head. */
  lemma FetchFindsParentCoins(e: Env, w: Plan, states: seq<State>, actions: seq<Action>, i: nat, p: nat)
    requires IsPlannedRun(e, w, states, actions) && DistinctCoins(e, w) && Covers(e, w) && i < |states|
    requires p in states[i].fetches && states[i].fetches[p].pc == Done(Success)
    ensures var f := states[i].fetches[p];
            var h := Position(f);
            && 0 <= h < |w.blocks| && f.block == w.ergo[h]
            && f.found.Keys == InputIds(RequiredInputs(f.block.transactions))
            && forall id :: id in f.found ==>
                              id in StoredCoins(e, w.blocks[..h]) && f.found[id] == StoredCoins(e, w.blocks[..h])[id]
  {
    var f := states[i].fetches[p];
    var h := Position(f);
    PlannedRunInv(e, w, states, actions, i);
    assert FetchPlanned(w, states[i], f);
    FindCoinsExact(e, states, actions, i, p);
    forall id | id in f.found
      ensures id in StoredCoins(e, w.blocks[..h]) && f.found[id] == StoredCoins(e, w.blocks[..h])[id]
    {
      var c :| c in RequiredInputs(f.block.transactions) && c.inputId == id;
      var j :| 0 <= j < i && ReadableIn(e, states[j], id, f.found[id]);
      PlannedRunInv(e, w, states, actions, j);
      CacheIsExact(e, w, states, actions, j);
      ReadableIsPlanCoin(e, w, states[j], id, f.found[id]);
      StoredArePlanCoins(e, w, h, id);
      PlanCoinUnique(e, w, id, f.found[id], StoredCoins(e, w.blocks[..h])[id]);
    }
  }
}
