/** Runs without reorganisations: every block that is fetched, seen or added belongs to one chain.
    Bounded waiting, the exact contents of the coin cache, and how waits end. */
module ReorgFree {
  import opened Types
  import opened CoinEffects
  import opened WaitTables
  import opened Inputs
  import opened Protocol
  import opened ProtocolSafety

  /** The chain of a run, as the node serves it and as it is stored: position h has height h + 1. */
  datatype Plan = Plan(ergo: seq<FullBlock>, blocks: seq<Block>)

  function TxIds(b: FullBlock): set<string> {
    set tx | tx in b.transactions :: tx.id
  }

  predicate PlanOk(e: Env, w: Plan) {
    && |w.ergo| == |w.blocks|
    && ValidChain(e, w.blocks)
    && (forall h :: 0 <= h < |w.ergo| ==> w.ergo[h].header.height == h + 1 && TxIds(w.ergo[h]) == TxHashes(w.blocks[h]))
  }

  /** A valid chain: what a block must look up is unspent when its parent is the head. */
  predicate Covers(e: Env, w: Plan)
    requires |w.ergo| == |w.blocks|
  {
    forall h, c :: 0 <= h < |w.ergo| && c in RequiredInputs(w.ergo[h].transactions) ==>
                     c.inputId in StoredCoins(e, w.blocks[..h])
  }

  /** Coin identifiers are created once. */
  predicate DistinctCoins(e: Env, w: Plan) {
    && (forall i, j :: 0 <= i < j < |w.blocks| ==> BlockCreates(w.blocks[i]).Keys !! BlockCreates(w.blocks[j]).Keys)
    && (forall h :: 0 <= h < |w.blocks| ==> BlockCreates(w.blocks[h]).Keys !! e.genesisCoins.Keys)
  }

  /** A transaction is in one block only. */
  predicate DistinctTransactions(w: Plan) {
    forall i, j :: 0 <= i < j < |w.blocks| ==> TxHashes(w.blocks[i]) !! TxHashes(w.blocks[j])
  }

  /** The first position that neither is committed nor is being committed. */
  function NextPosition(s: State): nat {
    |s.chain| + (if s.sync.Adding? then 1 else 0)
  }

  predicate IsSeen(s: State, b: Block) {
    exists q :: q in s.seens && s.seens[q].block == b
  }

  predicate Running(f: Fetch) {
    !f.pc.Done?
  }

  /** What the syncer and the node are assumed to do: blocks are requested before they are added; a
      block is seen once, when its fetch has returned; it is added, in chain order, after it was
      seen; nothing is removed. */
  ghost predicate Allowed(w: Plan, s: State, a: Action)
    requires |w.ergo| == |w.blocks|
  {
    match a
    case FetchAction(p, step) =>
      step.StartFetch? ==>
        exists h :: NextPosition(s) <= h < |w.ergo| && step.ergoBlock == w.ergo[h] && !IsSeen(s, w.blocks[h])
    case SeenAction(q, step) =>
      step.StartSeen? ==>
        exists h :: NextPosition(s) <= h < |w.ergo| && step.block == w.blocks[h] && !IsSeen(s, w.blocks[h])
                    && forall p :: p in s.fetches && Running(s.fetches[p]) ==> s.fetches[p].block != w.ergo[h]
    case SyncAction(step) =>
      && !step.RemoveHead?
      && (step.StartAdd? ==>
            && |s.chain| < |w.blocks| && step.block == w.blocks[|s.chain|]
            && exists q :: q in s.seens && s.seens[q].block == step.block && s.seens[q].pc.Closed?)
  }

  /** A run that starts from a committed prefix of the plan and only takes allowed steps. */
  ghost predicate IsPlannedRun(e: Env, w: Plan, states: seq<State>, actions: seq<Action>) {
    && PlanOk(e, w)
    && IsRun(e, states, actions)
    && |states[0].chain| <= |w.blocks| && states[0].chain == w.blocks[..|states[0].chain|]
    && forall i {:trigger actions[i]} :: 0 <= i < |actions| ==> Allowed(w, states[i], actions[i])
  }

  // ---------- the invariant ----------

  predicate ChainPlanned(w: Plan, s: State) {
    && s.removals == 0
    && |s.chain| <= |w.blocks| && s.chain == w.blocks[..|s.chain|]
    && (s.sync.Adding? ==> |s.chain| < |w.blocks| && s.sync.block == w.blocks[|s.chain|])
    && (s.sync.Committed? || s.sync.Cleaned? ==> s.chain != [] && s.sync.block == s.chain[|s.chain| - 1])
  }

  /** The position of a block in the plan. */
  function Position(f: Fetch): int {
    f.block.header.height - 1
  }

  predicate FetchPlanned(w: Plan, s: State, f: Fetch)
    requires |w.ergo| == |w.blocks|
  {
    var h := Position(f);
    && 0 <= h < |w.ergo| && f.block == w.ergo[h]
    && (Running(f) ==> NextPosition(s) <= h && !IsSeen(s, w.blocks[h]))
  }

  predicate SeenPlanned(w: Plan, s: State, x: Seen) {
    var h := x.block.id.index - 1;
    && 0 <= h < |w.blocks| && x.block == w.blocks[h]
    && (!x.pc.Closed? ==> NextPosition(s) <= h)
  }

  predicate SeenOnce(s: State) {
    forall q, r :: q in s.seens && r in s.seens && s.seens[q].block == s.seens[r].block ==> q == r
  }

  /** The abort section of the last added block has yet to run. */
  predicate AbortPending(s: State) {
    s.sync.Committed? || s.sync.Cleaned?
  }

  /** An open entry waits for the block after next, or for the next one while an abort is pending. */
  predicate OpenOk(s: State, entry: Entry) {
    || entry.channelClosed
    || entry.earliestBlock >= |s.chain| + 2
    || (entry.earliestBlock == |s.chain| + 1 && AbortPending(s))
  }

  ghost predicate RInv(e: Env, w: Plan, s: State) {
    && PlanOk(e, w)
    && Inv(e, s)
    && ChainPlanned(w, s)
    && (forall p :: p in s.fetches ==> FetchPlanned(w, s, s.fetches[p]))
    && (forall q :: q in s.seens ==> SeenPlanned(w, s, s.seens[q]))
    && SeenOnce(s)
  }

  ghost predicate AllOpenOk(s: State) {
    forall k :: k in s.waiter.table ==> OpenOk(s, s.waiter.table[k])
  }

  // ---------- steps keep to the plan ----------

  lemma PlanIndex(e: Env, w: Plan, h: nat)
    requires PlanOk(e, w) && h < |w.blocks|
    ensures w.blocks[h].id.index == h + 1
  {
    assert Connects(e, w.blocks[..h], w.blocks[h]);
  }

  lemma ChainPlannedStep(e: Env, w: Plan, s: State, a: Action)
    requires |w.ergo| == |w.blocks| && ChainPlanned(w, s) && Enabled(e, s, a) && Allowed(w, s, a)
    ensures ChainPlanned(w, Do(e, s, a))
  {
    match a
    case FetchAction(p, step) => ChainUntouched(e, s, a);
    case SeenAction(q, step) => ChainUntouched(e, s, a);
    case SyncAction(step) =>
      if step.CommitAdd? {
        assert DoSync(e, s, step).chain == w.blocks[..|s.chain| + 1];
      }
  }

  lemma ChainUntouched(e: Env, s: State, a: Action)
    requires Enabled(e, s, a) && !a.SyncAction?
    ensures var s' := Do(e, s, a);
            s'.chain == s.chain && s'.sync == s.sync && s'.removals == s.removals && NextPosition(s') == NextPosition(s)
  {
  }

  lemma SeensUntouched(e: Env, s: State, a: Action)
    requires Enabled(e, s, a) && !a.SeenAction?
    ensures Do(e, s, a).seens == s.seens
  {
  }

  /** BlockSeen calls keep their block, and a new one starts unseen. */
  lemma SeenBlocksStep(s: State, q: nat, step: SeenStep)
    requires SeenEnabled(s, q, step)
    ensures forall r :: r in s.seens ==> r in DoSeen(s, q, step).seens && DoSeen(s, q, step).seens[r].block == s.seens[r].block
    ensures forall r :: r in DoSeen(s, q, step).seens ==> r in s.seens || (r == q && step.StartSeen?)
    ensures step.StartSeen? ==> DoSeen(s, q, step).seens[q] == Seen(step.block, Spawned)
    ensures DoSeen(s, q, step).fetches == s.fetches && NextPosition(DoSeen(s, q, step)) == NextPosition(s)
    ensures forall r :: r in s.seens && s.seens[r].pc.Closed? ==> DoSeen(s, q, step).seens[r].pc.Closed?
  {
  }

  lemma SeenOnceStep(w: Plan, s: State, q: nat, step: SeenStep)
    requires |w.ergo| == |w.blocks| && SeenEnabled(s, q, step) && Allowed(w, s, SeenAction(q, step)) && SeenOnce(s)
    ensures SeenOnce(DoSeen(s, q, step))
  {
    SeenBlocksStep(s, q, step);
    assert forall r :: r in s.seens && step.StartSeen? ==> s.seens[r].block != step.block;
  }

  lemma FetchPlannedSeen(w: Plan, s: State, q: nat, step: SeenStep, p: nat)
    requires |w.ergo| == |w.blocks| && SeenEnabled(s, q, step) && Allowed(w, s, SeenAction(q, step))
    requires DistinctBlocks(w)
    requires p in s.fetches && FetchPlanned(w, s, s.fetches[p])
    ensures FetchPlanned(w, DoSeen(s, q, step), s.fetches[p])
  {
    var f := s.fetches[p];
    SeenBlocksStep(s, q, step);
    if Running(f) {
      IsSeenStep(s, q, step, w.blocks[Position(f)]);
      if step.StartSeen? {
        var h :| NextPosition(s) <= h < |w.ergo| && step.block == w.blocks[h]
                 && forall x :: x in s.fetches && Running(s.fetches[x]) ==> s.fetches[x].block != w.ergo[h];
        assert h != Position(f);
      }
    }
  }

  lemma IsSeenStep(s: State, q: nat, step: SeenStep, b: Block)
    requires SeenEnabled(s, q, step)
    ensures IsSeen(DoSeen(s, q, step), b) ==> IsSeen(s, b) || (step.StartSeen? && step.block == b)
  {
    SeenBlocksStep(s, q, step);
  }

  /** FetchPlanned reads nothing but the BlockSeen calls and the taken part of the plan. */
  lemma FetchPlannedFrame(w: Plan, s: State, s': State, f: Fetch)
    requires |w.ergo| == |w.blocks| && FetchPlanned(w, s, f)
    requires s'.seens == s.seens && NextPosition(s') <= NextPosition(s)
    ensures FetchPlanned(w, s', f)
  {
    assert 0 <= Position(f) < |w.blocks|;
    assert IsSeen(s', w.blocks[Position(f)]) == IsSeen(s, w.blocks[Position(f)]);
  }

  predicate DistinctBlocks(w: Plan) {
    forall i, j :: 0 <= i < |w.blocks| && 0 <= j < |w.blocks| && w.blocks[i] == w.blocks[j] ==> i == j
  }

  lemma PlanDistinct(e: Env, w: Plan)
    requires PlanOk(e, w)
    ensures DistinctBlocks(w)
  {
    forall i, j | 0 <= i < |w.blocks| && 0 <= j < |w.blocks| && w.blocks[i] == w.blocks[j]
      ensures i == j
    {
      PlanIndex(e, w, i);
      PlanIndex(e, w, j);
    }
  }

  lemma FetchPlannedFetch(e: Env, w: Plan, s: State, p: nat, step: FetchStep)
    requires PlanOk(e, w) && FetchEnabled(s, p, step) && Allowed(w, s, FetchAction(p, step))
    requires p in s.fetches ==> FetchPlanned(w, s, s.fetches[p])
    ensures FetchPlanned(w, DoFetch(e, s, p, step), DoFetch(e, s, p, step).fetches[p])
  {
    var s' := DoFetch(e, s, p, step);
    if p in s.fetches {
      FetchKeepsBlock(e, s, p, step);
      FetchPlannedFrame(w, s, s', s.fetches[p]);
    } else {
      assert s'.seens == s.seens && NextPosition(s') == NextPosition(s);
      assert forall b :: IsSeen(s', b) == IsSeen(s, b);
    }
  }

  lemma FetchKeepsBlock(e: Env, s: State, p: nat, step: FetchStep)
    requires p in s.fetches && FetchEnabled(s, p, step)
    ensures var f, f' := s.fetches[p], DoFetch(e, s, p, step).fetches[p];
            && f'.block == f.block && (Running(f') ==> Running(f))
            && DoFetch(e, s, p, step).seens == s.seens && NextPosition(DoFetch(e, s, p, step)) == NextPosition(s)
  {
  }

  lemma FetchPlannedSync(e: Env, w: Plan, s: State, step: SyncStep, f: Fetch)
    requires PlanOk(e, w) && SyncEnabled(e, s, step) && Allowed(w, s, SyncAction(step)) && FetchPlanned(w, s, f)
    requires ChainPlanned(w, s)
    ensures FetchPlanned(w, DoSync(e, s, step), f)
  {
    if step.StartAdd? {
      assert IsSeen(s, w.blocks[|s.chain|]);
      assert forall b :: IsSeen(DoSync(e, s, step), b) == IsSeen(s, b);
    } else {
      FetchPlannedFrame(w, s, DoSync(e, s, step), f);
    }
  }

  lemma SeenPlannedSync(e: Env, w: Plan, s: State, step: SyncStep, q: nat)
    requires PlanOk(e, w) && SyncEnabled(e, s, step) && Allowed(w, s, SyncAction(step)) && ChainPlanned(w, s)
    requires SeenOnce(s) && q in s.seens && SeenPlanned(w, s, s.seens[q])
    ensures SeenPlanned(w, DoSync(e, s, step), s.seens[q])
  {
    if step.StartAdd? {
      var r :| r in s.seens && s.seens[r].block == step.block && s.seens[r].pc.Closed?;
      assert s.seens[q].block == step.block ==> q == r;
    }
  }

  /** A BlockSeen call keeps its block, and its closing section stays done. */
  lemma SeenCallStep(s: State, q: nat, step: SeenStep, r: nat)
    requires SeenEnabled(s, q, step) && r in s.seens
    ensures var x, x' := s.seens[r], DoSeen(s, q, step).seens[r];
            x'.block == x.block && (x.pc.Closed? ==> x'.pc.Closed?)
    ensures NextPosition(DoSeen(s, q, step)) == NextPosition(s)
  {
  }

  lemma SeenPlannedStays(w: Plan, s: State, s': State, x: Seen, x': Seen)
    requires SeenPlanned(w, s, x) && NextPosition(s') == NextPosition(s)
    requires x'.block == x.block && (x.pc.Closed? ==> x'.pc.Closed?)
    ensures SeenPlanned(w, s', x')
  {
  }

  lemma SeenPlannedStart(e: Env, w: Plan, s: State, q: nat, b: Block)
    requires PlanOk(e, w) && SeenEnabled(s, q, StartSeen(b)) && Allowed(w, s, SeenAction(q, StartSeen(b)))
    ensures SeenPlanned(w, DoSeen(s, q, StartSeen(b)), Seen(b, Spawned))
  {
    var h :| NextPosition(s) <= h < |w.ergo| && b == w.blocks[h];
    PlanIndex(e, w, h);
  }

  lemma SeenPlannedSeen(e: Env, w: Plan, s: State, q: nat, step: SeenStep, r: nat)
    requires PlanOk(e, w) && SeenEnabled(s, q, step) && Allowed(w, s, SeenAction(q, step))
    requires r in s.seens ==> SeenPlanned(w, s, s.seens[r])
    requires r in DoSeen(s, q, step).seens
    ensures SeenPlanned(w, DoSeen(s, q, step), DoSeen(s, q, step).seens[r])
  {
    var s' := DoSeen(s, q, step);
    if r in s.seens {
      SeenCallStep(s, q, step, r);
      SeenPlannedStays(w, s, s', s.seens[r], s'.seens[r]);
    } else {
      assert r == q && step.StartSeen? && s'.seens[r] == Seen(step.block, Spawned);
      SeenPlannedStart(e, w, s, q, step.block);
    }
  }

  /** Allowed steps keep to the plan. */
  lemma RInvStep(e: Env, w: Plan, s: State, a: Action)
    requires RInv(e, w, s) && Enabled(e, s, a) && Allowed(w, s, a)
    ensures RInv(e, w, Do(e, s, a))
  {
    var s' := Do(e, s, a);
    InvStep(e, s, a);
    ChainPlannedStep(e, w, s, a);
    PlanDistinct(e, w);
    forall p | p in s'.fetches
      ensures FetchPlanned(w, s', s'.fetches[p])
    {
      FetchPlannedStep(e, w, s, a, p);
    }
    forall q | q in s'.seens
      ensures SeenPlanned(w, s', s'.seens[q])
    {
      SeenPlannedStep(e, w, s, a, q);
    }
    if a.SeenAction? {
      SeenOnceStep(w, s, a.q, a.seenStep);
    } else {
      SeensUntouched(e, s, a);
    }
  }

  lemma FetchPlannedStep(e: Env, w: Plan, s: State, a: Action, p: nat)
    requires PlanOk(e, w) && ChainPlanned(w, s) && DistinctBlocks(w) && Enabled(e, s, a) && Allowed(w, s, a)
    requires p in Do(e, s, a).fetches && (p in s.fetches ==> FetchPlanned(w, s, s.fetches[p]))
    ensures FetchPlanned(w, Do(e, s, a), Do(e, s, a).fetches[p])
  {
    match a
    case FetchAction(x, step) =>
      if x == p {
        FetchPlannedFetch(e, w, s, p, step);
      } else {
        OthersUntouched(e, s, a, p);
        SeensUntouched(e, s, a);
        ChainUntouched(e, s, a);
        FetchPlannedFrame(w, s, Do(e, s, a), s.fetches[p]);
      }
    case SeenAction(q, step) =>
      OthersUntouched(e, s, a, p);
      FetchPlannedSeen(w, s, q, step, p);
    case SyncAction(step) =>
      OthersUntouched(e, s, a, p);
      FetchPlannedSync(e, w, s, step, s.fetches[p]);
  }

  lemma SeenPlannedStep(e: Env, w: Plan, s: State, a: Action, q: nat)
    requires PlanOk(e, w) && ChainPlanned(w, s) && SeenOnce(s) && Enabled(e, s, a) && Allowed(w, s, a)
    requires forall x :: x in s.seens ==> SeenPlanned(w, s, s.seens[x])
    requires q in Do(e, s, a).seens
    ensures SeenPlanned(w, Do(e, s, a), Do(e, s, a).seens[q])
  {
    match a
    case FetchAction(p, step) =>
      SeensUntouched(e, s, a);
      ChainUntouched(e, s, a);
    case SeenAction(r, step) => SeenPlannedSeen(e, w, s, r, step, q);
    case SyncAction(step) =>
      SeensUntouched(e, s, a);
      SeenPlannedSync(e, w, s, step, q);
  }

  lemma RInvInitial(e: Env, w: Plan, s: State)
    requires PlanOk(e, w) && Initial(e, s) && |s.chain| <= |w.blocks| && s.chain == w.blocks[..|s.chain|]
    ensures RInv(e, w, s)
  {
    InitialInv(e, s);
  }

  lemma {:induction false} PlannedRunInv(e: Env, w: Plan, states: seq<State>, actions: seq<Action>, i: nat)
    requires IsPlannedRun(e, w, states, actions) && i < |states|
    ensures RInv(e, w, states[i])
  {
    if i == 0 {
      RInvInitial(e, w, states[0]);
    } else {
      PlannedRunInv(e, w, states, actions, i - 1);
      assert Follows(e, states[i - 1], actions[i - 1], states[i - 1 + 1]);
      RInvStep(e, w, states[i - 1], actions[i - 1]);
    }
  }
}
