/** In runs without reorganisations no wait for a block outlives the addition of its parent, and a
    wait can only end by being aborted. */
module BoundedWaiting {
  import opened Types
  import opened WaitTables
  import opened Inputs
  import opened Protocol
  import opened ProtocolSafety
  import opened ReorgFree

  /** What a fetch knows of its input when it comes to register a listener. */
  predicate MissedIn(e: Env, s: State, f: Fetch) {
    && f.pc.SeenMatched? && f.todo != []
    && f.todo[0] in RequiredInputs(f.block.transactions)
    && f.todo[0].inputId !in StoredCoins(e, f.pc.look.snap)
    && AtOrOneAhead(s, f.pc.look.snap)
  }

  lemma PassRead(e: Env, s: State, f: Fetch)
    requires f.pc.SeenMatched? && s.removals == 0
    requires PhaseOk(s.waiter, f) && LookOk(e, s, f) && CoverOk(f)
    ensures MissedIn(e, s, f)
  {
    assert HeadOk(s, f.pc.look, f.pc.removals);
  }

  predicate IsAhead(s: State, height: int) {
    height >= |s.chain| + 2 || (height == |s.chain| + 1 && AbortPending(s))
  }

  /** A snapshot that lacks what the parent's coins contain is older than the parent. */
  lemma SnapshotBehind(e: Env, w: Plan, s: State, snap: seq<Block>, h: nat, id: string)
    requires ChainPlanned(w, s) && AtOrOneAhead(s, snap) && |s.chain| <= h < |w.blocks|
    requires id in StoredCoins(e, w.blocks[..h]) && id !in StoredCoins(e, snap)
    ensures IsAhead(s, h + 1)
  {
    assert snap == s.chain || snap == s.chain[..|s.chain| - 1];
    assert snap == w.blocks[..|snap|];
    assert |snap| != h;
  }

  lemma MissedIsAhead(e: Env, w: Plan, s: State, f: Fetch)
    requires |w.ergo| == |w.blocks| && Covers(e, w) && ChainPlanned(w, s)
    requires FetchPlanned(w, s, f) && MissedIn(e, s, f)
    ensures IsAhead(s, f.block.header.height)
  {
    SnapshotBehind(e, w, s, f.pc.look.snap, Position(f), f.todo[0].inputId);
  }

  lemma AddIsAhead(e: Env, w: Plan, s: State, p: nat)
    requires RInv(e, w, s) && Covers(e, w) && p in s.fetches && s.fetches[p].pc.SeenMatched?
    ensures IsAhead(s, s.fetches[p].block.header.height)
  {
    assert MissedIn(e, s, s.fetches[p]) by {
      InvAt(e, s, p);
      PassRead(e, s, s.fetches[p]);
    }
    MissedIsAhead(e, w, s, s.fetches[p]);
  }

  /** A fetch that registers a listener is at least two blocks ahead of the head, or one ahead of a
      head whose abort section has yet to run. */
  lemma RegistersAhead(e: Env, w: Plan, states: seq<State>, actions: seq<Action>, i: nat)
    requires IsPlannedRun(e, w, states, actions) && Covers(e, w) && i < |actions|
    requires actions[i].FetchAction? && actions[i].fetchStep == AddListener
    ensures IsAhead(states[i], states[i].fetches[actions[i].p].block.header.height)
  {
    assert Follows(e, states[i], actions[i], states[i + 1]);
    PlannedRunInv(e, w, states, actions, i);
    AddIsAhead(e, w, states[i], actions[i].p);
  }

  lemma OpenAdd(s: State, p: nat)
    requires AllOpenOk(s) && FetchEnabled(s, p, AddListener)
    requires IsAhead(s, s.fetches[p].block.header.height)
    ensures AllOpenOk(DoAddListener(s, p))
  {
    var s' := DoAddListener(s, p);
    forall k | k in s'.waiter.table
      ensures OpenOk(s', s'.waiter.table[k])
    {
      assert k in s.waiter.table ==> OpenOk(s, s.waiter.table[k]);
    }
  }

  lemma OpenDrop(s: State, p: nat)
    requires AllOpenOk(s) && FetchEnabled(s, p, DropListener)
    ensures AllOpenOk(DoDropListener(s, p))
  {
    var s' := DoDropListener(s, p);
    forall k | k in s'.waiter.table
      ensures OpenOk(s', s'.waiter.table[k])
    {
      assert OpenOk(s, s.waiter.table[k]);
    }
  }

  lemma OpenSeen(s: State, q: nat, step: SeenStep)
    requires AllOpenOk(s) && SeenEnabled(s, q, step)
    ensures AllOpenOk(DoSeen(s, q, step))
  {
    var s' := DoSeen(s, q, step);
    forall k | k in s'.waiter.table
      ensures OpenOk(s', s'.waiter.table[k])
    {
      assert OpenOk(s, s.waiter.table[k]);
    }
  }

  lemma OpenSync(e: Env, w: Plan, s: State, step: SyncStep)
    requires PlanOk(e, w) && ChainPlanned(w, s) && AllOpenOk(s)
    requires SyncEnabled(e, s, step) && Allowed(w, s, SyncAction(step))
    ensures AllOpenOk(DoSync(e, s, step))
  {
    var s' := DoSync(e, s, step);
    if step.AbortAdd? {
      PlanIndex(e, w, |s.chain| - 1);
      assert s.sync.block.id.index == |s.chain|;
    }
    forall k | k in s'.waiter.table
      ensures OpenOk(s', s'.waiter.table[k])
    {
      assert OpenOk(s, s.waiter.table[k]);
      if step.AbortAdd? && !s.waiter.table[k].channelClosed && s.waiter.table[k].earliestBlock == |s.chain| + 1 {
        assert k in OpenAmong(s.waiter, StaleAt(s.waiter, s.sync.block.id.index));
      }
    }
  }

  lemma OpenQuiet(s: State, s': State)
    requires AllOpenOk(s) && s'.waiter == s.waiter && s'.chain == s.chain && s'.sync == s.sync
    ensures AllOpenOk(s')
  {
    forall k | k in s'.waiter.table
      ensures OpenOk(s', s'.waiter.table[k])
    {
      assert OpenOk(s, s.waiter.table[k]);
    }
  }

  lemma OpenStep(e: Env, w: Plan, s: State, a: Action)
    requires RInv(e, w, s) && Covers(e, w) && AllOpenOk(s) && Enabled(e, s, a) && Allowed(w, s, a)
    ensures AllOpenOk(Do(e, s, a))
  {
    match a
    case FetchAction(p, step) =>
      if step.AddListener? {
        AddIsAhead(e, w, s, p);
        OpenAdd(s, p);
      } else if step.DropListener? {
        OpenDrop(s, p);
      } else {
        OpenQuiet(s, PutFetch(s, p, QuietStep(e, s, p, step)));
      }
    case SeenAction(q, step) => OpenSeen(s, q, step);
    case SyncAction(step) => OpenSync(e, w, s, step);
  }

  lemma {:induction false} RunOpenOk(e: Env, w: Plan, states: seq<State>, actions: seq<Action>, i: nat)
    requires IsPlannedRun(e, w, states, actions) && Covers(e, w) && i < |states|
    ensures AllOpenOk(states[i])
  {
    if i > 0 {
      RunOpenOk(e, w, states, actions, i - 1);
      PlannedRunInv(e, w, states, actions, i - 1);
      assert Follows(e, states[i - 1], actions[i - 1], states[i - 1 + 1]);
      OpenStep(e, w, states[i - 1], actions[i - 1]);
    }
  }

  /** The index of the stored head; 0 when nothing is stored. */
  function HeadIndex(s: State): int {
    if s.chain == [] then 0 else s.chain[|s.chain| - 1].id.index
  }

  /** Every open entry is for the block after next, or for the next block while the head's abort
      section has yet to run; once no abort is pending, no fetch waits on an open channel for a
      block at or before the next one. */
  lemma WaitsAreBounded(e: Env, w: Plan, states: seq<State>, actions: seq<Action>, i: nat)
    requires IsPlannedRun(e, w, states, actions) && Covers(e, w) && i < |states|
    ensures forall k :: k in states[i].waiter.table && !states[i].waiter.table[k].channelClosed ==>
                          || states[i].waiter.table[k].earliestBlock >= HeadIndex(states[i]) + 2
                          || (states[i].waiter.table[k].earliestBlock == HeadIndex(states[i]) + 1 && AbortPending(states[i]))
    ensures !AbortPending(states[i]) ==>
              forall p :: p in states[i].fetches && states[i].fetches[p].pc.Waiting?
                          && states[i].fetches[p].block.header.height <= HeadIndex(states[i]) + 1 ==>
                            states[i].fetches[p].pc.chan in states[i].waiter.closed
  {
    var s := states[i];
    RunOpenOk(e, w, states, actions, i);
    PlannedRunInv(e, w, states, actions, i);
    assert HeadIndex(s) == |s.chain| by {
      if s.chain != [] {
        PlanIndex(e, w, |s.chain| - 1);
      }
    }
    forall k | k in s.waiter.table
      ensures OpenOk(s, s.waiter.table[k])
    {
    }
    if !AbortPending(s) {
      forall p | p in s.fetches && s.fetches[p].pc.Waiting? && s.fetches[p].block.header.height <= HeadIndex(s) + 1
        ensures s.fetches[p].pc.chan in s.waiter.closed
      {
        InvAt(e, s, p);
        FirstRegistration(s.waiter, s.fetches[p]);
      }
    }
  }

  lemma FirstRegistration(w: Waiter, f: Fetch)
    requires Consistent(w) && PhaseOk(w, f) && RegistrationsKept(w, f) && f.pc.Waiting?
    ensures && f.missed != [] && f.pc.chan == f.missed[0].chan
            && Registered(w, f.missed[0], f.block.header.height)
            && EntryConsistent(w, w.table[f.missed[0].input.txId])
  {
    assert Registered(w, f.missed[0], f.block.header.height);
  }

  // ---------- how waits end ----------

  /** An entry that was closed without being aborted was closed for a block that is now seen. */
  ghost predicate ClosedForSeen(s: State) {
    forall k :: k in s.waiter.table && s.waiter.table[k].channelClosed && !s.waiter.table[k].aborted ==>
                  SeenClosed(s, k)
  }

  ghost predicate SeenClosed(s: State, key: string) {
    exists q :: q in s.seens && s.seens[q].pc.Closed? && key in TxHashes(s.seens[q].block)
  }

  lemma SeenClosedStays(s: State, s': State, key: string)
    requires SeenClosed(s, key)
    requires forall q :: q in s.seens && s.seens[q].pc.Closed? ==>
                           q in s'.seens && s'.seens[q].pc.Closed? && s'.seens[q].block == s.seens[q].block
    ensures SeenClosed(s', key)
  {
    var q :| q in s.seens && s.seens[q].pc.Closed? && key in TxHashes(s.seens[q].block);
    assert s'.seens[q].block == s.seens[q].block;
  }

  lemma ClosedForSeenSeen(s: State, q: nat, step: SeenStep)
    requires ClosedForSeen(s) && SeenEnabled(s, q, step)
    ensures ClosedForSeen(DoSeen(s, q, step))
  {
    var s' := DoSeen(s, q, step);
    SeenBlocksStep(s, q, step);
    forall k | k in s'.waiter.table && s'.waiter.table[k].channelClosed && !s'.waiter.table[k].aborted
      ensures SeenClosed(s', k)
    {
      if s.waiter.table[k].channelClosed {
        SeenClosedStays(s, s', k);
      } else {
        assert k in TxHashes(s'.seens[q].block) && s'.seens[q].pc.Closed?;
      }
    }
  }

  lemma ClosedForSeenOther(e: Env, s: State, a: Action)
    requires ClosedForSeen(s) && Enabled(e, s, a) && !a.SeenAction?
    ensures ClosedForSeen(Do(e, s, a))
  {
    var s' := Do(e, s, a);
    SeensUntouched(e, s, a);
    ContinuesStep(e, s, a);
    forall k | k in s'.waiter.table && s'.waiter.table[k].channelClosed && !s'.waiter.table[k].aborted
      ensures SeenClosed(s', k)
    {
      NewlyClosed(e, s, a, k);
      SeenClosedStays(s, s', k);
    }
  }

  /** Outside of BlockSeen, an entry that becomes closed becomes aborted. */
  lemma NewlyClosed(e: Env, s: State, a: Action, k: string)
    requires Enabled(e, s, a) && !a.SeenAction?
    requires k in Do(e, s, a).waiter.table && Do(e, s, a).waiter.table[k].channelClosed && !Do(e, s, a).waiter.table[k].aborted
    ensures k in s.waiter.table && s.waiter.table[k].channelClosed && !s.waiter.table[k].aborted
  {
    match a
    case FetchAction(p, step) =>
    case SyncAction(step) =>
  }

  /** A fetch that has registered a listener and has not ended in success can no longer do so. */
  predicate Doomed(f: Fetch) {
    || f.missed != []
    || (f.retry != [] && f.shouldAbort)
    || (f.pc.Done? && f.pc != Done(Success))
  }

  predicate AbortRecorded(f: Fetch) {
    f.retry != [] ==> f.shouldAbort
  }

  /** The first registration of a fetch is for one of its inputs and has a closed entry. */
  predicate FirstEntryClosed(s: State, f: Fetch) {
    && f.missed != []
    && f.missed[0].input in RequiredInputs(f.block.transactions)
    && f.missed[0].input.txId in s.waiter.table
    && s.waiter.table[f.missed[0].input.txId].channelClosed
  }

  predicate FirstEntryAborted(s: State, f: Fetch) {
    && f.missed != []
    && f.missed[0].input.txId in s.waiter.table
    && s.waiter.table[f.missed[0].input.txId].aborted
  }

  lemma WokenEntry(s: State, f: Fetch)
    requires f.pc.Woken? && Consistent(s.waiter)
    requires PhaseOk(s.waiter, f) && RegistrationsKept(s.waiter, f) && CoverOk(f)
    ensures FirstEntryClosed(s, f)
  {
    var r := f.missed[0];
    assert Registered(s.waiter, r, f.block.header.height);
    assert EntryConsistent(s.waiter, s.waiter.table[r.input.txId]);
    assert r in f.missed;
  }

  /** No BlockSeen call has closed the waits on a transaction of a block that is still being fetched. */
  lemma OwnBlockNotClosed(w: Plan, s: State, f: Fetch, key: string)
    requires |w.ergo| == |w.blocks| && DistinctTransactions(w)
    requires FetchPlanned(w, s, f) && Running(f) && key in TxHashes(w.blocks[Position(f)])
    requires forall q :: q in s.seens ==> SeenPlanned(w, s, s.seens[q])
    ensures !SeenClosed(s, key)
  {
    forall q | q in s.seens && s.seens[q].pc.Closed?
      ensures key !in TxHashes(s.seens[q].block)
    {
      var g, h := s.seens[q].block.id.index - 1, Position(f);
      assert SeenPlanned(w, s, s.seens[q]);
      assert g != h;
      if g < h {
        assert TxHashes(w.blocks[g]) !! TxHashes(w.blocks[h]);
      } else {
        assert TxHashes(w.blocks[h]) !! TxHashes(w.blocks[g]);
      }
    }
  }

  lemma ClosedEntryAborted(w: Plan, s: State, f: Fetch)
    requires |w.ergo| == |w.blocks| && DistinctTransactions(w) && ClosedForSeen(s)
    requires forall h :: 0 <= h < |w.ergo| ==> TxIds(w.ergo[h]) == TxHashes(w.blocks[h])
    requires FetchPlanned(w, s, f) && Running(f) && FirstEntryClosed(s, f)
    requires forall q :: q in s.seens ==> SeenPlanned(w, s, s.seens[q])
    ensures FirstEntryAborted(s, f)
  {
    var c := f.missed[0].input;
    RequiredTxIds(f.block.transactions, c);
    assert c.txId in TxIds(f.block);
    OwnBlockNotClosed(w, s, f, c.txId);
  }

  lemma WokenEntryAborted(e: Env, w: Plan, s: State, p: nat)
    requires RInv(e, w, s) && DistinctTransactions(w) && ClosedForSeen(s)
    requires p in s.fetches && s.fetches[p].pc.Woken?
    ensures FirstEntryAborted(s, s.fetches[p])
  {
    var f := s.fetches[p];
    assert f.missed != [] && FirstEntryClosed(s, f) by {
      InvAt(e, s, p);
      WokenEntry(s, f);
    }
    ClosedEntryAborted(w, s, f);
  }

  /** A required input names a transaction of the list. */
  lemma {:induction false} RequiredTxIds(txs: seq<ErgoTransaction>, c: InputCtx)
    requires c in RequiredInputs(txs)
    ensures exists tx :: tx in txs && tx.id == c.txId
  {
    var init, tx := txs[..|txs| - 1], txs[|txs| - 1];
    if c in RequiredInputs(init) {
      RequiredTxIds(init, c);
      var t :| t in init && t.id == c.txId;
      assert t in txs;
    } else {
      ExternalTxIds(tx.id, tx.inputs, OutputsOf(txs), c);
      assert tx in txs;
    }
  }

  lemma {:induction false} ExternalTxIds(id: string, inputs: seq<ErgoInput>, known: set<string>, c: InputCtx)
    requires c in ExternalInputs(id, inputs, known)
    ensures c.txId == id
  {
    if c in ExternalInputs(id, inputs[..|inputs| - 1], known) {
      ExternalTxIds(id, inputs[..|inputs| - 1], known, c);
    }
  }

  ghost predicate EndInv(s: State) {
    && ClosedForSeen(s)
    && forall p :: p in s.fetches ==> AbortRecorded(s.fetches[p])
  }

  predicate EndsRecorded(s: State, s': State, p: nat) {
    && p in s'.fetches && AbortRecorded(s'.fetches[p])
    && (p in s.fetches && Doomed(s.fetches[p]) ==> Doomed(s'.fetches[p]))
  }

  lemma FetchEnds(e: Env, w: Plan, s: State, p: nat, step: FetchStep)
    requires FetchEnabled(s, p, step) && RInv(e, w, s) && DistinctTransactions(w) && ClosedForSeen(s)
    requires p in s.fetches ==> AbortRecorded(s.fetches[p])
    ensures EndsRecorded(s, DoFetch(e, s, p, step), p)
  {
    if step.DropListener? {
      WokenEntryAborted(e, w, s, p);
    } else if step.AddListener? {
    } else {
      if p in s.fetches {
        assert PhaseOk(s.waiter, s.fetches[p]);
        QuietEnds(e, s, p, step);
      }
    }
  }

  lemma QuietEnds(e: Env, s: State, p: nat, step: FetchStep)
    requires p in s.fetches && FetchEnabled(s, p, step) && !step.AddListener? && !step.DropListener?
    requires PhaseOk(s.waiter, s.fetches[p]) && AbortRecorded(s.fetches[p])
    ensures AbortRecorded(QuietStep(e, s, p, step))
    ensures Doomed(s.fetches[p]) ==> Doomed(QuietStep(e, s, p, step))
  {
  }

  lemma EndStep(e: Env, w: Plan, s: State, a: Action)
    requires RInv(e, w, s) && DistinctTransactions(w) && EndInv(s) && Enabled(e, s, a)
    ensures EndInv(Do(e, s, a))
    ensures forall p :: p in s.fetches && Doomed(s.fetches[p]) ==> p in Do(e, s, a).fetches && Doomed(Do(e, s, a).fetches[p])
  {
    var s' := Do(e, s, a);
    if a.SeenAction? {
      ClosedForSeenSeen(s, a.q, a.seenStep);
    } else {
      ClosedForSeenOther(e, s, a);
    }
    if a.FetchAction? {
      FetchEnds(e, w, s, a.p, a.fetchStep);
    }
    forall p | p in s'.fetches || p in s.fetches
      ensures p in s'.fetches && AbortRecorded(s'.fetches[p])
      ensures p in s.fetches && Doomed(s.fetches[p]) ==> Doomed(s'.fetches[p])
    {
      if !(a.FetchAction? && a.p == p) {
        OthersUntouched(e, s, a, p);
      }
    }
  }

  lemma {:induction false} RunEndInv(e: Env, w: Plan, states: seq<State>, actions: seq<Action>, i: nat)
    requires IsPlannedRun(e, w, states, actions) && DistinctTransactions(w) && i < |states|
    ensures EndInv(states[i])
  {
    if i > 0 {
      RunEndInv(e, w, states, actions, i - 1);
      PlannedRunInv(e, w, states, actions, i - 1);
      assert Follows(e, states[i - 1], actions[i - 1], states[i - 1 + 1]);
      EndStep(e, w, states[i - 1], actions[i - 1]);
    }
  }

  /** The entry that a fetch releases was aborted: the only BlockSeen call that could have closed it is
      the one for the fetch's own block, which cannot have started. */
  lemma ReleasedEntryAborted(e: Env, w: Plan, states: seq<State>, actions: seq<Action>, i: nat)
    requires IsPlannedRun(e, w, states, actions) && DistinctTransactions(w) && i < |actions|
    requires actions[i].FetchAction? && actions[i].fetchStep == DropListener
    ensures FirstEntryAborted(states[i], states[i].fetches[actions[i].p])
  {
    assert Follows(e, states[i], actions[i], states[i + 1]);
    PlannedRunInv(e, w, states, actions, i);
    RunEndInv(e, w, states, actions, i);
    WokenEntryAborted(e, w, states[i], actions[i].p);
  }

  /** Because an entry is filed under the spending transaction, a wait is never answered: a fetch
      that has registered a listener never succeeds afterwards. */
  lemma {:induction false} WaitsNeverSucceed(e: Env, w: Plan, states: seq<State>, actions: seq<Action>, i: nat, j: nat, p: nat)
    requires IsPlannedRun(e, w, states, actions) && DistinctTransactions(w) && i <= j < |states|
    requires p in states[i].fetches && states[i].fetches[p].missed != []
    ensures p in states[j].fetches && Doomed(states[j].fetches[p]) && states[j].fetches[p].pc != Done(Success)
    decreases j
  {
    if i < j {
      WaitsNeverSucceed(e, w, states, actions, i, j - 1, p);
      DoomedStays(e, w, states, actions, j - 1, p);
    }
    DoomedFails(e, w, states, actions, j, p);
  }

  lemma DoomedStays(e: Env, w: Plan, states: seq<State>, actions: seq<Action>, i: nat, p: nat)
    requires IsPlannedRun(e, w, states, actions) && DistinctTransactions(w) && i < |actions|
    requires p in states[i].fetches && Doomed(states[i].fetches[p])
    ensures p in states[i + 1].fetches && Doomed(states[i + 1].fetches[p])
  {
    PlannedRunInv(e, w, states, actions, i);
    RunEndInv(e, w, states, actions, i);
    assert Follows(e, states[i], actions[i], states[i + 1]);
    EndStep(e, w, states[i], actions[i]);
  }

  lemma DoomedFails(e: Env, w: Plan, states: seq<State>, actions: seq<Action>, i: nat, p: nat)
    requires IsPlannedRun(e, w, states, actions) && i < |states|
    requires p in states[i].fetches && Doomed(states[i].fetches[p])
    ensures states[i].fetches[p].pc != Done(Success)
  {
    PlannedRunInv(e, w, states, actions, i);
    assert PhaseOk(states[i].waiter, states[i].fetches[p]);
  }
}
