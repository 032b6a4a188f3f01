/** The guarantees of the lookup protocol, read off the invariant, for every state of every run. */
module ProtocolTheorems {
  import opened Types
  import opened MapSums
  import opened CoinEffects
  import opened WaitTables
  import opened Inputs
  import opened Protocol
  import opened ProtocolSafety

  // ---------- no false miss ----------

  /** When a fetch finds the seen counter unchanged under the lock, every BlockSeen call that has
      filled the cache since the fetch looked there has yet to count itself. */
  lemma UnchangedSeenMeansUncounted(e: Env, states: seq<State>, actions: seq<Action>, i: nat)
    requires IsRun(e, states, actions) && i < |actions|
    requires actions[i].FetchAction? && actions[i].fetchStep == MatchSeen
    requires states[i + 1].fetches[actions[i].p].pc.SeenMatched?
    ensures var s, look := states[i], states[i].fetches[actions[i].p].pc.look;
            forall q :: InsertedSince(s, look, q) ==> s.seens[q].pc == Inserted
  {
    var s := states[i];
    assert Follows(e, s, actions[i], states[i + 1]);
    var look := s.fetches[actions[i].p].pc.look;
    assert s.seen == look.startSeen;
    assert CountedVisible(s, look) by {
      RunInv(e, states, actions, i);
      InvAt(e, s, actions[i].p);
      AtHeadMatched(e, s, s.fetches[actions[i].p]);
    }
    forall q | InsertedSince(s, look, q)
      ensures s.seens[q].pc == Inserted
    {
      assert !HasCounted(s.seens[q]);
    }
  }

  ghost predicate CountedVisible(s: State, look: Look) {
    forall q :: InsertedSince(s, look, q) && HasCounted(s.seens[q]) ==> s.seen > look.startSeen
  }

  lemma AtHeadMatched(e: Env, s: State, f: Fetch)
    requires PhaseOk(s.waiter, f) && LookOk(e, s, f) && f.pc.HeadMatched?
    ensures CountedVisible(s, f.pc.look)
  {
    assert CacheOk(s, f.pc.look, f.todo[0].inputId);
  }

  /** When a fetch registers a listener, the coin is not in storage at the head it read twice, nor
      at the present head if that is the same head again. Unless blocks were removed meanwhile, the
      chain is still that one, or one block further with that block's abort section to come. If the
      coin is in the cache, somebody inserted it since the fetch looked, and none of those who did
      has run its closing section. */
  lemma NoFalseMiss(e: Env, states: seq<State>, actions: seq<Action>, i: nat)
    requires IsRun(e, states, actions) && i < |actions|
    requires actions[i].FetchAction? && actions[i].fetchStep == AddListener
    ensures var s, f := states[i], states[i].fetches[actions[i].p];
            var look, id := f.pc.look, f.todo[0].inputId;
            && look.head.Some? && look.head == HeadOf(look.snap) && id !in StoredCoins(e, look.snap)
            && (HeadOf(s.chain) == look.head ==> id !in StoredCoins(e, s.chain))
            && (f.pc.removals == s.removals ==> AtOrOneAhead(s, look.snap))
            && (id in s.cache ==> exists q :: InsertedSince(s, look, q) && id in BlockCreates(s.seens[q].block))
            && (forall q :: InsertedSince(s, look, q) ==> !s.seens[q].pc.Closed?)
  {
    var s := states[i];
    assert Follows(e, s, actions[i], states[i + 1]);
    var f := s.fetches[actions[i].p];
    assert ValidChain(e, s.chain) && SeenMatchedOk(e, s, f) by {
      RunInv(e, states, actions, i);
      InvAt(e, s, actions[i].p);
      AtSeenMatched(e, s, f);
    }
    if HeadOf(s.chain) == f.pc.look.head {
      HeadDeterminesChain(e, s.chain, f.pc.look.snap);
    }
  }

  /** What the invariant says of a fetch that is about to register a listener. */
  ghost predicate SeenMatchedOk(e: Env, s: State, f: Fetch) {
    && f.pc.SeenMatched? && f.todo != []
    && PassOk(e, s, f, f.pc.look) && HeadOk(s, f.pc.look, f.pc.removals) && NoneClosedSince(s, f.pc.look)
  }

  lemma AtSeenMatched(e: Env, s: State, f: Fetch)
    requires PhaseOk(s.waiter, f) && LookOk(e, s, f) && f.pc.SeenMatched?
    ensures SeenMatchedOk(e, s, f)
  {
  }

  // ---------- listeners ----------

  function LiveLoad(key: string): Fetch -> int {
    (f: Fetch) => if f.pc.Done? then 0 else Count(f.missed, key)
  }

  /** The unreleased registrations of the findCoins calls that are still running. */
  ghost function LiveOwed(fetches: map<nat, Fetch>, key: string): int {
    Sum(fetches, LiveLoad(key))
  }

  predicate GaveUp(f: Fetch) {
    f.pc == Done(Cancelled) || f.pc == Done(HardError)
  }

  lemma LiveAtMostAll(s: State, key: string)
    requires CountsMatch(s)
    ensures LiveOwed(s.fetches, key) <= Listeners(s.waiter, key)
    ensures (forall p :: p in s.fetches && s.fetches[p].pc.Done? ==> Count(s.fetches[p].missed, key) == 0) ==>
              LiveOwed(s.fetches, key) == Listeners(s.waiter, key)
  {
    assert Listeners(s.waiter, key) == Owed(s.fetches, key);
    SumMonotone(s.fetches, LiveLoad(key), Load(key));
    if forall p :: p in s.fetches && s.fetches[p].pc.Done? ==> Count(s.fetches[p].missed, key) == 0 {
      SumMonotone(s.fetches, Load(key), LiveLoad(key));
    }
  }

  predicate AboutToUseEntry(f: Fetch) {
    (f.pc.Waits? || f.pc.Woken?) && f.missed != []
  }

  /** A call that ended without giving up holds nothing, and none ended for want of an entry. */
  lemma EndedHoldsNothing(s: State, p: nat)
    requires p in s.fetches && CountsMatch(s) && PhaseOk(s.waiter, s.fetches[p])
    ensures s.fetches[p].pc != Done(NotInWaiter)
    ensures s.fetches[p].pc.Done? && !GaveUp(s.fetches[p]) ==> s.fetches[p].missed == []
    ensures s.fetches[p].missed != [] ==> s.fetches[p].missed[0].input.txId in s.waiter.table
  {
    if s.fetches[p].missed != [] {
      OwedIsListed(s, p, 0);
    }
  }

  /** Each key has at least as many listeners as running calls hold registrations for it, exactly
      as many when no call gave up; every entry has a listener; and no call, when it comes to wait
      on a key or to release one, finds the key without an entry. */
  lemma ListenerConservation(e: Env, states: seq<State>, actions: seq<Action>, i: nat)
    requires IsRun(e, states, actions) && i < |states|
    ensures forall key :: Listeners(states[i].waiter, key) >= LiveOwed(states[i].fetches, key)
    ensures (forall p :: p in states[i].fetches ==> !GaveUp(states[i].fetches[p])) ==>
              forall key :: Listeners(states[i].waiter, key) == LiveOwed(states[i].fetches, key)
    ensures forall key :: key in states[i].waiter.table ==> states[i].waiter.table[key].listeners >= 1
    ensures forall p :: p in states[i].fetches && AboutToUseEntry(states[i].fetches[p]) ==>
                          states[i].fetches[p].missed[0].input.txId in states[i].waiter.table
    ensures forall p :: p in states[i].fetches ==> states[i].fetches[p].pc != Done(NotInWaiter)
  {
    RunInv(e, states, actions, i);
    var s := states[i];
    forall p | p in s.fetches
      ensures s.fetches[p].pc != Done(NotInWaiter)
      ensures s.fetches[p].pc.Done? && !GaveUp(s.fetches[p]) ==> s.fetches[p].missed == []
      ensures s.fetches[p].missed != [] ==> s.fetches[p].missed[0].input.txId in s.waiter.table
    {
      InvAt(e, s, p);
      EndedHoldsNothing(s, p);
    }
    forall key
      ensures LiveOwed(s.fetches, key) <= Listeners(s.waiter, key)
      ensures (forall p :: p in s.fetches ==> !GaveUp(s.fetches[p])) ==> LiveOwed(s.fetches, key) == Listeners(s.waiter, key)
    {
      LiveAtMostAll(s, key);
    }
  }

  // ---------- entries and channels over a run ----------

  lemma RunConsistent(e: Env, states: seq<State>, actions: seq<Action>, i: nat)
    requires IsRun(e, states, actions) && i < |states|
    ensures Consistent(states[i].waiter)
  {
    RunInv(e, states, actions, i);
  }

  lemma EvolvesReflexive(w: Waiter)
    ensures Evolves(w, w)
  {
  }

  /** Between any two states of a run the wait table only evolves forward. */
  lemma {:induction false} RunEvolves(e: Env, states: seq<State>, actions: seq<Action>, i: nat, j: nat)
    requires IsRun(e, states, actions) && i <= j < |states|
    ensures Evolves(states[i].waiter, states[j].waiter)
    decreases j
  {
    if i == j {
      EvolvesReflexive(states[i].waiter);
    } else {
      RunEvolves(e, states, actions, i, j - 1);
      StepEvolves(e, states, actions, j - 1);
      EvolvesTransitive(states[i].waiter, states[j - 1].waiter, states[j].waiter);
    }
  }

  lemma StepEvolves(e: Env, states: seq<State>, actions: seq<Action>, i: nat)
    requires IsRun(e, states, actions) && i < |actions|
    ensures Evolves(states[i].waiter, states[i + 1].waiter)
  {
    RunConsistent(e, states, actions, i);
    assert Follows(e, states[i], actions[i], states[i + 1]);
    WaiterStep(e, states[i], actions[i]);
  }

  predicate Holds(s: State, p: nat, r: Registration) {
    p in s.fetches && r in s.fetches[p].missed
  }

  lemma HeldEntry(s: State, p: nat, r: Registration)
    requires Consistent(s.waiter) && Holds(s, p, r)
    requires PhaseOk(s.waiter, s.fetches[p]) && RegistrationsKept(s.waiter, s.fetches[p])
    ensures r.input.txId in s.waiter.table && s.waiter.table[r.input.txId].chan == r.chan
    ensures r.chan < s.waiter.nextChan
    ensures s.fetches[p].pc.Waiting? ==> s.fetches[p].missed != [] && s.fetches[p].pc.chan == s.fetches[p].missed[0].chan
  {
    var f := s.fetches[p];
    var a :| 0 <= a < |f.missed| && f.missed[a] == r;
    assert Registered(s.waiter, f.missed[a], f.block.header.height);
    assert EntryConsistent(s.waiter, s.waiter.table[r.input.txId]);
  }

  /** While a registration is unreleased its key maps to the entry it was made with: the channel is
      the registered one, the one waited on when the fetch waits for it, and the flags only rise. */
  lemma EntryIdentity(e: Env, states: seq<State>, actions: seq<Action>, i: nat, j: nat, p: nat, r: Registration)
    requires IsRun(e, states, actions) && i <= j < |states|
    requires Holds(states[i], p, r) && Holds(states[j], p, r)
    ensures var key, before, after := r.input.txId, states[i].waiter, states[j].waiter;
            && key in before.table && before.table[key].chan == r.chan
            && key in after.table && after.table[key].chan == r.chan
            && EntryEvolves(before.table[key], after.table[key])
    ensures var f := states[j].fetches[p];
            f.pc.Waiting? ==> f.missed != [] && f.pc.chan == f.missed[0].chan
  {
    RunEvolves(e, states, actions, i, j);
    assert r.input.txId in states[i].waiter.table && states[i].waiter.table[r.input.txId].chan == r.chan < states[i].waiter.nextChan by {
      RunInv(e, states, actions, i);
      InvAt(e, states[i], p);
      HeldEntry(states[i], p, r);
    }
    RunInv(e, states, actions, j);
    InvAt(e, states[j], p);
    HeldEntry(states[j], p, r);
  }

  /** No channel is closed twice, a flag says exactly whether its channel is closed, an aborted
      entry is closed, and no flag of an entry is ever reset. */
  lemma ClosedOnce(e: Env, states: seq<State>, actions: seq<Action>, i: nat, j: nat)
    requires IsRun(e, states, actions) && i <= j < |states|
    ensures var w, w' := states[i].waiter, states[j].waiter;
            && !w'.panicked && w.closed <= w'.closed
            && (forall k :: k in w'.table ==> (w'.table[k].channelClosed <==> w'.table[k].chan in w'.closed))
            && (forall k :: k in w'.table && w'.table[k].aborted ==> w'.table[k].channelClosed)
            && (forall k :: k in w.table && k in w'.table && w.table[k].chan == w'.table[k].chan ==>
                              && (w.table[k].channelClosed ==> w'.table[k].channelClosed)
                              && (w.table[k].aborted ==> w'.table[k].aborted))
  {
    RunInv(e, states, actions, i);
    RunInv(e, states, actions, j);
    RunEvolves(e, states, actions, i, j);
    forall k | k in states[j].waiter.table
      ensures EntryConsistent(states[j].waiter, states[j].waiter.table[k])
    {
    }
    forall k | k in states[i].waiter.table && k in states[j].waiter.table && states[i].waiter.table[k].chan == states[j].waiter.table[k].chan
      ensures EntryEvolves(states[i].waiter.table[k], states[j].waiter.table[k])
    {
      assert EntryConsistent(states[i].waiter, states[i].waiter.table[k]);
    }
  }

  // ---------- findCoins ----------

  /** The coin c under id could be read from storage or from the cache in state s. */
  predicate ReadableIn(e: Env, s: State, id: string, c: AccountCoin) {
    || (id in StoredCoins(e, s.chain) && StoredCoins(e, s.chain)[id] == c)
    || (id in s.cache && s.cache[id] == c)
  }

  lemma FoundStep(e: Env, s: State, a: Action, p: nat, id: string)
    requires Enabled(e, s, a) && p in Do(e, s, a).fetches && id in Do(e, s, a).fetches[p].found
    ensures var c := Do(e, s, a).fetches[p].found[id];
            || (p in s.fetches && id in s.fetches[p].found && s.fetches[p].found[id] == c)
            || ReadableIn(e, s, id, c)
  {
    if a.FetchAction? && a.p == p {
      FoundFetch(e, s, p, a.fetchStep, id);
    } else {
      OthersUntouched(e, s, a, p);
    }
  }

  lemma FoundFetch(e: Env, s: State, p: nat, step: FetchStep, id: string)
    requires FetchEnabled(s, p, step) && id in DoFetch(e, s, p, step).fetches[p].found
    ensures var c := DoFetch(e, s, p, step).fetches[p].found[id];
            || (p in s.fetches && id in s.fetches[p].found && s.fetches[p].found[id] == c)
            || ReadableIn(e, s, id, c)
  {
  }

  /** Every value a call has found was readable in some earlier state. */
  lemma {:induction false} FoundOrigin(e: Env, states: seq<State>, actions: seq<Action>, i: nat, p: nat, id: string) returns (j: nat)
    requires IsRun(e, states, actions) && i < |states|
    requires p in states[i].fetches && id in states[i].fetches[p].found
    ensures j < i && ReadableIn(e, states[j], id, states[i].fetches[p].found[id])
  {
    assert Follows(e, states[i - 1], actions[i - 1], states[i - 1 + 1]);
    FoundStep(e, states[i - 1], actions[i - 1], p, id);
    var c := states[i].fetches[p].found[id];
    if ReadableIn(e, states[i - 1], id, c) {
      j := i - 1;
    } else {
      j := FoundOrigin(e, states, actions, i - 1, p, id);
    }
  }

  /** A successful findCoins call, whatever ran beside it and however often it waited and recursed,
      returns a coin for exactly the requested inputs, each one read from storage or the cache; a
      successful or aborted call has released every listener it registered. */
  lemma FindCoinsExact(e: Env, states: seq<State>, actions: seq<Action>, i: nat, p: nat)
    requires IsRun(e, states, actions) && i < |states| && p in states[i].fetches
    ensures var f := states[i].fetches[p];
            && (f.pc == Done(Success) ==>
                  && f.found.Keys == InputIds(RequiredInputs(f.block.transactions))
                  && forall id :: id in f.found ==>
                                    exists j :: 0 <= j < i && ReadableIn(e, states[j], id, f.found[id]))
            && (f.pc == Done(Success) || f.pc == Done(Orphan) ==> forall key :: Count(f.missed, key) == 0)
  {
    RunInv(e, states, actions, i);
    var f := states[i].fetches[p];
    assert PhaseOk(states[i].waiter, f) && CoverOk(f);
    if f.pc == Done(Success) {
      assert InputIds(f.todo) == {} && RegistrationIds(f.missed) == {} && InputIds(f.retry) == {};
      forall id | id in f.found
        ensures exists j :: 0 <= j < i && ReadableIn(e, states[j], id, f.found[id])
      {
        var j := FoundOrigin(e, states, actions, i, p, id);
      }
    }
  }
}
