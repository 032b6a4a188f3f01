/** What each lookup of a fetch yields, and why a findCoins call ends as it does: in every run, in terms
    of storage, the cache and the errors that the calls met. */
module FetchOutcomes {
  import opened Types
  import opened CoinEffects
  import opened Inputs
  import opened Protocol
  import opened ProtocolSafety
  import opened ReorgFree

  // ---------- one lookup ----------

  /** The fetch f' has coin c for the first input of f and goes on with the rest. */
  predicate Takes(f: Fetch, f': Fetch, c: AccountCoin)
    requires f.todo != []
  {
    f' == f.(found := f.found[f.todo[0].inputId := c], todo := f.todo[1..], pc := Looking)
  }

  /** A lookup in storage ends the call when the head cannot be read or the coin lookup fails; it goes
      round again while nothing is stored; otherwise it takes exactly the coin that is unspent after
      the committed chain, or misses. The genesis block needs no head. */
  lemma StoreLookup(e: Env, states: seq<State>, actions: seq<Action>, i: nat, p: nat, headError: bool, ioError: bool)
    requires IsRun(e, states, actions) && i < |actions|
    requires actions[i] == FetchAction(p, LookInStore(headError, ioError))
    ensures p in states[i].fetches && p in states[i + 1].fetches && states[i].fetches[p].todo != []
    ensures var s, f, f' := states[i], states[i].fetches[p], states[i + 1].fetches[p];
            var id, coins, genesis := f.todo[0].inputId, CoinsAfter(e.genesisCoins, s.chain), f.block.header.id == e.genesisHash;
            if headError && !genesis then f' == f.(pc := Done(HardError))
            else if s.chain == [] && !genesis then f' == f.(pc := Looking)
            else if ioError then f' == f.(pc := Done(HardError))
            else if id in coins then Takes(f, f', coins[id])
            else f'.pc.StoreMissed? && f'.pc.look.snap == s.chain && f' == f.(pc := f'.pc)
  {
    assert Follows(e, states[i], actions[i], states[i + 1]);
  }

  /** A lookup in the cache takes exactly the cached coin, or misses. */
  lemma CacheLookup(e: Env, states: seq<State>, actions: seq<Action>, i: nat, p: nat)
    requires IsRun(e, states, actions) && i < |actions| && actions[i] == FetchAction(p, LookInCache)
    ensures p in states[i].fetches && p in states[i + 1].fetches && states[i].fetches[p].todo != []
    ensures var s, f, f' := states[i], states[i].fetches[p], states[i + 1].fetches[p];
            var id := f.todo[0].inputId;
            if id in s.cache then Takes(f, f', s.cache[id])
            else f'.pc.CacheMissed? && f' == f.(pc := f'.pc)
  {
    assert Follows(e, states[i], actions[i], states[i + 1]);
  }

  // ---------- why a call ends ----------

  /** The block would be next on the head but names another parent. */
  predicate NamesAnotherParent(chain: seq<Block>, bh: BlockHeader) {
    && chain != []
    && bh.height == chain[|chain| - 1].id.index + 1
    && bh.parentId != chain[|chain| - 1].id.hash
  }

  /** The step of fetch f ends its call with outcome o. */
  predicate EndsWith(e: Env, s: State, f: Fetch, step: FetchStep, o: Outcome) {
    match o
    case Success => step.EndLookups? && f.missed == []
    case Orphan =>
      || (step.CheckHeader? && !step.ioError && NamesAnotherParent(s.chain, f.block.header))
      || (step.EndWaits? && f.shouldAbort)
    case Cancelled => step.Cancel?
    case HardError =>
      || (step.CheckHeader? && step.ioError)
      || (step.LookInStore? && StoreFails(e, s, f, step.headError, step.ioError))
      || (step.MatchHead? && (step.ioError || s.chain == []))
    case NotInWaiter => false
  }

  predicate StoreFails(e: Env, s: State, f: Fetch, headError: bool, ioError: bool) {
    var genesis := f.block.header.id == e.genesisHash;
    (headError && !genesis) || (ioError && (genesis || s.chain != []))
  }

  lemma QuietEndsWith(e: Env, s: State, p: nat, step: FetchStep, o: Outcome)
    requires p in s.fetches && FetchEnabled(s, p, step) && !step.AddListener? && !step.DropListener?
    requires step.GetEntry? ==> s.fetches[p].missed[0].input.txId in s.waiter.table
    ensures QuietStep(e, s, p, step).pc == Done(o) <==> EndsWith(e, s, s.fetches[p], step, o)
  {
  }

  lemma StepEndsWith(e: Env, s: State, p: nat, step: FetchStep, o: Outcome)
    requires CountsMatch(s) && p in s.fetches && FetchEnabled(s, p, step)
    ensures DoFetch(e, s, p, step).fetches[p].pc == Done(o) <==> EndsWith(e, s, s.fetches[p], step, o)
  {
    if step.GetEntry? || step.DropListener? {
      OwedIsListed(s, p, 0);
    }
    if !step.AddListener? && !step.DropListener? {
      QuietEndsWith(e, s, p, step, o);
    }
  }

  /** In every run a step ends its call with an outcome exactly for the reasons that the outcome has. */
  lemma EndsExactly(e: Env, states: seq<State>, actions: seq<Action>, i: nat, p: nat, o: Outcome)
    requires IsRun(e, states, actions) && i < |actions|
    requires actions[i].FetchAction? && actions[i].p == p && p in states[i].fetches
    ensures p in states[i + 1].fetches
    ensures states[i + 1].fetches[p].pc == Done(o) <==> EndsWith(e, states[i], states[i].fetches[p], actions[i].fetchStep, o)
  {
    assert Follows(e, states[i], actions[i], states[i + 1]);
    RunInv(e, states, actions, i);
    StepEndsWith(e, states[i], p, actions[i].fetchStep, o);
  }

  /** A call that has ended was ended by one of its own steps, for a reason of its outcome. */
  lemma {:induction false} EndedFor(e: Env, states: seq<State>, actions: seq<Action>, i: nat, p: nat) returns (j: nat)
    requires IsRun(e, states, actions) && i < |states| && p in states[i].fetches && states[i].fetches[p].pc.Done?
    ensures j < i && p in states[j].fetches && actions[j].FetchAction? && actions[j].p == p
    ensures EndsWith(e, states[j], states[j].fetches[p], actions[j].fetchStep, states[i].fetches[p].pc.outcome)
  {
    var s, a := states[i - 1], actions[i - 1];
    assert Follows(e, s, a, states[i - 1 + 1]);
    if a.FetchAction? && a.p == p {
      NewIsNotDone(e, s, p, a.fetchStep);
      EndsExactly(e, states, actions, i - 1, p, states[i].fetches[p].pc.outcome);
      j := i - 1;
    } else {
      OthersUntouched(e, s, a, p);
      j := EndedFor(e, states, actions, i - 1, p);
    }
  }

  lemma NewIsNotDone(e: Env, s: State, p: nat, step: FetchStep)
    requires FetchEnabled(s, p, step) && DoFetch(e, s, p, step).fetches[p].pc.Done?
    ensures p in s.fetches
  {
  }

  /** The step met an error of the storage: one that it was given, or a head that is missing when it is
      compared under the lock. */
  predicate MetError(s: State, a: Action, p: nat) {
    && a.FetchAction? && a.p == p
    && match a.fetchStep
       case CheckHeader(ioError) => ioError
       case LookInStore(headError, ioError) => headError || ioError
       case MatchHead(ioError) => ioError || s.chain == []
       case _ => false
  }

  /** A call fails hard only after an error that it met, and is cancelled only by a cancellation. So a
      call that met neither and has ended ended in success or as an orphan. */
  lemma ErrorsHaveCauses(e: Env, states: seq<State>, actions: seq<Action>, i: nat, p: nat)
    requires IsRun(e, states, actions) && i < |states| && p in states[i].fetches && states[i].fetches[p].pc.Done?
    ensures states[i].fetches[p].pc == Done(HardError) ==> exists j :: 0 <= j < i && MetError(states[j], actions[j], p)
    ensures states[i].fetches[p].pc == Done(Cancelled) ==> exists j :: 0 <= j < i && actions[j] == FetchAction(p, Cancel)
    ensures (forall j :: 0 <= j < i ==> !MetError(states[j], actions[j], p) && actions[j] != FetchAction(p, Cancel)) ==>
              states[i].fetches[p].pc == Done(Success) || states[i].fetches[p].pc == Done(Orphan)
  {
    var j := EndedFor(e, states, actions, i, p);
    var o := states[i].fetches[p].pc.outcome;
    if o == HardError {
      assert MetError(states[j], actions[j], p);
    } else if o == Cancelled {
      assert actions[j] == FetchAction(p, Cancel);
    }
  }

  // ---------- aborted waits ----------

  /** The action of fetch p releases a listener whose entry was aborted. */
  predicate ReleasesAborted(s: State, a: Action, p: nat) {
    && a == FetchAction(p, DropListener)
    && p in s.fetches && s.fetches[p].missed != []
    && var key := s.fetches[p].missed[0].input.txId;
       key in s.waiter.table && s.waiter.table[key].aborted
  }

  lemma AbortStep(e: Env, s: State, a: Action, p: nat)
    requires CountsMatch(s) && Enabled(e, s, a) && p in Do(e, s, a).fetches
    ensures Do(e, s, a).fetches[p].shouldAbort <==> (p in s.fetches && s.fetches[p].shouldAbort) || ReleasesAborted(s, a, p)
  {
    if a.FetchAction? && a.p == p {
      AbortFetch(e, s, p, a.fetchStep);
    } else {
      OthersUntouched(e, s, a, p);
    }
  }

  lemma AbortFetch(e: Env, s: State, p: nat, step: FetchStep)
    requires CountsMatch(s) && FetchEnabled(s, p, step)
    ensures DoFetch(e, s, p, step).fetches[p].shouldAbort <==>
              (p in s.fetches && s.fetches[p].shouldAbort) || ReleasesAborted(s, FetchAction(p, step), p)
  {
    if step.DropListener? {
      OwedIsListed(s, p, 0);
    }
  }

  /** Before state i the call p has released an aborted listener. */
  ghost predicate HasReleasedAborted(states: seq<State>, actions: seq<Action>, i: nat, p: nat)
    requires i <= |actions| <= |states|
  {
    exists j :: 0 <= j < i && ReleasesAborted(states[j], actions[j], p)
  }

  lemma ReleasedNext(states: seq<State>, actions: seq<Action>, n: nat, p: nat)
    requires n < |actions| <= |states|
    ensures HasReleasedAborted(states, actions, n + 1, p) <==>
              HasReleasedAborted(states, actions, n, p) || ReleasesAborted(states[n], actions[n], p)
  {
  }

  lemma AbortAt(e: Env, states: seq<State>, actions: seq<Action>, n: nat, p: nat)
    requires IsRun(e, states, actions) && n < |actions| && p in states[n + 1].fetches
    ensures states[n + 1].fetches[p].shouldAbort <==>
              (p in states[n].fetches && states[n].fetches[p].shouldAbort) || ReleasesAborted(states[n], actions[n], p)
  {
    assert Follows(e, states[n], actions[n], states[n + 1]);
    RunInv(e, states, actions, n);
    AbortStep(e, states[n], actions[n], p);
  }

  /** A call is marked for abortion exactly if one of the listeners it released was aborted. */
  lemma {:induction false} AbortedIff(e: Env, states: seq<State>, actions: seq<Action>, i: nat, p: nat)
    requires IsRun(e, states, actions) && i < |states| && p in states[i].fetches
    ensures states[i].fetches[p].shouldAbort <==> HasReleasedAborted(states, actions, i, p)
  {
    var n := i - 1;
    AbortAt(e, states, actions, n, p);
    ReleasedNext(states, actions, n, p);
    if p in states[n].fetches {
      AbortedIff(e, states, actions, n, p);
    } else {
      NoneBeforeStart(e, states, actions, n, p);
    }
  }

  lemma {:induction false} NoneBeforeStart(e: Env, states: seq<State>, actions: seq<Action>, i: nat, p: nat)
    requires IsRun(e, states, actions) && i < |states| && p !in states[i].fetches
    ensures forall j :: 0 <= j <= i ==> p !in states[j].fetches
  {
    if i > 0 {
      assert Follows(e, states[i - 1], actions[i - 1], states[i - 1 + 1]);
      if p in states[i - 1].fetches {
        FetchesStay(e, states[i - 1], actions[i - 1], p);
      }
      NoneBeforeStart(e, states, actions, i - 1, p);
    }
  }

  lemma FetchesStay(e: Env, s: State, a: Action, p: nat)
    requires Enabled(e, s, a) && p in s.fetches
    ensures p in Do(e, s, a).fetches
  {
    if !(a.FetchAction? && a.p == p) {
      OthersUntouched(e, s, a, p);
    } else {
      OneFetchWritten(e, s, p, a.fetchStep);
    }
  }

  /** A call returns the orphan error only if its block named another parent than the head it was to
      follow, or an aborted listener was released; and one that released an aborted listener never
      succeeds. */
  lemma OrphanHasReason(e: Env, states: seq<State>, actions: seq<Action>, i: nat, p: nat)
    requires IsRun(e, states, actions) && i < |states| && p in states[i].fetches
    ensures states[i].fetches[p].pc == Done(Orphan) ==>
              || (exists j :: 0 <= j < i && ReleasesAborted(states[j], actions[j], p))
              || (exists j :: 0 <= j < i && actions[j] == FetchAction(p, CheckHeader(false)) && p in states[j].fetches
                              && NamesAnotherParent(states[j].chain, states[j].fetches[p].block.header))
    ensures states[i].fetches[p].pc == Done(Success) ==> forall j :: 0 <= j < i ==> !ReleasesAborted(states[j], actions[j], p)
  {
    if states[i].fetches[p].pc == Done(Orphan) {
      var j := EndedFor(e, states, actions, i, p);
      if actions[j].fetchStep.EndWaits? {
        AbortedIff(e, states, actions, j, p);
      } else {
        assert actions[j] == FetchAction(p, CheckHeader(false));
      }
    }
    if states[i].fetches[p].pc == Done(Success) {
      SuccessIsUnaborted(e, states, actions, i, p);
      AbortedIff(e, states, actions, i, p);
    }
  }

  lemma {:induction false} SuccessIsUnaborted(e: Env, states: seq<State>, actions: seq<Action>, i: nat, p: nat)
    requires IsRun(e, states, actions) && i < |states| && p in states[i].fetches && states[i].fetches[p].pc == Done(Success)
    ensures !states[i].fetches[p].shouldAbort
  {
    var s, a := states[i - 1], actions[i - 1];
    assert Follows(e, s, a, states[i - 1 + 1]);
    RunInv(e, states, actions, i - 1);
    if a.FetchAction? && a.p == p {
      NewIsNotDone(e, s, p, a.fetchStep);
      StepEndsWith(e, s, p, a.fetchStep, Success);
      InvAt(e, s, p);
    } else {
      OthersUntouched(e, s, a, p);
      SuccessIsUnaborted(e, states, actions, i - 1, p);
    }
  }

  /** When all waits of a pass are over and none was aborted, the call starts another pass, and what it
      looks up then covers every requested input that it has not found. */
  lemma UnabortedRetries(e: Env, states: seq<State>, actions: seq<Action>, i: nat, p: nat)
    requires IsRun(e, states, actions) && i < |actions| && actions[i] == FetchAction(p, EndWaits)
    ensures p in states[i].fetches && p in states[i + 1].fetches
    ensures var f, f' := states[i].fetches[p], states[i + 1].fetches[p];
            if f.shouldAbort then f'.pc == Done(Orphan)
            else && f'.pc == AtHeaderCheck && f'.missed == [] && f'.found == f.found
                 && InputIds(RequiredInputs(f.block.transactions)) <= f'.found.Keys + InputIds(f'.todo)
  {
    assert Follows(e, states[i], actions[i], states[i + 1]);
    RunInv(e, states, actions, i);
    InvAt(e, states[i], p);
    var f := states[i].fetches[p];
    assert InputIds(f.todo) == {} && RegistrationIds(f.missed) == {};
  }

  // ---------- nothing is looked up twice ----------

  function InputsOf(missed: seq<Registration>): multiset<InputCtx> {
    if missed == [] then multiset{} else multiset{missed[0].input} + InputsOf(missed[1..])
  }

  lemma {:induction false} InputsOfAppend(missed: seq<Registration>, r: Registration)
    ensures InputsOf(missed + [r]) == InputsOf(missed) + multiset{r.input}
  {
    if missed == [] {
      assert missed + [r] == [r];
    } else {
      InputsOfAppend(missed[1..], r);
      assert (missed + [r])[1..] == missed[1..] + [r];
    }
  }

  /** The inputs that the call has yet to find, each as often as it is requested. */
  function Pending(f: Fetch): multiset<InputCtx> {
    multiset(f.todo) + InputsOf(f.missed) + multiset(f.retry)
  }

  lemma FirstTodo(f: Fetch)
    requires f.todo != []
    ensures multiset(f.todo) == multiset{f.todo[0]} + multiset(f.todo[1..])
  {
    assert f.todo == [f.todo[0]] + f.todo[1..];
  }

  lemma PendingAdd(s: State, p: nat)
    requires FetchEnabled(s, p, AddListener)
    ensures Pending(DoAddListener(s, p).fetches[p]) == Pending(s.fetches[p])
  {
    var f, f' := s.fetches[p], DoAddListener(s, p).fetches[p];
    FirstTodo(f);
    InputsOfAppend(f.missed, f'.missed[|f.missed|]);
  }

  lemma PendingRelease(f: Fetch, aborted: bool)
    requires f.missed != []
    ensures Pending(ReleaseFirst(f, aborted)) == Pending(f)
  {
  }

  /** From f to f' nothing pending is lost but an input whose coin was taken. */
  predicate Consumes(f: Fetch, f': Fetch) {
    || Pending(f') == Pending(f)
    || (f.todo != [] && f.todo[0].inputId in f'.found && Pending(f) == Pending(f') + multiset{f.todo[0]})
  }

  lemma ConsumesFound(f: Fetch, c: AccountCoin)
    requires f.todo != []
    ensures Consumes(f, FoundCoin(f, c))
  {
    FirstTodo(f);
  }

  lemma ConsumesMoved(f: Fetch, pc: Pc)
    ensures Consumes(f, At(f, pc))
  {
  }

  lemma ConsumesRecurse(f: Fetch)
    requires f.todo == [] && f.missed == []
    ensures Consumes(f, Recurse(f))
  {
  }

  lemma ConsumesQuiet(e: Env, s: State, p: nat, step: FetchStep)
    requires p in s.fetches && FetchEnabled(s, p, step) && !step.AddListener? && !step.DropListener?
    requires PhaseOk(s.waiter, s.fetches[p])
    ensures Consumes(s.fetches[p], QuietStep(e, s, p, step))
  {
    var f, f' := s.fetches[p], QuietStep(e, s, p, step);
    QuietShape(e, s, p, step);
    ConsumesMoved(f, f'.pc);
    if f.todo != [] && exists c :: f' == FoundCoin(f, c) {
      var c :| f' == FoundCoin(f, c);
      ConsumesFound(f, c);
    } else if step.EndWaits? {
      ConsumesRecurse(f);
    }
  }

  lemma ConsumesStep(e: Env, s: State, p: nat, step: FetchStep)
    requires p in s.fetches && FetchEnabled(s, p, step) && CountsMatch(s) && PhaseOk(s.waiter, s.fetches[p])
    ensures Consumes(s.fetches[p], DoFetch(e, s, p, step).fetches[p])
  {
    if step.AddListener? {
      PendingAdd(s, p);
    } else if step.DropListener? {
      OwedIsListed(s, p, 0);
      PendingRelease(s.fetches[p], s.waiter.table[s.fetches[p].missed[0].input.txId].aborted);
    } else {
      ConsumesQuiet(e, s, p, step);
    }
  }

  /** Every step of a call keeps each pending input as often as before, but for one whose coin it has
      just taken. */
  lemma PendingConserved(e: Env, states: seq<State>, actions: seq<Action>, n: nat, p: nat)
    requires IsRun(e, states, actions) && n < |actions| && p in states[n].fetches
    ensures p in states[n + 1].fetches && states[n + 1].fetches[p].block == states[n].fetches[p].block
    ensures Consumes(states[n].fetches[p], states[n + 1].fetches[p])
  {
    var s, a := states[n], actions[n];
    assert Follows(e, s, a, states[n + 1]);
    if a.FetchAction? && a.p == p {
      assert CountsMatch(s) && PhaseOk(s.waiter, s.fetches[p]) by {
        RunInv(e, states, actions, n);
        InvAt(e, s, p);
      }
      OneFetchWritten(e, s, p, a.fetchStep);
      ConsumesStep(e, s, p, a.fetchStep);
      FetchKeepsBlock(e, s, p, a.fetchStep);
    } else {
      OthersUntouched(e, s, a, p);
    }
  }

  lemma NewIsPending(e: Env, s: State, a: Action, p: nat)
    requires Enabled(e, s, a) && p !in s.fetches && p in Do(e, s, a).fetches
    ensures Pending(Do(e, s, a).fetches[p]) == multiset(RequiredInputs(Do(e, s, a).fetches[p].block.transactions))
  {
    if !(a.FetchAction? && a.p == p) {
      OthersUntouched(e, s, a, p);
    }
  }

  /** What a call has yet to look up, wait for or retry is never more than what its block requires, each
      input as often as it is listed. */
  lemma {:induction false} PendingBounded(e: Env, states: seq<State>, actions: seq<Action>, i: nat, p: nat)
    requires IsRun(e, states, actions) && i < |states| && p in states[i].fetches
    ensures Pending(states[i].fetches[p]) <= multiset(RequiredInputs(states[i].fetches[p].block.transactions))
  {
    var n := i - 1;
    assert Follows(e, states[n], actions[n], states[n + 1]);
    if p in states[n].fetches {
      PendingBounded(e, states, actions, n, p);
      PendingConserved(e, states, actions, n, p);
    } else {
      NewIsPending(e, states[n], actions[n], p);
    }
  }

  // ---------- no call gets stuck ----------

  ghost predicate CanStep(s: State, p: nat) {
    exists step :: FetchEnabled(s, p, step)
  }

  lemma FetchCanStep(s: State, p: nat)
    requires p in s.fetches && !s.fetches[p].pc.Done? && PhaseOk(s.waiter, s.fetches[p])
    requires s.lock.None? || HoldsLock(s.fetches[p])
    ensures CanStep(s, p)
  {
    var f := s.fetches[p];
    var step := match f.pc
      case AtHeaderCheck => CheckHeader(false)
      case Looking => if f.todo == [] then EndLookups else ReadSeen
      case Started(_) => LookInStore(false, false)
      case StoreMissed(_) => LookInCache
      case CacheMissed(_) => LockWaiter
      case Locked(_) => MatchHead(false)
      case HeadMatched(_, _) => MatchSeen
      case SeenMatched(_, _) => AddListener
      case Waits => if f.missed == [] then EndWaits else GetEntry
      case Waiting(_) => Cancel
      case Woken => DropListener
      case Done(_) => Cancel;
    assert FetchEnabled(s, p, step);
  }

  /** In every state of every run each running call can take a step, or another call holds the waiter
      lock and can; a call that waits or is about to look an input up can be cancelled, and one whose
      channel is closed can go on. */
  lemma NoCallIsStuck(e: Env, states: seq<State>, actions: seq<Action>, i: nat, p: nat)
    requires IsRun(e, states, actions) && i < |states|
    requires p in states[i].fetches && !states[i].fetches[p].pc.Done?
    ensures var s, f := states[i], states[i].fetches[p];
            && (CanStep(s, p) || (s.lock.Some? && s.lock.value != p && CanStep(s, s.lock.value)))
            && (f.pc.Waiting? || (f.pc.Looking? && f.todo != []) ==> FetchEnabled(s, p, Cancel))
            && (f.pc.Waiting? && f.pc.chan in s.waiter.closed ==> FetchEnabled(s, p, WakeUp))
  {
    var s := states[i];
    RunInv(e, states, actions, i);
    InvAt(e, s, p);
    if s.lock.None? || HoldsLock(s.fetches[p]) {
      FetchCanStep(s, p);
    } else {
      assert s.lock.value in s.fetches && HoldsLock(s.fetches[s.lock.value]);
      InvAt(e, s, s.lock.value);
      FetchCanStep(s, s.lock.value);
    }
  }
}
