/** What every state of every run of the lookup protocol satisfies, under any interleaving, with
    reorganisations, cancellations and storage errors. */
module ProtocolSafety {
  import opened Types
  import opened MapSums
  import opened CoinEffects
  import opened WaitTables
  import opened Inputs
  import opened Protocol

  // ---------- a head identifier determines its chain ----------

  /** Two valid chains with the same head are the same chain. */
  lemma {:induction false} HeadDeterminesChain(e: Env, a: seq<Block>, b: seq<Block>)
    requires ValidChain(e, a) && ValidChain(e, b) && HeadOf(a) == HeadOf(b)
    ensures a == b
  {
    if a != [] {
      ParentsAgree(e, a, b);
      HeadDeterminesChain(e, a[..|a| - 1], b[..|b| - 1]);
      SameParts(a, b);
    }
  }

  lemma SameParts(a: seq<Block>, b: seq<Block>)
    requires a != [] && b != [] && a[..|a| - 1] == b[..|b| - 1] && a[|a| - 1] == b[|b| - 1]
    ensures a == b
  {
    assert a == a[..|a| - 1] + [a[|a| - 1]] && b == b[..|b| - 1] + [b[|b| - 1]];
  }

  lemma ParentsAgree(e: Env, a: seq<Block>, b: seq<Block>)
    requires ValidChain(e, a) && ValidChain(e, b) && HeadOf(a) == HeadOf(b) && a != []
    ensures var a', b' := a[..|a| - 1], b[..|b| - 1];
            && ValidChain(e, a') && ValidChain(e, b') && HeadOf(a') == HeadOf(b')
            && b != [] && a[|a| - 1] == b[|b| - 1]
  {
    LastConnects(e, a);
    LastConnects(e, b);
  }

  lemma LastConnects(e: Env, chain: seq<Block>)
    requires ValidChain(e, chain) && chain != []
    ensures ValidChain(e, chain[..|chain| - 1]) && Connects(e, chain[..|chain| - 1], chain[|chain| - 1])
  {
    PrefixValid(e, chain, |chain| - 1);
  }

  lemma PrefixValid(e: Env, chain: seq<Block>, n: nat)
    requires ValidChain(e, chain) && n <= |chain|
    ensures ValidChain(e, chain[..n])
  {
    forall i | 0 <= i < n
      ensures Connects(e, chain[..n][..i], chain[..n][i])
    {
      assert chain[..n][..i] == chain[..i];
    }
  }

  lemma ExtendValid(e: Env, chain: seq<Block>, b: Block)
    requires ValidChain(e, chain) && Connects(e, chain, b)
    ensures ValidChain(e, chain + [b])
  {
    var c := chain + [b];
    forall i | 0 <= i < |c|
      ensures Connects(e, c[..i], c[i])
    {
      assert c[..i] == chain[..i];
      assert i == |chain| ==> c[..i] == chain;
    }
  }

  // ---------- listeners ----------

  /** How many registrations for key a fetch has made and not yet released. */
  function Count(missed: seq<Registration>, key: string): nat {
    if missed == [] then 0
    else (if missed[0].input.txId == key then 1 else 0) + Count(missed[1..], key)
  }

  function Load(key: string): Fetch -> int {
    (f: Fetch) => Count(f.missed, key)
  }

  /** The unreleased registrations for key, over all fetches. */
  ghost function Owed(fetches: map<nat, Fetch>, key: string): int {
    Sum(fetches, Load(key))
  }

  function Listeners(w: Waiter, key: string): int {
    if key in w.table then w.table[key].listeners else 0
  }

  /** The listener counts are exactly the unreleased registrations, and every entry has one. */
  ghost predicate CountsMatch(s: State) {
    && (forall key :: Listeners(s.waiter, key) == Owed(s.fetches, key))
    && (forall key :: key in s.waiter.table ==> s.waiter.table[key].listeners >= 1)
  }

  lemma {:induction false} CountAppend(missed: seq<Registration>, r: Registration, key: string)
    ensures Count(missed + [r], key) == Count(missed, key) + (if r.input.txId == key then 1 else 0)
  {
    if missed == [] {
      assert missed + [r] == [r];
    } else {
      CountAppend(missed[1..], r, key);
      assert (missed + [r])[1..] == missed[1..] + [r];
    }
  }

  lemma {:induction false} CountedMember(missed: seq<Registration>, i: nat)
    requires i < |missed|
    ensures Count(missed, missed[i].input.txId) >= 1
  {
    if i > 0 {
      CountedMember(missed[1..], i - 1);
    }
  }

  lemma OwedPut(fetches: map<nat, Fetch>, p: nat, f: Fetch, key: string)
    ensures Owed(fetches[p := f], key)
         == Owed(fetches, key) - (if p in fetches then Count(fetches[p].missed, key) else 0) + Count(f.missed, key)
  {
    SumUpdate(fetches, Load(key), p, f);
  }

  /** A registered key has an entry. */
  lemma OwedIsListed(s: State, p: nat, i: nat)
    requires CountsMatch(s) && p in s.fetches && i < |s.fetches[p].missed|
    ensures s.fetches[p].missed[i].input.txId in s.waiter.table
  {
    var key := s.fetches[p].missed[i].input.txId;
    CountedMember(s.fetches[p].missed, i);
    SumAtLeast(s.fetches, Load(key));
    assert Load(key)(s.fetches[p]) >= 1;
    assert Listeners(s.waiter, key) == Owed(s.fetches, key);
  }

  // ---------- the invariant ----------

  /** The entry that a registration was made with is still there. */
  predicate Registered(w: Waiter, r: Registration, height: int) {
    && r.input.txId in w.table
    && w.table[r.input.txId].chan == r.chan
    && w.table[r.input.txId].earliestBlock <= height
  }

  predicate RegistrationsKept(w: Waiter, f: Fetch) {
    forall i :: 0 <= i < |f.missed| ==> Registered(w, f.missed[i], f.block.header.height)
  }

  /** A fetch sits where its program counter says, and never ends with a missing entry. */
  predicate PhaseOk(w: Waiter, f: Fetch) {
    match f.pc
    case AtHeaderCheck => f.missed == [] && f.retry == [] && !f.shouldAbort
    case Looking => f.retry == [] && !f.shouldAbort
    case Waits => f.todo == []
    case Waiting(c) => f.todo == [] && f.missed != [] && f.missed[0].chan == c
    case Woken => f.todo == [] && f.missed != [] && f.missed[0].chan in w.closed
    case Done(o) =>
      && o != NotInWaiter
      && (o == Success || o == Orphan ==> f.missed == [])
      && (o == Success ==> f.todo == [] && f.retry == [])
    case _ => f.todo != [] && f.retry == [] && !f.shouldAbort
  }

  function RegistrationIds(missed: seq<Registration>): set<string> {
    set r | r in missed :: r.input.inputId
  }

  /** Every requested input is found, still to do, waited for, or to be retried; nothing else is. */
  predicate CoverOk(f: Fetch) {
    && f.requested == RequiredInputs(f.block.transactions)
    && f.found.Keys <= InputIds(f.requested)
    && InputIds(f.requested) <= f.found.Keys + InputIds(f.todo) + RegistrationIds(f.missed) + InputIds(f.retry)
    && (forall c :: c in f.todo ==> c in f.requested)
    && (forall r :: r in f.missed ==> r.input in f.requested)
    && (forall c :: c in f.retry ==> c in f.requested)
  }

  predicate LockOk(s: State) {
    && (s.lock.Some? ==> s.lock.value in s.fetches)
    && (forall p :: p in s.fetches ==> (HoldsLock(s.fetches[p]) <==> s.lock == Some(p)))
  }

  /** The snapshot is a committed chain without the coin. */
  predicate SnapOk(e: Env, look: Look, id: string) {
    && ValidChain(e, look.snap)
    && (look.head.Some? ==> look.head == HeadOf(look.snap))
    && id !in StoredCoins(e, look.snap)
  }

  predicate HasCounted(x: Seen) {
    x.pc.Counted? || x.pc.Stored? || x.pc.Closed? || x.pc.Failed?
  }

  /** The BlockSeen call q filled the cache after the fetch looked there. */
  predicate InsertedSince(s: State, look: Look, q: nat) {
    q in s.seens && q !in look.before && HasInserted(s.seens[q])
  }

  /** Whoever filled the cache since and counted is visible in seen; if the coin is in the cache
      now, somebody inserted it since. */
  ghost predicate CacheOk(s: State, look: Look, id: string) {
    && look.before <= InsertedSeens(s.seens)
    && (forall q :: InsertedSince(s, look, q) && HasCounted(s.seens[q]) ==> s.seen > look.startSeen)
    && (id in s.cache ==> exists q :: InsertedSince(s, look, q) && id in BlockCreates(s.seens[q].block))
  }

  /** The chain is snap, or snap with one more block whose BlockAdded has yet to abort stale waits. */
  predicate AtOrOneAhead(s: State, snap: seq<Block>) {
    || s.chain == snap
    || ((s.sync.Committed? || s.sync.Cleaned?) && s.chain == snap + [s.sync.block])
  }

  predicate HeadOk(s: State, look: Look, removals: nat) {
    && look.snap != [] && look.head == HeadOf(look.snap)
    && removals <= s.removals
    && (removals == s.removals ==> AtOrOneAhead(s, look.snap))
  }

  ghost predicate NoneClosedSince(s: State, look: Look) {
    forall q :: InsertedSince(s, look, q) ==> !s.seens[q].pc.Closed?
  }

  ghost predicate LookOk(e: Env, s: State, f: Fetch)
    requires PhaseOk(s.waiter, f)
  {
    match f.pc
    case Started(n) => n <= s.seen
    case StoreMissed(l) => l.startSeen <= s.seen && SnapOk(e, l, f.todo[0].inputId)
    case CacheMissed(l) => PassOk(e, s, f, l)
    case Locked(l) => PassOk(e, s, f, l)
    case HeadMatched(l, r) => PassOk(e, s, f, l) && HeadOk(s, l, r)
    case SeenMatched(l, r) => PassOk(e, s, f, l) && HeadOk(s, l, r) && NoneClosedSince(s, l)
    case _ => true
  }

  ghost predicate PassOk(e: Env, s: State, f: Fetch, l: Look)
    requires f.todo != []
  {
    && l.startSeen <= s.seen
    && SnapOk(e, l, f.todo[0].inputId)
    && CacheOk(s, l, f.todo[0].inputId)
  }

  ghost predicate Inv(e: Env, s: State) {
    && ValidChain(e, s.chain)
    && Consistent(s.waiter)
    && CountsMatch(s)
    && LockOk(s)
    && (forall p :: p in s.fetches ==> RegistrationsKept(s.waiter, s.fetches[p]))
    && (forall p :: p in s.fetches ==> PhaseOk(s.waiter, s.fetches[p]))
    && (forall p :: p in s.fetches ==> CoverOk(s.fetches[p]))
    && (forall p :: p in s.fetches ==> LookOk(e, s, s.fetches[p]))
  }

  /** What the invariant says of one fetch. */
  lemma InvAt(e: Env, s: State, p: nat)
    requires Inv(e, s) && p in s.fetches
    ensures PhaseOk(s.waiter, s.fetches[p]) && RegistrationsKept(s.waiter, s.fetches[p])
    ensures CoverOk(s.fetches[p]) && LookOk(e, s, s.fetches[p])
  {
  }

  lemma InitialInv(e: Env, s: State)
    requires Initial(e, s)
    ensures Inv(e, s)
  {
  }

  // ---------- the wait table during a step ----------

  /** Each step keeps the table consistent and lets it evolve only forward. */
  lemma WaiterStep(e: Env, s: State, a: Action)
    requires Consistent(s.waiter) && Enabled(e, s, a)
    ensures Consistent(Do(e, s, a).waiter) && Evolves(s.waiter, Do(e, s, a).waiter)
  {
    match a
    case FetchAction(p, step) =>
      if step.AddListener? {
        RegisterKeeps(s.waiter, s.fetches[p].todo[0].txId, s.fetches[p].block.header.height);
      } else if step.DropListener? && s.fetches[p].missed[0].input.txId in s.waiter.table {
        ReleaseKeeps(s.waiter, s.fetches[p].missed[0].input.txId);
      } else {
        assert DoFetch(e, s, p, step).waiter == s.waiter;
      }
    case SeenAction(q, step) =>
      if step.CloseSeen? {
        CloseAllKeeps(s.waiter, TxHashes(s.seens[q].block), false);
      }
    case SyncAction(step) =>
      if step.AbortAdd? {
        CloseAllKeeps(s.waiter, StaleAt(s.waiter, s.sync.block.id.index), true);
      }
  }

  lemma CountsAdd(s: State, p: nat)
    requires CountsMatch(s) && FetchEnabled(s, p, AddListener)
    ensures CountsMatch(DoAddListener(s, p))
  {
    var s', f := DoAddListener(s, p), s.fetches[p];
    forall key
      ensures Listeners(s'.waiter, key) == Owed(s'.fetches, key)
      ensures key in s'.waiter.table ==> s'.waiter.table[key].listeners >= 1
    {
      OwedPut(s.fetches, p, s'.fetches[p], key);
      CountAppend(f.missed, s'.fetches[p].missed[|f.missed|], key);
      assert Listeners(s.waiter, key) == Owed(s.fetches, key);
    }
  }

  lemma CountsDrop(s: State, p: nat)
    requires CountsMatch(s) && FetchEnabled(s, p, DropListener)
    ensures CountsMatch(DoDropListener(s, p))
  {
    OwedIsListed(s, p, 0);
    var s' := DoDropListener(s, p);
    forall key
      ensures Listeners(s'.waiter, key) == Owed(s'.fetches, key)
      ensures key in s'.waiter.table ==> s'.waiter.table[key].listeners >= 1
    {
      OwedPut(s.fetches, p, s'.fetches[p], key);
      assert Listeners(s.waiter, key) == Owed(s.fetches, key);
    }
  }

  /** A quiet step leaves the registrations of its fetch alone. */
  lemma QuietRegistrations(e: Env, s: State, p: nat, step: FetchStep)
    requires FetchEnabled(s, p, step) && !step.AddListener? && !step.DropListener?
    ensures QuietStep(e, s, p, step).missed == if p in s.fetches then s.fetches[p].missed else []
  {
  }

  lemma CountsQuiet(s: State, p: nat, f: Fetch)
    requires CountsMatch(s) && f.missed == if p in s.fetches then s.fetches[p].missed else []
    ensures CountsMatch(PutFetch(s, p, f))
  {
    forall key
      ensures Listeners(s.waiter, key) == Owed(s.fetches[p := f], key)
    {
      OwedPut(s.fetches, p, f, key);
      assert Listeners(s.waiter, key) == Owed(s.fetches, key);
    }
  }

  lemma CountsClose(s: State, s': State, keys: set<string>, abort: bool)
    requires CountsMatch(s) && s'.fetches == s.fetches && s'.waiter == CloseAll(s.waiter, keys, abort)
    ensures CountsMatch(s')
  {
    forall key
      ensures Listeners(s'.waiter, key) == Owed(s'.fetches, key)
    {
      assert Listeners(s.waiter, key) == Owed(s.fetches, key);
    }
  }

  lemma CountsStep(e: Env, s: State, a: Action)
    requires CountsMatch(s) && Enabled(e, s, a)
    ensures CountsMatch(Do(e, s, a))
  {
    match a
    case FetchAction(p, step) =>
      if step.AddListener? {
        CountsAdd(s, p);
      } else if step.DropListener? {
        CountsDrop(s, p);
      } else {
        QuietRegistrations(e, s, p, step);
        CountsQuiet(s, p, QuietStep(e, s, p, step));
      }
    case SeenAction(q, step) =>
      if step.CloseSeen? {
        CountsClose(s, DoSeen(s, q, step), TxHashes(s.seens[q].block), false);
      }
    case SyncAction(step) =>
      if step.AbortAdd? {
        CountsClose(s, DoSync(e, s, step), StaleAt(s.waiter, s.sync.block.id.index), true);
      }
  }

  // ---------- registrations, phases and results ----------

  /** Entries that are there before and after a step are the same entries. */
  predicate Continues(w: Waiter, w': Waiter) {
    forall k :: k in w.table && k in w'.table ==> EntryEvolves(w.table[k], w'.table[k])
  }

  lemma ContinuesSame(w: Waiter)
    ensures Continues(w, w)
  {
  }

  lemma ContinuesRegister(w: Waiter, key: string, height: int)
    ensures Continues(w, Register(w, key, height))
  {
  }

  lemma ContinuesRelease(w: Waiter, key: string)
    requires key in w.table
    ensures Continues(w, Release(w, key))
  {
  }

  lemma ContinuesClose(w: Waiter, keys: set<string>, abort: bool)
    ensures Continues(w, CloseAll(w, keys, abort))
  {
  }

  lemma ContinuesStep(e: Env, s: State, a: Action)
    requires Enabled(e, s, a)
    ensures Continues(s.waiter, Do(e, s, a).waiter)
  {
    ContinuesSame(s.waiter);
    match a
    case FetchAction(p, step) =>
      if step.AddListener? {
        ContinuesRegister(s.waiter, s.fetches[p].todo[0].txId, s.fetches[p].block.header.height);
      } else if step.DropListener? && s.fetches[p].missed[0].input.txId in s.waiter.table {
        ContinuesRelease(s.waiter, s.fetches[p].missed[0].input.txId);
      } else {
        assert DoFetch(e, s, p, step).waiter == s.waiter;
      }
    case SeenAction(q, step) =>
      if step.CloseSeen? {
        ContinuesClose(s.waiter, TxHashes(s.seens[q].block), false);
      }
    case SyncAction(step) =>
      if step.AbortAdd? {
        ContinuesClose(s.waiter, StaleAt(s.waiter, s.sync.block.id.index), true);
      }
  }

  lemma RegistrationsStay(s: State, s': State, f: Fetch, f': Fetch, p: nat)
    requires CountsMatch(s') && Continues(s.waiter, s'.waiter)
    requires RegistrationsKept(s.waiter, f)
    requires p in s'.fetches && s'.fetches[p] == f' && f'.missed == f.missed && f'.block == f.block
    ensures RegistrationsKept(s'.waiter, f')
  {
    forall i | 0 <= i < |f'.missed|
      ensures Registered(s'.waiter, f'.missed[i], f'.block.header.height)
    {
      OwedIsListed(s', p, i);
      assert Registered(s.waiter, f.missed[i], f.block.header.height);
    }
  }

  lemma QuietKeepsBlock(e: Env, s: State, p: nat, step: FetchStep)
    requires FetchEnabled(s, p, step) && !step.AddListener? && !step.DropListener? && !step.StartFetch?
    ensures QuietStep(e, s, p, step).block == s.fetches[p].block
  {
  }

  lemma RegistrationsAdd(s: State, p: nat)
    requires FetchEnabled(s, p, AddListener) && RegistrationsKept(s.waiter, s.fetches[p])
    requires CountsMatch(DoAddListener(s, p)) && Continues(s.waiter, DoAddListener(s, p).waiter)
    ensures RegistrationsKept(DoAddListener(s, p).waiter, DoAddListener(s, p).fetches[p])
  {
    var s' := DoAddListener(s, p);
    var f, f' := s.fetches[p], s'.fetches[p];
    forall i | 0 <= i < |f'.missed|
      ensures Registered(s'.waiter, f'.missed[i], f'.block.header.height)
    {
      if i < |f.missed| {
        OwedIsListed(s', p, i);
        assert f'.missed[i] == f.missed[i];
        assert Registered(s.waiter, f.missed[i], f.block.header.height);
      }
    }
  }

  lemma RegistrationsDrop(s: State, p: nat)
    requires FetchEnabled(s, p, DropListener) && RegistrationsKept(s.waiter, s.fetches[p])
    requires CountsMatch(DoDropListener(s, p)) && Continues(s.waiter, DoDropListener(s, p).waiter)
    ensures RegistrationsKept(DoDropListener(s, p).waiter, DoDropListener(s, p).fetches[p])
  {
    var s' := DoDropListener(s, p);
    var f, f' := s.fetches[p], s'.fetches[p];
    assert Registered(s.waiter, f.missed[0], f.block.header.height);
    forall i | 0 <= i < |f'.missed|
      ensures Registered(s'.waiter, f'.missed[i], f'.block.header.height)
    {
      OwedIsListed(s', p, i);
      assert f'.missed[i] == f.missed[i + 1];
      assert Registered(s.waiter, f.missed[i + 1], f.block.header.height);
    }
  }

  /** The stepping fetch still has the entries it registered with. */
  lemma RegistrationsSelf(e: Env, s: State, p: nat, step: FetchStep)
    requires CountsMatch(s) && FetchEnabled(s, p, step)
    requires p in s.fetches ==> RegistrationsKept(s.waiter, s.fetches[p])
    ensures RegistrationsKept(DoFetch(e, s, p, step).waiter, DoFetch(e, s, p, step).fetches[p])
  {
    var s' := DoFetch(e, s, p, step);
    assert CountsMatch(s') && Continues(s.waiter, s'.waiter) by {
      CountsStep(e, s, FetchAction(p, step));
      ContinuesStep(e, s, FetchAction(p, step));
    }
    if step.AddListener? {
      RegistrationsAdd(s, p);
    } else if step.DropListener? {
      RegistrationsDrop(s, p);
    } else {
      QuietRegistrations(e, s, p, step);
      if !step.StartFetch? {
        QuietKeepsBlock(e, s, p, step);
        RegistrationsStay(s, s', s.fetches[p], s'.fetches[p], p);
      }
    }
  }

  lemma RegistrationsStep(e: Env, s: State, a: Action)
    requires Inv(e, s) && Enabled(e, s, a)
    ensures forall p :: p in Do(e, s, a).fetches ==> RegistrationsKept(Do(e, s, a).waiter, Do(e, s, a).fetches[p])
  {
    var s' := Do(e, s, a);
    CountsStep(e, s, a);
    ContinuesStep(e, s, a);
    forall p | p in s'.fetches
      ensures RegistrationsKept(s'.waiter, s'.fetches[p])
    {
      if a.FetchAction? && a.p == p {
        RegistrationsSelf(e, s, p, a.fetchStep);
      } else {
        OthersUntouched(e, s, a, p);
        RegistrationsStay(s, s', s.fetches[p], s'.fetches[p], p);
      }
    }
  }

  lemma FetchesUntouched(e: Env, s: State, a: Action)
    requires Enabled(e, s, a) && !a.FetchAction?
    ensures Do(e, s, a).fetches == s.fetches
  {
  }

  lemma OneFetchWritten(e: Env, s: State, p: nat, step: FetchStep)
    requires FetchEnabled(s, p, step)
    ensures p in DoFetch(e, s, p, step).fetches
    ensures DoFetch(e, s, p, step).fetches == s.fetches[p := DoFetch(e, s, p, step).fetches[p]]
  {
  }

  /** A step changes no fetch but the one that takes it. */
  lemma OthersUntouched(e: Env, s: State, a: Action, p: nat)
    requires Enabled(e, s, a) && !(a.FetchAction? && a.p == p)
    ensures p in Do(e, s, a).fetches <==> p in s.fetches
    ensures p in s.fetches ==> Do(e, s, a).fetches[p] == s.fetches[p]
  {
    if a.FetchAction? {
      OneFetchWritten(e, s, a.p, a.fetchStep);
    } else {
      FetchesUntouched(e, s, a);
    }
  }

  lemma PhaseStep(e: Env, s: State, a: Action)
    requires Inv(e, s) && Enabled(e, s, a)
    ensures forall p :: p in Do(e, s, a).fetches ==> PhaseOk(Do(e, s, a).waiter, Do(e, s, a).fetches[p])
  {
    var s' := Do(e, s, a);
    WaiterStep(e, s, a);
    forall p | p in s'.fetches
      ensures PhaseOk(s'.waiter, s'.fetches[p])
    {
      if a.FetchAction? && a.p == p {
        PhaseSelf(e, s, p, a.fetchStep);
      } else {
        OthersUntouched(e, s, a, p);
        assert PhaseOk(s.waiter, s.fetches[p]);
      }
    }
  }

  lemma PhaseSelf(e: Env, s: State, p: nat, step: FetchStep)
    requires FetchEnabled(s, p, step)
    requires p in s.fetches ==> PhaseOk(s.waiter, s.fetches[p]) && RegistrationsKept(s.waiter, s.fetches[p])
    ensures PhaseOk(DoFetch(e, s, p, step).waiter, DoFetch(e, s, p, step).fetches[p])
  {
    if p in s.fetches {
      if step.AddListener? {
        PhaseAdd(s, p);
      } else if step.DropListener? {
        PhaseDrop(s, p);
      } else {
        PhaseQuiet(e, s, p, step);
      }
    }
  }

  lemma PhaseAdd(s: State, p: nat)
    requires FetchEnabled(s, p, AddListener) && PhaseOk(s.waiter, s.fetches[p])
    ensures PhaseOk(DoAddListener(s, p).waiter, DoAddListener(s, p).fetches[p])
  {
  }

  lemma PhaseDrop(s: State, p: nat)
    requires FetchEnabled(s, p, DropListener) && PhaseOk(s.waiter, s.fetches[p])
    requires RegistrationsKept(s.waiter, s.fetches[p])
    ensures PhaseOk(DoDropListener(s, p).waiter, DoDropListener(s, p).fetches[p])
  {
    assert Registered(s.waiter, s.fetches[p].missed[0], s.fetches[p].block.header.height);
  }

  lemma PhaseQuiet(e: Env, s: State, p: nat, step: FetchStep)
    requires p in s.fetches && FetchEnabled(s, p, step) && !step.AddListener? && !step.DropListener?
    requires PhaseOk(s.waiter, s.fetches[p]) && RegistrationsKept(s.waiter, s.fetches[p])
    ensures PhaseOk(s.waiter, QuietStep(e, s, p, step))
  {
    if step.GetEntry? {
      assert Registered(s.waiter, s.fetches[p].missed[0], s.fetches[p].block.header.height);
    }
  }

  lemma CoverFound(f: Fetch, c: AccountCoin)
    requires CoverOk(f) && f.todo != []
    ensures CoverOk(FoundCoin(f, c))
  {
    var f' := FoundCoin(f, c);
    assert f.todo == [f.todo[0]] + f'.todo;
    assert InputIds(f.todo) == {f.todo[0].inputId} + InputIds(f'.todo);
    assert f'.found.Keys == f.found.Keys + {f.todo[0].inputId};
    assert f.todo[0] in f.requested;
  }

  lemma CoverAdd(s: State, p: nat)
    requires FetchEnabled(s, p, AddListener) && CoverOk(s.fetches[p])
    ensures CoverOk(DoAddListener(s, p).fetches[p])
  {
    var f, f' := s.fetches[p], DoAddListener(s, p).fetches[p];
    var r := f'.missed[|f.missed|];
    assert f.todo == [f.todo[0]] + f'.todo;
    assert InputIds(f.todo) == {f.todo[0].inputId} + InputIds(f'.todo);
    assert RegistrationIds(f'.missed) == RegistrationIds(f.missed) + {r.input.inputId};
  }

  lemma CoverRelease(f: Fetch, aborted: bool)
    requires CoverOk(f) && f.missed != []
    ensures CoverOk(ReleaseFirst(f, aborted))
  {
    var f', r := ReleaseFirst(f, aborted), f.missed[0];
    assert f.missed == [r] + f'.missed;
    assert RegistrationIds(f.missed) == {r.input.inputId} + RegistrationIds(f'.missed);
    assert InputIds(f'.retry) == InputIds(f.retry) + {r.input.inputId};
  }

  lemma CoverRecurse(f: Fetch)
    requires CoverOk(f) && f.todo == []
    ensures CoverOk(Recurse(f))
  {
    assert InputIds(f.todo) == {};
  }

  /** Apart from a successful lookup and the recursion, a quiet step moves only the program counter. */
  lemma QuietShape(e: Env, s: State, p: nat, step: FetchStep)
    requires p in s.fetches && FetchEnabled(s, p, step) && !step.AddListener? && !step.DropListener?
    ensures var f, f' := s.fetches[p], QuietStep(e, s, p, step);
            || f' == At(f, f'.pc)
            || (f.todo != [] && exists c :: f' == FoundCoin(f, c))
            || (step.EndWaits? && f' == Recurse(f))
  {
    var f := s.fetches[p];
    if step.LookInStore? && f.todo[0].inputId in StoredCoins(e, s.chain) {
      assert FoundCoin(f, StoredCoins(e, s.chain)[f.todo[0].inputId]).pc == Looking;
    }
  }

  lemma CoverQuiet(e: Env, s: State, p: nat, step: FetchStep)
    requires p in s.fetches && FetchEnabled(s, p, step) && !step.AddListener? && !step.DropListener?
    requires CoverOk(s.fetches[p]) && PhaseOk(s.waiter, s.fetches[p])
    ensures CoverOk(QuietStep(e, s, p, step))
  {
    var f, f' := s.fetches[p], QuietStep(e, s, p, step);
    QuietShape(e, s, p, step);
    if f.todo != [] && exists c :: f' == FoundCoin(f, c) {
      var c :| f' == FoundCoin(f, c);
      CoverFound(f, c);
    } else if step.EndWaits? {
      CoverRecurse(f);
    }
  }

  lemma CoverSelf(e: Env, s: State, p: nat, step: FetchStep)
    requires FetchEnabled(s, p, step) && CountsMatch(s)
    requires p in s.fetches ==> CoverOk(s.fetches[p]) && PhaseOk(s.waiter, s.fetches[p])
    ensures CoverOk(DoFetch(e, s, p, step).fetches[p])
  {
    if p in s.fetches {
      var f := s.fetches[p];
      if step.AddListener? {
        CoverAdd(s, p);
      } else if step.DropListener? {
        OwedIsListed(s, p, 0);
        CoverRelease(f, s.waiter.table[f.missed[0].input.txId].aborted);
      } else {
        CoverQuiet(e, s, p, step);
      }
    } else {
      CoverNew(step.ergoBlock);
    }
  }

  lemma CoverNew(b: FullBlock)
    ensures CoverOk(NewFetch(b))
  {
  }

  lemma CoverStep(e: Env, s: State, a: Action)
    requires Inv(e, s) && Enabled(e, s, a)
    ensures forall p :: p in Do(e, s, a).fetches ==> CoverOk(Do(e, s, a).fetches[p])
  {
    var s' := Do(e, s, a);
    forall p | p in s'.fetches
      ensures CoverOk(s'.fetches[p])
    {
      if a.FetchAction? && a.p == p {
        CoverSelf(e, s, p, a.fetchStep);
      } else {
        OthersUntouched(e, s, a, p);
        assert CoverOk(s.fetches[p]);
      }
    }
  }

  // ---------- the waiter lock and what a pass has read ----------

  lemma LockStep(e: Env, s: State, a: Action)
    requires LockOk(s) && CountsMatch(s) && Enabled(e, s, a)
    ensures LockOk(Do(e, s, a))
  {
    match a
    case FetchAction(p, step) =>
      if step.DropListener? {
        OwedIsListed(s, p, 0);
      }
      OneFetchWritten(e, s, p, step);
      LockTaken(e, s, p, step);
      LockWritten(s, DoFetch(e, s, p, step), p);
    case SeenAction(q, step) => assert DoSeen(s, q, step).fetches == s.fetches;
    case SyncAction(step) => assert DoSync(e, s, step).fetches == s.fetches;
  }

  predicate HeldBy(s: State, p: nat) {
    p in s.fetches && HoldsLock(s.fetches[p])
  }

  /** The lock is taken only when it is free, and follows the stepping fetch. */
  lemma LockTaken(e: Env, s: State, p: nat, step: FetchStep)
    requires FetchEnabled(s, p, step)
    requires step.DropListener? ==> s.fetches[p].missed[0].input.txId in s.waiter.table
    ensures var s' := DoFetch(e, s, p, step);
            p in s'.fetches && s'.lock == LockAfter(s, p, s'.fetches[p]) && (HeldBy(s', p) ==> s.lock.None? || HeldBy(s, p))
  {
  }

  lemma LockWritten(s: State, s': State, p: nat)
    requires LockOk(s) && p in s'.fetches && s'.fetches == s.fetches[p := s'.fetches[p]]
    requires s'.lock == LockAfter(s, p, s'.fetches[p]) && (HeldBy(s', p) ==> s.lock.None? || HeldBy(s, p))
    ensures LockOk(s')
  {
  }

  /** LookOk reads nothing but the store, the cache, the seen counter and the BlockSeen calls. */
  lemma LookFrame(e: Env, s: State, s': State, f: Fetch)
    requires s' == s.(fetches := s'.fetches, waiter := s'.waiter, lock := s'.lock)
    requires PhaseOk(s.waiter, f) && PhaseOk(s'.waiter, f) && LookOk(e, s, f)
    ensures LookOk(e, s', f)
  {
    assert forall l, q :: InsertedSince(s, l, q) == InsertedSince(s', l, q);
    assert forall l, id :: CacheOk(s, l, id) == CacheOk(s', l, id);
  }

  lemma CacheOkSeen(s: State, q: nat, step: SeenStep, l: Look, id: string)
    requires SeenEnabled(s, q, step) && CacheOk(s, l, id) && l.startSeen <= s.seen
    ensures CacheOk(DoSeen(s, q, step), l, id)
  {
    var s' := DoSeen(s, q, step);
    forall x | InsertedSince(s', l, x) && HasCounted(s'.seens[x])
      ensures s'.seen > l.startSeen
    {
      assert step.CountSeen? || (InsertedSince(s, l, x) && HasCounted(s.seens[x]));
    }
    if id in s'.cache {
      if id in s.cache {
        var x :| InsertedSince(s, l, x) && id in BlockCreates(s.seens[x].block);
        assert InsertedSince(s', l, x);
      } else {
        assert InsertedSince(s', l, q) && id in BlockCreates(s'.seens[q].block);
      }
    }
  }

  lemma NoneClosedSeen(s: State, q: nat, step: SeenStep, l: Look)
    requires SeenEnabled(s, q, step) && NoneClosedSince(s, l) && !step.CloseSeen?
    requires l.before <= InsertedSeens(s.seens)
    ensures NoneClosedSince(DoSeen(s, q, step), l)
  {
    var s' := DoSeen(s, q, step);
    forall x | InsertedSince(s', l, x)
      ensures !s'.seens[x].pc.Closed?
    {
      assert x != q ==> InsertedSince(s, l, x);
    }
  }

  lemma LookSeen(e: Env, s: State, q: nat, step: SeenStep, f: Fetch)
    requires SeenEnabled(s, q, step) && (HoldsLock(f) ==> s.lock.Some?)
    requires PhaseOk(s.waiter, f) && PhaseOk(DoSeen(s, q, step).waiter, f) && LookOk(e, s, f)
    ensures LookOk(e, DoSeen(s, q, step), f)
  {
    if f.pc.CacheMissed? || HoldsLock(f) {
      CacheOkSeen(s, q, step, f.pc.look, f.todo[0].inputId);
    }
    if f.pc.SeenMatched? {
      NoneClosedSeen(s, q, step, f.pc.look);
    }
  }

  /** A cache that only loses coins keeps what a pass has learnt from it. */
  lemma CacheOkShrinks(s: State, s': State, l: Look, id: string)
    requires CacheOk(s, l, id)
    requires s'.seens == s.seens && s'.seen == s.seen && s'.cache.Keys <= s.cache.Keys
    ensures CacheOk(s', l, id)
  {
    assert forall q :: InsertedSince(s, l, q) == InsertedSince(s', l, q);
  }

  lemma NoneClosedFrame(s: State, s': State, l: Look)
    requires NoneClosedSince(s, l) && s'.seens == s.seens
    ensures NoneClosedSince(s', l)
  {
    assert forall q :: InsertedSince(s, l, q) == InsertedSince(s', l, q);
  }

  lemma SyncFrame(e: Env, s: State, step: SyncStep)
    requires SyncEnabled(e, s, step)
    ensures var s' := DoSync(e, s, step); s'.seens == s.seens && s'.seen == s.seen && s'.cache.Keys <= s.cache.Keys
  {
  }

  /** The head of a pass that holds the waiter lock, so that no abort section runs. */
  lemma HeadOkSync(e: Env, s: State, step: SyncStep, l: Look, removals: nat)
    requires SyncEnabled(e, s, step) && s.lock.Some? && HeadOk(s, l, removals)
    ensures HeadOk(DoSync(e, s, step), l, removals)
  {
  }

  lemma LookSync(e: Env, s: State, step: SyncStep, f: Fetch)
    requires SyncEnabled(e, s, step) && (HoldsLock(f) ==> s.lock.Some?)
    requires PhaseOk(s.waiter, f) && PhaseOk(DoSync(e, s, step).waiter, f) && LookOk(e, s, f)
    ensures LookOk(e, DoSync(e, s, step), f)
  {
    var s' := DoSync(e, s, step);
    SyncFrame(e, s, step);
    if f.pc.CacheMissed? || HoldsLock(f) {
      CacheOkShrinks(s, s', f.pc.look, f.todo[0].inputId);
    }
    if f.pc.HeadMatched? || f.pc.SeenMatched? {
      HeadOkSync(e, s, step, f.pc.look, f.pc.removals);
    }
    if f.pc.SeenMatched? {
      NoneClosedFrame(s, s', f.pc.look);
    }
  }

  lemma LookStoreSelf(e: Env, s: State, f: Fetch, headError: bool, ioError: bool)
    requires ValidChain(e, s.chain) && f.todo != [] && f.pc.Started? && f.pc.startSeen <= s.seen
    ensures var f' := AfterStoreLookup(e, s, f, headError, ioError);
            f'.pc.StoreMissed? ==> f'.todo == f.todo && f'.pc.look.startSeen <= s.seen && SnapOk(e, f'.pc.look, f.todo[0].inputId)
  {
  }

  lemma MatchHeadSelf(e: Env, s: State, l: Look)
    requires ValidChain(e, s.chain) && ValidChain(e, l.snap)
    requires s.chain != [] && (l.head.Some? ==> l.head == HeadOf(l.snap)) && HeadOf(s.chain) == l.head
    ensures HeadOk(s, l, s.removals)
  {
    HeadDeterminesChain(e, s.chain, l.snap);
  }

  lemma LookQuiet(e: Env, s: State, p: nat, step: FetchStep)
    requires ValidChain(e, s.chain) && p in s.fetches && FetchEnabled(s, p, step)
    requires !step.AddListener? && !step.DropListener?
    requires PhaseOk(s.waiter, s.fetches[p]) && LookOk(e, s, s.fetches[p])
    requires PhaseOk(s.waiter, QuietStep(e, s, p, step))
    ensures LookOk(e, s, QuietStep(e, s, p, step))
  {
    var f := s.fetches[p];
    match step
    case LookInStore(headError, ioError) => LookStoreSelf(e, s, f, headError, ioError);
    case MatchHead(_) =>
      if s.chain != [] && HeadOf(s.chain) == f.pc.look.head {
        MatchHeadSelf(e, s, f.pc.look);
      }
    case _ =>
  }

  lemma LookSelf(e: Env, s: State, p: nat, step: FetchStep)
    requires ValidChain(e, s.chain) && FetchEnabled(s, p, step)
    requires p in s.fetches ==> PhaseOk(s.waiter, s.fetches[p]) && LookOk(e, s, s.fetches[p])
    requires PhaseOk(DoFetch(e, s, p, step).waiter, DoFetch(e, s, p, step).fetches[p])
    ensures LookOk(e, DoFetch(e, s, p, step), DoFetch(e, s, p, step).fetches[p])
  {
    if p in s.fetches && !step.AddListener? && !step.DropListener? {
      LookQuiet(e, s, p, step);
      LookFrame(e, s, DoFetch(e, s, p, step), QuietStep(e, s, p, step));
    }
  }

  lemma LookOther(e: Env, s: State, a: Action, f: Fetch)
    requires Enabled(e, s, a) && (HoldsLock(f) ==> s.lock.Some?)
    requires PhaseOk(s.waiter, f) && LookOk(e, s, f) && PhaseOk(Do(e, s, a).waiter, f)
    ensures LookOk(e, Do(e, s, a), f)
  {
    match a
    case FetchAction(_, _) => LookFrame(e, s, Do(e, s, a), f);
    case SeenAction(q, step) => LookSeen(e, s, q, step, f);
    case SyncAction(step) => LookSync(e, s, step, f);
  }

  lemma LookStep(e: Env, s: State, a: Action, p: nat)
    requires Inv(e, s) && Enabled(e, s, a) && p in Do(e, s, a).fetches
    requires PhaseOk(Do(e, s, a).waiter, Do(e, s, a).fetches[p])
    ensures LookOk(e, Do(e, s, a), Do(e, s, a).fetches[p])
  {
    if p in s.fetches {
      assert PhaseOk(s.waiter, s.fetches[p]) && LookOk(e, s, s.fetches[p]);
    }
    if a.FetchAction? && a.p == p {
      LookSelf(e, s, p, a.fetchStep);
    } else {
      OthersUntouched(e, s, a, p);
      LookOther(e, s, a, s.fetches[p]);
    }
  }

  // ---------- every run ----------

  lemma ChainStep(e: Env, s: State, a: Action)
    requires ValidChain(e, s.chain) && Enabled(e, s, a)
    ensures ValidChain(e, Do(e, s, a).chain)
  {
    if a.SyncAction? && a.syncStep.CommitAdd? {
      ExtendValid(e, s.chain, s.sync.block);
    } else if a.SyncAction? && a.syncStep.RemoveHead? {
      PrefixValid(e, s.chain, |s.chain| - 1);
    } else {
      assert Do(e, s, a).chain == s.chain;
    }
  }

  /** Every step keeps the invariant. */
  lemma InvStep(e: Env, s: State, a: Action)
    requires Inv(e, s) && Enabled(e, s, a)
    ensures Inv(e, Do(e, s, a))
  {
    var s' := Do(e, s, a);
    ChainStep(e, s, a);
    WaiterStep(e, s, a);
    CountsStep(e, s, a);
    LockStep(e, s, a);
    RegistrationsStep(e, s, a);
    PhaseStep(e, s, a);
    CoverStep(e, s, a);
    forall p | p in s'.fetches
      ensures LookOk(e, s', s'.fetches[p])
    {
      LookStep(e, s, a, p);
    }
  }

  /** Every state of every run satisfies the invariant. */
  lemma {:induction false} RunInv(e: Env, states: seq<State>, actions: seq<Action>, i: nat)
    requires IsRun(e, states, actions) && i < |states|
    ensures Inv(e, states[i])
  {
    if i == 0 {
      InitialInv(e, states[0]);
    } else {
      RunInv(e, states, actions, i - 1);
      assert Follows(e, states[i - 1], actions[i - 1], states[i - 1 + 1]);
      InvStep(e, states[i - 1], actions[i - 1]);
    }
  }
}
