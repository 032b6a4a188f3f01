/** The concurrent coin lookup as a transition system. Any number of Block fetches run beside any
    number of BlockSeen calls and the syncer's serial BlockAdded and BlockRemoved calls. Every
    action is one critical section, one unsynchronised read, or one storage call. */
module Protocol {
  import opened Types
  import opened CoinEffects
  import opened WaitTables
  import opened Inputs

  /** What does not change during a run: the configured genesis block, the bootstrapped coins, and
      the block that each hash stands for. */
  datatype Env = Env(genesisHash: string, genesisCoins: Coins, blocks: map<string, Block>)

  // ---------- storage: a chain of committed blocks ----------

  function HeadOf(chain: seq<Block>): Option<BlockIdentifier> {
    if chain == [] then None else Some(chain[|chain| - 1].id)
  }

  function StoredCoins(e: Env, chain: seq<Block>): Coins {
    CoinsAfter(e.genesisCoins, chain)
  }

  /** b may be committed on top of chain. The genesis block has index 1. */
  predicate Connects(e: Env, chain: seq<Block>, b: Block) {
    && b.id.hash in e.blocks && e.blocks[b.id.hash] == b
    && b.id.index == |chain| + 1
    && (if chain == [] then b.id.hash == e.genesisHash else b.parent == chain[|chain| - 1].id)
  }

  predicate ValidChain(e: Env, chain: seq<Block>) {
    forall i :: 0 <= i < |chain| ==> Connects(e, chain[..i], chain[i])
  }

  // ---------- one Block fetch ----------

  datatype Outcome = Success | Orphan | Cancelled | HardError | NotInWaiter

  /** A listener that this fetch added to the wait table, and the channel of its entry. */
  datatype Registration = Registration(input: InputCtx, chan: nat)

  /** What one pass of findCoin has read: the seen counter, the storage snapshot, the head it found
      there, and which BlockSeen calls had filled the cache when the cache was consulted. */
  datatype Look = Look(startSeen: int, snap: seq<Block>, head: Option<BlockIdentifier>, before: set<nat>)

  datatype Pc =
    | AtHeaderCheck
    | Looking
    | Started(startSeen: int)
    | StoreMissed(look: Look)
    | CacheMissed(look: Look)
    | Locked(look: Look)
    | HeadMatched(look: Look, removals: nat)
    | SeenMatched(look: Look, removals: nat)
    | Waits
    | Waiting(chan: nat)
    | Woken
    | Done(outcome: Outcome)

  /** A findCoins call. todo are the inputs still to look up in this level of the recursion, missed
      the listeners registered and not yet released, retry the inputs to recurse on. */
  datatype Fetch = Fetch(
    block: FullBlock,
    requested: seq<InputCtx>,
    todo: seq<InputCtx>,
    missed: seq<Registration>,
    retry: seq<InputCtx>,
    found: Coins,
    shouldAbort: bool,
    pc: Pc)

  // ---------- BlockSeen and the syncer ----------

  datatype SeenPc = Spawned | Inserted | Counted | Stored | Closed | Failed

  datatype Seen = Seen(block: Block, pc: SeenPc)

  /** Idle, or a BlockAdded call before its commit, before its cache cleanup, before its abort section. */
  datatype Sync = Idle | Adding(block: Block) | Committed(block: Block) | Cleaned(block: Block)

  datatype State = State(
    chain: seq<Block>,
    removals: nat,
    cache: Coins,
    seen: int,
    waiter: Waiter,
    lock: Option<nat>,
    fetches: map<nat, Fetch>,
    seens: map<nat, Seen>,
    sync: Sync)

  predicate Initial(e: Env, s: State) {
    && ValidChain(e, s.chain)
    && s == State(s.chain, 0, map[], 0, EmptyWaiter, None, map[], map[], Idle)
  }

  datatype FetchStep =
    | StartFetch(ergoBlock: FullBlock)
    | CheckHeader(ioError: bool)
    | ReadSeen
    | LookInStore(headError: bool, ioError: bool)
    | LookInCache
    | LockWaiter
    | MatchHead(ioError: bool)
    | MatchSeen
    | AddListener
    | EndLookups
    | GetEntry
    | WakeUp
    | DropListener
    | EndWaits
    | Cancel

  datatype SeenStep =
    | StartSeen(block: Block)
    | InsertSeen
    | CountSeen
    | StoreSeen(ioError: bool)
    | CloseSeen

  datatype SyncStep =
    | StartAdd(block: Block)
    | FailAdd
    | CommitAdd
    | CleanAdd
    | AbortAdd
    | RemoveHead

  datatype Action =
    | FetchAction(p: nat, fetchStep: FetchStep)
    | SeenAction(q: nat, seenStep: SeenStep)
    | SyncAction(syncStep: SyncStep)

  // ---------- fetch steps ----------

  predicate IsGenesis(e: Env, b: FullBlock) {
    e.genesisHash == b.header.id
  }

  /** Whether the block would be next on the stored head but does not connect to it. */
  predicate Orphaned(chain: seq<Block>, b: FullBlock) {
    && chain != []
    && b.header.height == chain[|chain| - 1].id.index + 1
    && b.header.parentId != chain[|chain| - 1].id.hash
  }

  function NewFetch(b: FullBlock): Fetch {
    var inputs := RequiredInputs(b.transactions);
    Fetch(b, inputs, inputs, [], [], map[], false, AtHeaderCheck)
  }

  function At(f: Fetch, pc: Pc): Fetch {
    f.(pc := pc)
  }

  /** The lookup of the first input succeeded with coin c. */
  function FoundCoin(f: Fetch, c: AccountCoin): Fetch
    requires f.todo != []
  {
    f.(found := f.found[f.todo[0].inputId := c], todo := f.todo[1..], pc := Looking)
  }

  function AfterStoreLookup(e: Env, s: State, f: Fetch, headError: bool, ioError: bool): Fetch
    requires f.todo != [] && f.pc.Started?
  {
    var id := f.todo[0].inputId;
    if headError && !IsGenesis(e, f.block) then At(f, Done(HardError))
    else if s.chain == [] && !IsGenesis(e, f.block) then At(f, Looking)
    else if ioError then At(f, Done(HardError))
    else if id in StoredCoins(e, s.chain) then FoundCoin(f, StoredCoins(e, s.chain)[id])
    else At(f, StoreMissed(Look(f.pc.startSeen, s.chain, if headError then None else HeadOf(s.chain), {})))
  }

  predicate HasInserted(x: Seen) {
    !x.pc.Spawned?
  }

  function InsertedSeens(seens: map<nat, Seen>): set<nat> {
    set q | q in seens && HasInserted(seens[q])
  }

  function AfterCacheLookup(s: State, f: Fetch): Fetch
    requires f.todo != [] && f.pc.StoreMissed?
  {
    var id := f.todo[0].inputId;
    if id in s.cache then FoundCoin(f, s.cache[id])
    else At(f, CacheMissed(f.pc.look.(before := InsertedSeens(s.seens))))
  }

  function TxHashes(b: Block): set<string> {
    set tx | tx in b.transactions :: tx.hash
  }

  function ReleaseFirst(f: Fetch, aborted: bool): Fetch
    requires f.missed != []
  {
    f.(missed := f.missed[1..], retry := f.retry + [f.missed[0].input],
    shouldAbort := f.shouldAbort || aborted, pc := Waits)
  }

  function Recurse(f: Fetch): Fetch {
    if f.shouldAbort then At(f, Done(Orphan))
    else f.(todo := f.retry, retry := [], pc := AtHeaderCheck)
  }

  /** Which steps the fetch p can take. */
  predicate FetchEnabled(s: State, p: nat, step: FetchStep) {
    if step.StartFetch? then p !in s.fetches
    else
      && p in s.fetches
      && var f := s.fetches[p];
         match step
         case CheckHeader(_) => f.pc.AtHeaderCheck?
         case ReadSeen => f.pc.Looking? && f.todo != []
         case LookInStore(_, _) => f.pc.Started? && f.todo != []
         case LookInCache => f.pc.StoreMissed? && f.todo != []
         case LockWaiter => f.pc.CacheMissed? && s.lock.None?
         case MatchHead(_) => f.pc.Locked?
         case MatchSeen => f.pc.HeadMatched?
         case AddListener => f.pc.SeenMatched? && f.todo != []
         case EndLookups => f.pc.Looking? && f.todo == []
         case GetEntry => f.pc.Waits? && f.missed != [] && s.lock.None?
         case WakeUp => f.pc.Waiting? && f.pc.chan in s.waiter.closed
         case DropListener => f.pc.Woken? && f.missed != [] && s.lock.None?
         case EndWaits => f.pc.Waits? && f.missed == []
         case Cancel => (f.pc.Looking? && f.todo != []) || f.pc.Waiting?
  }

  /** The fetch after a step that leaves the wait table alone. */
  function QuietStep(e: Env, s: State, p: nat, step: FetchStep): Fetch
    requires FetchEnabled(s, p, step) && !step.AddListener? && !step.DropListener?
  {
    if step.StartFetch? then NewFetch(step.ergoBlock)
    else
      var f := s.fetches[p];
      match step
      case CheckHeader(ioError) =>
        At(f, if ioError then Done(HardError) else if Orphaned(s.chain, f.block) then Done(Orphan) else Looking)
      case ReadSeen => At(f, Started(s.seen))
      case LookInStore(headError, ioError) => AfterStoreLookup(e, s, f, headError, ioError)
      case LookInCache => AfterCacheLookup(s, f)
      case LockWaiter => At(f, Locked(f.pc.look))
      case MatchHead(ioError) =>
        At(f, if ioError || s.chain == [] then Done(HardError)
        else if HeadOf(s.chain) != f.pc.look.head then Looking
        else HeadMatched(f.pc.look, s.removals))
      case MatchSeen => At(f, if s.seen != f.pc.look.startSeen then Looking else SeenMatched(f.pc.look, f.pc.removals))
      case EndLookups => At(f, if f.missed == [] then Done(Success) else Waits)
      case GetEntry =>
        var key := f.missed[0].input.txId;
        At(f, if key in s.waiter.table then Waiting(s.waiter.table[key].chan) else Done(NotInWaiter))
      case WakeUp => At(f, Woken)
      case EndWaits => Recurse(f)
      case Cancel => At(f, Done(Cancelled))
  }

  /** Whether the fetch has the waiter lock at this point. */
  predicate HoldsLock(f: Fetch) {
    f.pc.Locked? || f.pc.HeadMatched? || f.pc.SeenMatched?
  }

  /** The lock after the fetch p moved from f to f': taken on entering the locked points, freed on leaving. */
  function LockAfter(s: State, p: nat, f': Fetch): Option<nat> {
    if HoldsLock(f') then Some(p)
    else if p in s.fetches && HoldsLock(s.fetches[p]) then None
    else s.lock
  }

  function PutFetch(s: State, p: nat, f: Fetch): State {
    s.(fetches := s.fetches[p := f], lock := LockAfter(s, p, f))
  }

  /** The registering section: adds a listener under the id of the spending transaction. */
  function DoAddListener(s: State, p: nat): State
    requires FetchEnabled(s, p, AddListener)
  {
    var f := s.fetches[p];
    var key := f.todo[0].txId;
    var w := Register(s.waiter, key, f.block.header.height);
    var reg := Registration(f.todo[0], w.table[key].chan);
    PutFetch(s, p, f.(missed := f.missed + [reg], todo := f.todo[1..], pc := Looking)).(waiter := w)
  }

  /** The releasing section; without an entry the call returns and keeps the lock for good. */
  function DoDropListener(s: State, p: nat): State
    requires FetchEnabled(s, p, DropListener)
  {
    var f := s.fetches[p];
    var key := f.missed[0].input.txId;
    if key !in s.waiter.table then PutFetch(s, p, At(f, Done(NotInWaiter))).(lock := Some(p))
    else PutFetch(s, p, ReleaseFirst(f, s.waiter.table[key].aborted)).(waiter := Release(s.waiter, key))
  }

  function DoFetch(e: Env, s: State, p: nat, step: FetchStep): State
    requires FetchEnabled(s, p, step)
  {
    if step.AddListener? then DoAddListener(s, p)
    else if step.DropListener? then DoDropListener(s, p)
    else PutFetch(s, p, QuietStep(e, s, p, step))
  }

  // ---------- BlockSeen and syncer steps ----------

  predicate SeenEnabled(s: State, q: nat, step: SeenStep) {
    match step
    case StartSeen(_) => q !in s.seens
    case InsertSeen => q in s.seens && s.seens[q].pc.Spawned?
    case CountSeen => q in s.seens && s.seens[q].pc.Inserted?
    case StoreSeen(_) => q in s.seens && s.seens[q].pc.Counted?
    case CloseSeen => q in s.seens && s.seens[q].pc.Stored? && s.lock.None?
  }

  function PutSeen(s: State, q: nat, pc: SeenPc): State
    requires q in s.seens
  {
    s.(seens := s.seens[q := s.seens[q].(pc := pc)])
  }

  function DoSeen(s: State, q: nat, step: SeenStep): State
    requires SeenEnabled(s, q, step)
  {
    match step
    case StartSeen(b) => s.(seens := s.seens[q := Seen(b, Spawned)])
    case InsertSeen => PutSeen(s, q, Inserted).(cache := s.cache + BlockCreates(s.seens[q].block))
    case CountSeen => PutSeen(s, q, Counted).(seen := s.seen + 1)
    case StoreSeen(ioError) => PutSeen(s, q, if ioError then Failed else Stored)
    case CloseSeen => PutSeen(s, q, Closed).(waiter := CloseAll(s.waiter, TxHashes(s.seens[q].block), false))
  }

  predicate SyncEnabled(e: Env, s: State, step: SyncStep) {
    match step
    case StartAdd(_) => s.sync.Idle?
    case FailAdd => s.sync.Adding?
    case CommitAdd => s.sync.Adding? && Connects(e, s.chain, s.sync.block)
    case CleanAdd => s.sync.Committed?
    case AbortAdd => s.sync.Cleaned? && s.lock.None?
    case RemoveHead => s.sync.Idle? && s.chain != []
  }

  function DoSync(e: Env, s: State, step: SyncStep): State
    requires SyncEnabled(e, s, step)
  {
    match step
    case StartAdd(b) => s.(sync := Adding(b))
    case FailAdd => s.(sync := Idle)
    case CommitAdd => s.(chain := s.chain + [s.sync.block], sync := Committed(s.sync.block))
    case CleanAdd => s.(cache := s.cache - BlockCreates(s.sync.block).Keys, sync := Cleaned(s.sync.block))
    case AbortAdd =>
      s.(waiter := CloseAll(s.waiter, StaleAt(s.waiter, s.sync.block.id.index), true), sync := Idle)
    case RemoveHead => s.(chain := s.chain[..|s.chain| - 1], removals := s.removals + 1)
  }

  predicate Enabled(e: Env, s: State, a: Action) {
    match a
    case FetchAction(p, step) => FetchEnabled(s, p, step)
    case SeenAction(q, step) => SeenEnabled(s, q, step)
    case SyncAction(step) => SyncEnabled(e, s, step)
  }

  function Do(e: Env, s: State, a: Action): State
    requires Enabled(e, s, a)
  {
    match a
    case FetchAction(p, step) => DoFetch(e, s, p, step)
    case SeenAction(q, step) => DoSeen(s, q, step)
    case SyncAction(step) => DoSync(e, s, step)
  }

  /** A run: every state follows from the one before by an enabled action. */
  ghost predicate IsRun(e: Env, states: seq<State>, actions: seq<Action>) {
    && |states| == |actions| + 1
    && Initial(e, states[0])
    && forall i {:trigger actions[i]} :: 0 <= i < |actions| ==> Follows(e, states[i], actions[i], states[i + 1])
  }

  predicate Follows(e: Env, s: State, a: Action, s': State) {
    Enabled(e, s, a) && s' == Do(e, s, a)
  }
}
