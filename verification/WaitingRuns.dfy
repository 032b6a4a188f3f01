/** A run in which a fetch registers a listener for a coin, the block that creates the coin is seen to
    the end, and the fetch still waits on an open channel. */
module WaitingRuns {
  import opened Types
  import opened CoinEffects
  import opened WaitTables
  import opened Converter
  import opened Protocol
  import opened ReorgFree
  import opened EndToEnd
  import opened Samples

  // ---------- a valid chain of three blocks ----------

  const ERGO1 := FullBlock(BlockHeader("b1", "b0", 1, 0), [])
  const ERGO2 := FullBlock(BlockHeader("b2", "b1", 2, 0), [Move("t2", "box0", "box2")])
  const ERGO3 := FullBlock(BlockHeader("b3", "b2", 3, 0), [Move("t3", "box2", "box3")])

  const FIRST := Block(BlockIdentifier(1, "b1"), BlockIdentifier(1, "b1"), 0, [])
  const SECOND := Block(BlockIdentifier(2, "b2"), BlockIdentifier(1, "b1"), 0, [Moved("t2", "box0", "box2")])
  const THIRD := Block(BlockIdentifier(3, "b3"), BlockIdentifier(2, "b2"), 0, [Moved("t3", "box2", "box3")])

  const GENESIS: Coins := map["box0" := BoxCoin("box0")]
  const MADE: Coins := map["box2" := BoxCoin("box2")]
  const ENV := Env("b1", GENESIS, map["b1" := FIRST, "b2" := SECOND, "b3" := THIRD])
  const PLAN := Plan([ERGO1, ERGO2, ERGO3], [FIRST, SECOND, THIRD])

  lemma Creates()
    ensures BlockCreates(FIRST) == map[] && BlockCreates(SECOND) == MADE
    ensures BlockCreates(THIRD) == map["box3" := BoxCoin("box3")]
  {
    MovedOps("t2", "box0", "box2");
    MovedOps("t3", "box2", "box3");
  }

  lemma Prefixes()
    ensures PLAN.blocks[..0] == [] && PLAN.blocks[..1] == [FIRST] && PLAN.blocks[..2] == [FIRST, SECOND]
  {
  }

  lemma StoredFirst()
    ensures StoredCoins(ENV, []) == GENESIS && StoredCoins(ENV, [FIRST]) == GENESIS
  {
    assert [FIRST][..0] == [];
  }

  lemma StoredSecond()
    ensures StoredCoins(ENV, [FIRST, SECOND]) == MADE
  {
    StoredFirst();
    assert [FIRST, SECOND][..1] == [FIRST];
    MovedOps("t2", "box0", "box2");
    assert (GENESIS - {"box0"})["box2" := BoxCoin("box2")] == MADE;
  }

  lemma BlocksValid(node: TreeToAddress)
    ensures ValidAt(node, GENESIS, ERGO1, FIRST) && ValidAt(node, GENESIS, ERGO2, SECOND) && ValidAt(node, MADE, ERGO3, THIRD)
  {
    MoveConverts(node, GENESIS, "t2", "box0", "box2");
    MoveConverts(node, MADE, "t3", "box2", "box3");
    MoveValid(node, GENESIS, "t2", "box0", "box2");
    MoveValid(node, MADE, "t3", "box2", "box3");
  }

  lemma ChainValid()
    ensures ValidChain(ENV, PLAN.blocks) && ValidChain(ENV, [FIRST])
  {
    Prefixes();
    assert [FIRST][..0] == [];
    assert Connects(ENV, [], FIRST) && Connects(ENV, [FIRST], SECOND) && Connects(ENV, [FIRST, SECOND], THIRD);
  }

  lemma PlanIsValid(node: TreeToAddress)
    ensures ValidPlan(node, ENV, PLAN)
  {
    Prefixes();
    StoredFirst();
    StoredSecond();
    BlocksValid(node);
    ChainValid();
  }

  lemma PlanIsDistinct()
    ensures DistinctTransactions(PLAN) && DistinctCoins(ENV, PLAN)
  {
    Creates();
    assert TxHashes(FIRST) == {} && TxHashes(SECOND) == {"t2"} && TxHashes(THIRD) == {"t3"};
  }

  // ---------- the run ----------

  const INPUT3 := InputCtx("t3", "box2")
  const MISS := Look(0, [FIRST], Some(FIRST.id), {})
  const LISTENING := Waiter(map["t3" := Entry(1, 0, false, false, 3)], {}, 1, false)

  const START := State([FIRST], 0, map[], 0, EmptyWaiter, None, map[], map[], Idle)

  /** The fetch of the third block before it registers. */
  function Fetching(pc: Pc): Fetch {
    Fetch(ERGO3, [INPUT3], [INPUT3], [], [], map[], false, pc)
  }

  function At0(pc: Pc): State {
    START.(fetches := map[0 := Fetching(pc)], lock := if HoldsLock(Fetching(pc)) then Some(0) else None)
  }

  function RegisteredAt(pc: Pc): Fetch {
    Fetch(ERGO3, [INPUT3], [], [Registration(INPUT3, 0)], [], map[], false, pc)
  }

  function At1(pc: Pc): State {
    START.(fetches := map[0 := RegisteredAt(pc)], waiter := LISTENING)
  }

  /** The fetch waits, and BlockSeen for the second block is at pc. */
  function At2(pc: SeenPc): State {
    At1(Waiting(0)).(
      seens := map[1 := Seen(SECOND, pc)],
      cache := if pc.Spawned? then map[] else MADE,
      seen := if pc.Spawned? || pc.Inserted? then 0 else 1)
  }

  lemma Starts()
    ensures Follows(ENV, START, FetchAction(0, StartFetch(ERGO3)), At0(AtHeaderCheck))
    ensures Allowed(PLAN, START, FetchAction(0, StartFetch(ERGO3)))
  {
    MoveRequires("t3", "box2", "box3");
    assert PLAN.ergo[2] == ERGO3;
  }

  lemma Checks()
    ensures Follows(ENV, At0(AtHeaderCheck), FetchAction(0, CheckHeader(false)), At0(Looking))
    ensures Follows(ENV, At0(Looking), FetchAction(0, ReadSeen), At0(Started(0)))
  {
  }

  lemma StoreMisses()
    ensures Follows(ENV, At0(Started(0)), FetchAction(0, LookInStore(false, false)), At0(StoreMissed(MISS)))
  {
    StoredFirst();
  }

  lemma CacheMisses()
    ensures Follows(ENV, At0(StoreMissed(MISS)), FetchAction(0, LookInCache), At0(CacheMissed(MISS)))
  {
    assert InsertedSeens(map[]) == {};
  }

  lemma Locks()
    ensures Follows(ENV, At0(CacheMissed(MISS)), FetchAction(0, LockWaiter), At0(Locked(MISS)))
    ensures Follows(ENV, At0(Locked(MISS)), FetchAction(0, MatchHead(false)), At0(HeadMatched(MISS, 0)))
  {
  }

  lemma Matches()
    ensures Follows(ENV, At0(HeadMatched(MISS, 0)), FetchAction(0, MatchSeen), At0(SeenMatched(MISS, 0)))
  {
  }

  lemma Registers()
    ensures Follows(ENV, At0(SeenMatched(MISS, 0)), FetchAction(0, AddListener), At1(Looking))
  {
    assert [INPUT3][1..] == [];
    assert [] + [Registration(INPUT3, 0)] == [Registration(INPUT3, 0)];
    assert Register(EmptyWaiter, "t3", 3) == LISTENING;
    var s' := DoAddListener(At0(SeenMatched(MISS, 0)), 0);
    assert s'.fetches[0] == RegisteredAt(Looking);
    assert s'.fetches == map[0 := RegisteredAt(Looking)];
  }

  lemma WaitsOn()
    ensures Follows(ENV, At1(Looking), FetchAction(0, EndLookups), At1(Waits))
    ensures Follows(ENV, At1(Waits), FetchAction(0, GetEntry), At1(Waiting(0)))
  {
  }

  lemma SeenStarts()
    ensures Follows(ENV, At1(Waiting(0)), SeenAction(1, StartSeen(SECOND)), At2(Spawned))
    ensures Allowed(PLAN, At1(Waiting(0)), SeenAction(1, StartSeen(SECOND)))
  {
    assert PLAN.blocks[1] == SECOND && PLAN.ergo[1] == ERGO2 && ERGO3 != ERGO2;
  }

  lemma SeenInserts()
    ensures Follows(ENV, At2(Spawned), SeenAction(1, InsertSeen), At2(Inserted))
  {
    Creates();
    assert map[] + MADE == MADE;
  }

  lemma SeenCounts()
    ensures Follows(ENV, At2(Inserted), SeenAction(1, CountSeen), At2(Counted))
    ensures Follows(ENV, At2(Counted), SeenAction(1, StoreSeen(false)), At2(Stored))
  {
  }

  lemma SeenCloses()
    ensures Follows(ENV, At2(Stored), SeenAction(1, CloseSeen), At2(Closed))
  {
    assert TxHashes(SECOND) == {"t2"};
    assert OpenAmong(LISTENING, {"t2"}) == {};
    assert CloseAll(LISTENING, {"t2"}, false) == LISTENING;
  }

  lemma ReachStart(node: TreeToAddress)
    ensures Reaches(ENV, PLAN, START)
  {
    PlanIsValid(node);
    ValidPlanCovers(node, ENV, PLAN);
    ChainValid();
    Prefixes();
    assert IsPlannedRun(ENV, PLAN, [START], []) && RunTo(ENV, [START], [], START);
  }

  lemma ReachMissed(node: TreeToAddress)
    ensures Reaches(ENV, PLAN, At0(CacheMissed(MISS)))
  {
    ReachStart(node);
    Starts();
    Reach(ENV, PLAN, START, FetchAction(0, StartFetch(ERGO3)), At0(AtHeaderCheck));
    Checks();
    Reach(ENV, PLAN, At0(AtHeaderCheck), FetchAction(0, CheckHeader(false)), At0(Looking));
    Reach(ENV, PLAN, At0(Looking), FetchAction(0, ReadSeen), At0(Started(0)));
    StoreMisses();
    Reach(ENV, PLAN, At0(Started(0)), FetchAction(0, LookInStore(false, false)), At0(StoreMissed(MISS)));
    CacheMisses();
    Reach(ENV, PLAN, At0(StoreMissed(MISS)), FetchAction(0, LookInCache), At0(CacheMissed(MISS)));
  }

  lemma ReachWaiting(node: TreeToAddress)
    ensures Reaches(ENV, PLAN, At1(Waiting(0)))
  {
    ReachMissed(node);
    Locks();
    Reach(ENV, PLAN, At0(CacheMissed(MISS)), FetchAction(0, LockWaiter), At0(Locked(MISS)));
    Reach(ENV, PLAN, At0(Locked(MISS)), FetchAction(0, MatchHead(false)), At0(HeadMatched(MISS, 0)));
    Matches();
    Reach(ENV, PLAN, At0(HeadMatched(MISS, 0)), FetchAction(0, MatchSeen), At0(SeenMatched(MISS, 0)));
    Registers();
    Reach(ENV, PLAN, At0(SeenMatched(MISS, 0)), FetchAction(0, AddListener), At1(Looking));
    WaitsOn();
    Reach(ENV, PLAN, At1(Looking), FetchAction(0, EndLookups), At1(Waits));
    Reach(ENV, PLAN, At1(Waits), FetchAction(0, GetEntry), At1(Waiting(0)));
  }

  lemma ReachClosed(node: TreeToAddress)
    ensures Reaches(ENV, PLAN, At2(Closed))
  {
    ReachWaiting(node);
    SeenStarts();
    Reach(ENV, PLAN, At1(Waiting(0)), SeenAction(1, StartSeen(SECOND)), At2(Spawned));
    SeenInserts();
    Reach(ENV, PLAN, At2(Spawned), SeenAction(1, InsertSeen), At2(Inserted));
    SeenCounts();
    Reach(ENV, PLAN, At2(Inserted), SeenAction(1, CountSeen), At2(Counted));
    Reach(ENV, PLAN, At2(Counted), SeenAction(1, StoreSeen(false)), At2(Stored));
    SeenCloses();
    Reach(ENV, PLAN, At2(Stored), SeenAction(1, CloseSeen), At2(Closed));
  }

  /** On a valid chain without reorganisations: the fetch of the third block waits for box2, the block
      that creates box2 has been seen, its coin is in the cache and its closing section is done, and
      still the channel of the wait is open. */
  lemma SeenCreatorDoesNotWake(node: TreeToAddress) returns (states: seq<State>, actions: seq<Action>)
    ensures IsPlannedRun(ENV, PLAN, states, actions)
    ensures ValidPlan(node, ENV, PLAN) && DistinctTransactions(PLAN) && DistinctCoins(ENV, PLAN)
    ensures var s := states[|actions|];
            && 0 in s.fetches && s.fetches[0].missed == [Registration(INPUT3, 0)]
            && s.fetches[0].pc == Waiting(0) && 0 !in s.waiter.closed
            && 1 in s.seens && s.seens[1] == Seen(SECOND, Closed)
            && "box2" in BlockCreates(SECOND) && "box2" in s.cache
  {
    ReachClosed(node);
    states, actions :| IsPlannedRun(ENV, PLAN, states, actions) && RunTo(ENV, states, actions, At2(Closed));
    PlanIsValid(node);
    PlanIsDistinct();
    Creates();
  }
}
