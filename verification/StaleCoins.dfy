/** A run in which a successful fetch has found a coin that its block's chain does not have: the block
    that created it was seen and never added, so nothing took the coin out of the cache. */
module StaleCoins {
  import opened Types
  import opened CoinEffects
  import opened WaitTables
  import opened Inputs
  import opened Converter
  import opened Protocol
  import opened Provenance
  import opened Samples

  const FIRST := Block(BlockIdentifier(1, "b1"), BlockIdentifier(1, "b1"), 0, [])
  /** Two blocks on top of the first: SIDE creates box2 and is never added, MAIN is empty. */
  const SIDE := Block(BlockIdentifier(2, "side"), FIRST.id, 0, [Moved("t2", "box0", "box2")])
  const MAIN := Block(BlockIdentifier(2, "main"), FIRST.id, 0, [])
  /** A block on top of MAIN that spends box2. */
  const THIRD := FullBlock(BlockHeader("b3", "main", 3, 0), [Move("t3", "box2", "box3")])
  const ENV := Env("b1", map["box0" := BoxCoin("box0")], map["b1" := FIRST, "side" := SIDE, "main" := MAIN])

  const INPUT3 := InputCtx("t3", "box2")
  const STALE: Coins := map["box2" := BoxCoin("box2")]
  const CHAIN := [FIRST, MAIN]

  function Quiet(chain: seq<Block>, cache: Coins, seens: map<nat, Seen>, sync: Sync): State {
    State(chain, 0, cache, 0, EmptyWaiter, None, map[], seens, sync)
  }

  function SideIs(pc: SeenPc): map<nat, Seen> {
    map[0 := Seen(SIDE, pc)]
  }

  /** The fetch of THIRD, after MAIN was added. */
  function Fetching(todo: seq<InputCtx>, found: Coins, pc: Pc): State {
    Quiet(CHAIN, STALE, SideIs(Inserted), Idle)
      .(fetches := map[0 := Fetch(THIRD, [INPUT3], todo, [], [], found, false, pc)])
  }

  const MISS := Look(0, CHAIN, Some(MAIN.id), {})

  lemma Effects()
    ensures BlockCreates(SIDE) == STALE && BlockCreates(MAIN) == map[] && BlockCreates(FIRST) == map[]
    ensures StoredCoins(ENV, [FIRST]) == ENV.genesisCoins && StoredCoins(ENV, CHAIN) == ENV.genesisCoins
    ensures RequiredInputs(THIRD.transactions) == [INPUT3]
  {
    MovedOps("t2", "box0", "box2");
    MoveRequires("t3", "box2", "box3");
    assert [FIRST][..0] == [] && CHAIN[..1] == [FIRST];
    assert StoredCoins(ENV, []) == ENV.genesisCoins;
  }

  lemma ChainsValid()
    ensures Connects(ENV, [], FIRST) && Connects(ENV, [FIRST], MAIN)
    ensures ValidChain(ENV, [FIRST]) && ValidChain(ENV, CHAIN)
  {
    assert [FIRST][..0] == [] && CHAIN[..0] == [] && CHAIN[..1] == [FIRST];
  }

  lemma OneCoinPerId()
    ensures IdsNameCoins(ENV)
  {
    Effects();
    forall b | Known(ENV, b)
      ensures b == FIRST || b == SIDE || b == MAIN
    {
      assert b.id.hash in {"b1", "side", "main"};
    }
  }

  lemma SeenSteps()
    ensures Follows(ENV, Quiet([FIRST], map[], map[], Idle), SeenAction(0, StartSeen(SIDE)), Quiet([FIRST], map[], SideIs(Spawned), Idle))
    ensures Follows(ENV, Quiet([FIRST], map[], SideIs(Spawned), Idle), SeenAction(0, InsertSeen), Quiet([FIRST], STALE, SideIs(Inserted), Idle))
  {
    Effects();
    assert map[] + STALE == STALE;
  }

  lemma AddSteps()
    ensures Follows(ENV, Quiet([FIRST], STALE, SideIs(Inserted), Idle), SyncAction(StartAdd(MAIN)), Quiet([FIRST], STALE, SideIs(Inserted), Adding(MAIN)))
    ensures Follows(ENV, Quiet([FIRST], STALE, SideIs(Inserted), Adding(MAIN)), SyncAction(CommitAdd), Quiet(CHAIN, STALE, SideIs(Inserted), Committed(MAIN)))
    ensures Follows(ENV, Quiet(CHAIN, STALE, SideIs(Inserted), Committed(MAIN)), SyncAction(CleanAdd), Quiet(CHAIN, STALE, SideIs(Inserted), Cleaned(MAIN)))
    ensures Follows(ENV, Quiet(CHAIN, STALE, SideIs(Inserted), Cleaned(MAIN)), SyncAction(AbortAdd), Quiet(CHAIN, STALE, SideIs(Inserted), Idle))
  {
    Effects();
    ChainsValid();
    assert [FIRST] + [MAIN] == CHAIN;
    assert CloseAll(EmptyWaiter, StaleAt(EmptyWaiter, 2), true) == EmptyWaiter;
  }

  lemma FetchStarts()
    ensures Follows(ENV, Quiet(CHAIN, STALE, SideIs(Inserted), Idle), FetchAction(0, StartFetch(THIRD)), Fetching([INPUT3], map[], AtHeaderCheck))
  {
    Effects();
  }

  lemma FetchChecks()
    ensures Follows(ENV, Fetching([INPUT3], map[], AtHeaderCheck), FetchAction(0, CheckHeader(false)), Fetching([INPUT3], map[], Looking))
    ensures Follows(ENV, Fetching([INPUT3], map[], Looking), FetchAction(0, ReadSeen), Fetching([INPUT3], map[], Started(0)))
  {
  }

  lemma StoreMisses()
    ensures Follows(ENV, Fetching([INPUT3], map[], Started(0)), FetchAction(0, LookInStore(false, false)), Fetching([INPUT3], map[], StoreMissed(MISS)))
  {
    Effects();
  }

  lemma CacheHits()
    ensures Follows(ENV, Fetching([INPUT3], map[], StoreMissed(MISS)), FetchAction(0, LookInCache), Fetching([], STALE, Looking))
  {
    assert [INPUT3][1..] == [];
    var none: Coins := map[];
    assert none["box2" := BoxCoin("box2")] == STALE;
  }

  lemma FetchEnds()
    ensures Follows(ENV, Fetching([], STALE, Looking), FetchAction(0, EndLookups), Fetching([], STALE, Done(Success)))
  {
  }

  ghost predicate KnownRunTo(states: seq<State>, actions: seq<Action>, s: State) {
    RunTo(ENV, states, actions, s) && SeesKnownBlocks(ENV, actions)
  }

  lemma Grow(states: seq<State>, actions: seq<Action>, s: State, a: Action, s': State)
    returns (states': seq<State>, actions': seq<Action>)
    requires KnownRunTo(states, actions, s) && Follows(ENV, s, a, s')
    requires a.SeenAction? && a.seenStep.StartSeen? ==> Known(ENV, a.seenStep.block)
    ensures KnownRunTo(states', actions', s')
  {
    states', actions' := Extend(ENV, states, actions, s, a, s');
  }

  lemma AddedRun() returns (states: seq<State>, actions: seq<Action>)
    ensures KnownRunTo(states, actions, Quiet(CHAIN, STALE, SideIs(Inserted), Idle))
  {
    ChainsValid();
    var s0, s1, s2 := Quiet([FIRST], map[], map[], Idle), Quiet([FIRST], map[], SideIs(Spawned), Idle), Quiet([FIRST], STALE, SideIs(Inserted), Idle);
    var s3, s4 := s2.(sync := Adding(MAIN)), Quiet(CHAIN, STALE, SideIs(Inserted), Committed(MAIN));
    var s5, s6 := s4.(sync := Cleaned(MAIN)), s4.(sync := Idle);
    states, actions := [s0], [];
    SeenSteps();
    states, actions := Grow(states, actions, s0, SeenAction(0, StartSeen(SIDE)), s1);
    states, actions := Grow(states, actions, s1, SeenAction(0, InsertSeen), s2);
    AddSteps();
    states, actions := Grow(states, actions, s2, SyncAction(StartAdd(MAIN)), s3);
    states, actions := Grow(states, actions, s3, SyncAction(CommitAdd), s4);
    states, actions := Grow(states, actions, s4, SyncAction(CleanAdd), s5);
    states, actions := Grow(states, actions, s5, SyncAction(AbortAdd), s6);
  }

  lemma LookingRun() returns (states: seq<State>, actions: seq<Action>)
    ensures KnownRunTo(states, actions, Fetching([INPUT3], map[], Started(0)))
  {
    states, actions := AddedRun();
    var s0, s1 := Quiet(CHAIN, STALE, SideIs(Inserted), Idle), Fetching([INPUT3], map[], AtHeaderCheck);
    var s2, s3 := Fetching([INPUT3], map[], Looking), Fetching([INPUT3], map[], Started(0));
    FetchStarts();
    FetchChecks();
    states, actions := Grow(states, actions, s0, FetchAction(0, StartFetch(THIRD)), s1);
    states, actions := Grow(states, actions, s1, FetchAction(0, CheckHeader(false)), s2);
    states, actions := Grow(states, actions, s2, FetchAction(0, ReadSeen), s3);
  }

  lemma FoundRun() returns (states: seq<State>, actions: seq<Action>)
    ensures KnownRunTo(states, actions, Fetching([], STALE, Done(Success)))
  {
    states, actions := LookingRun();
    var s0, s1 := Fetching([INPUT3], map[], Started(0)), Fetching([INPUT3], map[], StoreMissed(MISS));
    var s2, s3 := Fetching([], STALE, Looking), Fetching([], STALE, Done(Success));
    StoreMisses();
    CacheHits();
    FetchEnds();
    states, actions := Grow(states, actions, s0, FetchAction(0, LookInStore(false, false)), s1);
    states, actions := Grow(states, actions, s1, FetchAction(0, LookInCache), s2);
    states, actions := Grow(states, actions, s2, FetchAction(0, EndLookups), s3);
  }

  /** The fetch of THIRD succeeds and its block converts, with a coin that no block of its chain created. */
  lemma StaleCoinIsFound(node: TreeToAddress) returns (states: seq<State>, actions: seq<Action>)
    ensures IsRun(ENV, states, actions) && SeesKnownBlocks(ENV, actions) && IdsNameCoins(ENV)
    ensures ValidChain(ENV, CHAIN) && THIRD.header.parentId == CHAIN[|CHAIN| - 1].id.hash
    ensures var s := states[|actions|];
            && s.chain == CHAIN && 0 in s.fetches && s.fetches[0].block == THIRD && s.fetches[0].pc == Done(Success)
            && "box2" in s.fetches[0].found && "box2" !in StoredCoins(ENV, CHAIN)
            && ConvertBlock(node, s.fetches[0].found, THIRD).Ok?
  {
    states, actions := FoundRun();
    OneCoinPerId();
    Effects();
    ChainsValid();
    MoveConverts(node, STALE, "t3", "box2", "box3");
  }
}
