/** Loading the coins and balances that exist before the first block. */
module Bootstrap {
  import opened Types
  import opened MapSums
  import opened Ledger

  /** One configured balance; the value is a decimal text. */
  datatype BootstrapBalance = BootstrapBalance(account: string, value: Text)

  datatype BootstrapError = NotAnInteger | NotPositive | SetFailed | CommitFailed | ImportFailed

  /** The database errors of one bootstrap: which balance cannot be set, and whether the commit or the
      import of the coins fails. */
  datatype Faults = Faults(setFails: set<nat>, commitFails: bool, importFails: bool)

  /** The k-th balance is a positive number, and the database takes it. */
  predicate CanBeSet(list: seq<BootstrapBalance>, faults: Faults, k: nat)
    requires k < |list|
  {
    list[k].value.Num? && list[k].value.n > 0 && k !in faults.setFails
  }

  /** The k-th balance is the first that cannot be set, and error says why. */
  predicate IsFirstError(list: seq<BootstrapBalance>, faults: Faults, k: nat, error: BootstrapError)
    requires k < |list|
  {
    && (forall j :: 0 <= j < k ==> CanBeSet(list, faults, j))
    && match error
       case NotAnInteger => list[k].value == NotANumber
       case NotPositive => list[k].value.Num? && list[k].value.n <= 0
       case SetFailed => list[k].value.Num? && list[k].value.n > 0 && k in faults.setFails
       case _ => false
  }

  /** The balances after setting each listed one in turn. */
  function SetAll(balances: map<string, int>, list: seq<BootstrapBalance>): map<string, int> {
    if list == [] then balances
    else SetAll(balances, list[..|list| - 1])[list[|list| - 1].account := list[|list| - 1].value.Nano()]
  }

  /** The coins after importing each listed one in turn. */
  function ImportAll(coins: Coins, list: seq<AccountCoin>): Coins {
    if list == [] then coins
    else ImportAll(coins, list[..|list| - 1])[list[|list| - 1].coinId := list[|list| - 1]]
  }

  /** Every entry can be set and the commit goes through. */
  predicate BalancesCommit(list: seq<BootstrapBalance>, faults: Faults) {
    (forall k :: 0 <= k < |list| ==> CanBeSet(list, faults, k)) && !faults.commitFails
  }

  lemma AllCanBeSet(list: seq<BootstrapBalance>, faults: Faults)
    ensures (forall k :: 0 <= k < |list| ==> CanBeSet(list, faults, k)) <==>
              forall k :: 0 <= k < |list| ==> list[k].value.Num? && list[k].value.n > 0 && k !in faults.setFails
  {
    if forall k :: 0 <= k < |list| ==> CanBeSet(list, faults, k) {
      forall k | 0 <= k < |list|
        ensures list[k].value.Num? && list[k].value.n > 0 && k !in faults.setFails
      {
        assert CanBeSet(list, faults, k);
      }
    }
  }

  /** What a bootstrap leaves in storage. */
  datatype Stored = Stored(balances: map<string, int>, coins: Coins)

  function Loaded(
      balances: map<string, int>, coins: Coins, list: seq<BootstrapBalance>, utxos: seq<AccountCoin>, faults: Faults): Stored
  {
    if !BalancesCommit(list, faults) then Stored(balances, coins)
    else Stored(SetAll(balances, list), if faults.importFails then coins else ImportAll(coins, utxos))
  }

  class Storage {
    var balances: map<string, int>
    var coins: Coins

    /** Sets the balances in one database transaction, committed only if every entry is good. */
    method BootstrapBalances(list: seq<BootstrapBalance>, faults: Faults) returns (error: Option<BootstrapError>)
      modifies this`balances
      ensures error.None? <==>
                && (forall k :: 0 <= k < |list| ==> list[k].value.Num? && list[k].value.n > 0 && k !in faults.setFails)
                && !faults.commitFails
      ensures error.None? ==> balances == SetAll(old(balances), list)
      ensures error.Some? ==> balances == old(balances)
      ensures error == Some(CommitFailed) ==> faults.commitFails && forall k :: 0 <= k < |list| ==> CanBeSet(list, faults, k)
      ensures error.Some? && error.value != CommitFailed ==>
                exists k :: 0 <= k < |list| && IsFirstError(list, faults, k, error.value)
    {
      var pending := balances;
      for k := 0 to |list|
        invariant pending == SetAll(balances, list[..k])
        invariant forall j :: 0 <= j < k ==> CanBeSet(list, faults, j)
      {
        assert list[..k + 1][..k] == list[..k];
        var amount := list[k].value;
        if amount.NotANumber? {
          assert IsFirstError(list, faults, k, NotAnInteger) && !CanBeSet(list, faults, k);
          return Some(NotAnInteger);
        }
        if amount.n < 1 {
          assert IsFirstError(list, faults, k, NotPositive) && !CanBeSet(list, faults, k);
          return Some(NotPositive);
        }
        if k in faults.setFails {
          assert IsFirstError(list, faults, k, SetFailed) && !CanBeSet(list, faults, k);
          return Some(SetFailed);
        }
        pending := pending[list[k].account := amount.n];
      }
      assert list[..|list|] == list;
      AllCanBeSet(list, faults);
      if faults.commitFails {
        return Some(CommitFailed);
      }
      balances := pending;
      return None;
    }

    /** Balances first, then the coins in a transaction of their own: a failed import leaves the
        balances committed. */
    method BootstrapGenesisState(list: seq<BootstrapBalance>, utxos: seq<AccountCoin>, faults: Faults)
      returns (error: Option<BootstrapError>)
      modifies this
      ensures error.None? <==> BalancesCommit(list, faults) && !faults.importFails
      ensures error == Some(ImportFailed) <==> BalancesCommit(list, faults) && faults.importFails
      ensures balances == if error.None? || error == Some(ImportFailed) then SetAll(old(balances), list) else old(balances)
      ensures coins == if error.None? then ImportAll(old(coins), utxos) else old(coins)
      ensures Stored(balances, coins) == Loaded(old(balances), old(coins), list, utxos, faults)
    {
      error := BootstrapBalances(list, faults);
      AllCanBeSet(list, faults);
      if error.Some? {
        assert error != Some(ImportFailed);
        return;
      }
      if faults.importFails {
        return Some(ImportFailed);
      }
      var imported := coins;
      for k := 0 to |utxos|
        invariant imported == ImportAll(coins, utxos[..k])
      {
        assert utxos[..k + 1][..k] == utxos[..k];
        imported := imported[utxos[k].coinId := utxos[k]];
      }
      assert utxos[..|utxos|] == utxos;
      coins := imported;
      return None;
    }
  }

  // ---------- all or nothing ----------

  /** The bootstrap reports an error. */
  predicate Fails(list: seq<BootstrapBalance>, faults: Faults) {
    !BalancesCommit(list, faults) || faults.importFails
  }

  /** The half-way state: something was written, but not everything that should have been. */
  predicate HalfLoaded(
      balances: map<string, int>, coins: Coins, list: seq<BootstrapBalance>, utxos: seq<AccountCoin>, after: Stored)
  {
    && after != Stored(balances, coins)
    && after != Stored(SetAll(balances, list), ImportAll(coins, utxos))
  }

  /** The bootstrap as a whole is not all-or-nothing. An error leaves the storage changed exactly when
      the balances are committed, the import fails, and some balance was not there before; the state
      left is half-way exactly when the import would have changed something too. */
  lemma HalfLoadedIff(
      balances: map<string, int>, coins: Coins, list: seq<BootstrapBalance>, utxos: seq<AccountCoin>, faults: Faults)
    ensures Fails(list, faults) && Loaded(balances, coins, list, utxos, faults) != Stored(balances, coins) <==>
              BalancesCommit(list, faults) && faults.importFails && SetAll(balances, list) != balances
    ensures HalfLoaded(balances, coins, list, utxos, Loaded(balances, coins, list, utxos, faults)) <==>
              && BalancesCommit(list, faults) && faults.importFails
              && SetAll(balances, list) != balances && ImportAll(coins, utxos) != coins
  {
  }

  // ---------- what was committed ----------

  predicate DistinctAccounts(list: seq<BootstrapBalance>) {
    forall j, k :: 0 <= j < k < |list| ==> list[j].account != list[k].account
  }

  /** For distinct accounts the committed balances are the list, and other accounts keep theirs. */
  lemma {:induction false} SetAllIsTheList(balances: map<string, int>, list: seq<BootstrapBalance>)
    requires DistinctAccounts(list)
    ensures forall k :: 0 <= k < |list| ==> list[k].account in SetAll(balances, list) && SetAll(balances, list)[list[k].account] == list[k].value.Nano()
    ensures forall a :: (forall k :: 0 <= k < |list| ==> list[k].account != a) ==>
                          (a in SetAll(balances, list) <==> a in balances) && (a in balances ==> SetAll(balances, list)[a] == balances[a])
  {
    if list != [] {
      var init := list[..|list| - 1];
      SetAllIsTheList(balances, init);
      assert forall k :: 0 <= k < |init| ==> init[k] == list[k];
    }
  }

  /** For any list, an account that is listed ends with its last listed value. */
  lemma {:induction false} SetAllLast(balances: map<string, int>, list: seq<BootstrapBalance>, k: nat)
    requires k < |list| && forall j :: k < j < |list| ==> list[j].account != list[k].account
    ensures list[k].account in SetAll(balances, list) && SetAll(balances, list)[list[k].account] == list[k].value.Nano()
  {
    if k < |list| - 1 {
      SetAllLast(balances, list[..|list| - 1], k);
    }
  }

  /** For any list of coins, an identifier that is listed ends with its last listed coin. */
  lemma {:induction false} ImportAllLast(coins: Coins, list: seq<AccountCoin>, k: nat)
    requires k < |list| && forall j :: k < j < |list| ==> list[j].coinId != list[k].coinId
    ensures list[k].coinId in ImportAll(coins, list) && ImportAll(coins, list)[list[k].coinId] == list[k]
  {
    if k < |list| - 1 {
      ImportAllLast(coins, list[..|list| - 1], k);
    }
  }

  /** What is not listed stays as it was. */
  lemma {:induction false} UnlistedStays(
      balances: map<string, int>, coins: Coins, list: seq<BootstrapBalance>, utxos: seq<AccountCoin>, account: string, id: string)
    requires forall k :: 0 <= k < |list| ==> list[k].account != account
    requires forall k :: 0 <= k < |utxos| ==> utxos[k].coinId != id
    ensures account in SetAll(balances, list) <==> account in balances
    ensures account in balances ==> SetAll(balances, list)[account] == balances[account]
    ensures id in ImportAll(coins, utxos) <==> id in coins
    ensures id in coins ==> ImportAll(coins, utxos)[id] == coins[id]
    decreases |list| + |utxos|
  {
    if list != [] {
      UnlistedStays(balances, coins, list[..|list| - 1], utxos, account, id);
    } else if utxos != [] {
      UnlistedStays(balances, coins, list, utxos[..|utxos| - 1], account, id);
    }
  }

  /** The configured coins and balances belong together: entry by entry the same account and value,
      with distinct accounts and distinct coins. */
  predicate Match(list: seq<BootstrapBalance>, utxos: seq<AccountCoin>) {
    && |list| == |utxos|
    && DistinctAccounts(list)
    && (forall j, k :: 0 <= j < k < |utxos| ==> utxos[j].coinId != utxos[k].coinId)
    && (forall k :: 0 <= k < |list| ==> list[k].account == utxos[k].account && list[k].value == utxos[k].amount && list[k].value.Num?)
  }

  lemma {:induction false} ImportedIds(utxos: seq<AccountCoin>)
    ensures forall id :: id in ImportAll(map[], utxos) <==> exists k :: 0 <= k < |utxos| && utxos[k].coinId == id
    ensures forall id :: id in ImportAll(map[], utxos) ==> ImportAll(map[], utxos)[id] in utxos && ImportAll(map[], utxos)[id].coinId == id
  {
    if utxos != [] {
      var init := utxos[..|utxos| - 1];
      ImportedIds(init);
      assert forall k :: 0 <= k < |init| ==> init[k] == utxos[k];
    }
  }

  lemma MatchInit(list: seq<BootstrapBalance>, utxos: seq<AccountCoin>)
    requires Match(list, utxos) && list != []
    ensures Match(list[..|list| - 1], utxos[..|utxos| - 1])
  {
  }

  /** Matching configuration files start the ledger in agreement: in an empty store every account's
      balance is the value of its imported coins. */
  lemma {:induction false} BootstrapAgrees(list: seq<BootstrapBalance>, utxos: seq<AccountCoin>)
    requires Match(list, utxos)
    ensures WellFormed(ImportAll(map[], utxos)) && LedgerAgrees(ImportAll(map[], utxos), SetAll(map[], list))
  {
    ImportedIds(utxos);
    if list != [] {
      var n := |list| - 1;
      MatchInit(list, utxos);
      BootstrapAgrees(list[..n], utxos[..n]);
      ImportedIds(utxos[..n]);
      SetAllIsTheList(map[], list[..n]);
      var before, coin := ImportAll(map[], utxos[..n]), utxos[n];
      assert coin.coinId !in before && coin.account !in SetAll(map[], list[..n]);
      forall account
        ensures BalanceOf(SetAll(map[], list), account) == Owned(ImportAll(map[], utxos), account)
      {
        assert BalanceOf(SetAll(map[], list[..n]), account) == Owned(before, account);
        SumUpdate(before, ValueFor(account), coin.coinId, coin);
      }
    }
  }

  // ---------- the shipped configuration ----------

  const EMISSION_ADDRESS := "AfYgQf5PappexLPvSSvtQZQQ1UdAi1LyHrdvMxHv4dnhu8WPwdqGJ82dtaKNBtLCEMQSy77c5SzhuPiKiedQXbjaszGzGCyzwf88iDHT4czMPnXKWmoPE1c8nvHX4uSMtCcrBCQzR1ffqXaEjgDZEdNxjs24WRjFxHxkNHoL7QijEfhwTHjMoiTJ2E2QhTkbqrNSJK4GLF1dUKVX3nu2WS9P2Et4bGEtufzZEDhGPE2mszGJDAr1b8W3rZ43Y7rYuwx128ixX4yjoTdP5smX6spzytcp5ZMhiPArdb935WGhJqGvwaXGmN9aLXDR1q"
  const NO_PREMINE_ADDRESS := "Ms7smJmdbakqfwNo"
  const FOUNDATION_ADDRESS := "MiLZjNnxChCRGAG4guFp4ESHxwsSXuocUXkFA4Hgiq9nwYy7mZ4Go2iNCbUi6GaH4ru7S8chrcacvPWTRDzTcQ3VXo123kkLXt9hbVSiEF6J5gX1K1Xti5AKYJkgK6qx9uN4DtffzDHZ6rruqi4nQo8CLUDhdpFqFi9xgAXKejP6mF7KZLD6QJzHN9js8dJFgw69HS3"
  const EMISSION_BOX := "b69575e11c5c43400bfead5976ee0d6245a1168396b2e2a4f384691f275d501c"
  const NO_PREMINE_BOX := "b8ce8cfe331e5eadfb0783bdc375c94413433f65e1e45857d71550d42e4d83bd"
  const FOUNDATION_BOX := "5527430474b673e4aafb08e0079c639de23e6a17e87edd00f78662b43c88aeda"

  const MAINNET_BALANCES: seq<BootstrapBalance> := [
    BootstrapBalance(EMISSION_ADDRESS, Num(93409132500000000)),
    BootstrapBalance(NO_PREMINE_ADDRESS, Num(1000000000)),
    BootstrapBalance(FOUNDATION_ADDRESS, Num(4330791500000000))
  ]

  const MAINNET_UTXOS: seq<AccountCoin> := [
    AccountCoin(EMISSION_ADDRESS, EMISSION_BOX, Num(93409132500000000)),
    AccountCoin(NO_PREMINE_ADDRESS, NO_PREMINE_BOX, Num(1000000000)),
    AccountCoin(FOUNDATION_ADDRESS, FOUNDATION_BOX, Num(4330791500000000))
  ]

  lemma AddressesDiffer()
    ensures EMISSION_ADDRESS != NO_PREMINE_ADDRESS && EMISSION_ADDRESS != FOUNDATION_ADDRESS
    ensures NO_PREMINE_ADDRESS != FOUNDATION_ADDRESS
  {
    assert |EMISSION_ADDRESS| != |NO_PREMINE_ADDRESS| && |EMISSION_ADDRESS| != |FOUNDATION_ADDRESS|;
    assert |NO_PREMINE_ADDRESS| != |FOUNDATION_ADDRESS|;
  }

  lemma BoxesDiffer()
    ensures EMISSION_BOX != NO_PREMINE_BOX && EMISSION_BOX != FOUNDATION_BOX && NO_PREMINE_BOX != FOUNDATION_BOX
  {
  }

  lemma MainnetMatches()
    ensures Match(MAINNET_BALANCES, MAINNET_UTXOS)
    ensures forall faults: Faults :: faults.setFails == {} && !faults.commitFails ==> BalancesCommit(MAINNET_BALANCES, faults)
  {
    AddressesDiffer();
    BoxesDiffer();
  }

  /** The shipped files match, their balances are accepted, and they start the ledger in agreement. */
  lemma MainnetAgrees()
    ensures Match(MAINNET_BALANCES, MAINNET_UTXOS)
    ensures BalancesCommit(MAINNET_BALANCES, Faults({}, false, false))
    ensures LedgerAgrees(ImportAll(map[], MAINNET_UTXOS), SetAll(map[], MAINNET_BALANCES))
  {
    MainnetMatches();
    BootstrapAgrees(MAINNET_BALANCES, MAINNET_UTXOS);
  }

  /** On an empty database a failed import of the mainnet coins leaves the mainnet balances without a
      coin to back them. */
  lemma MainnetHalfLoaded()
    ensures var faults := Faults({}, false, true);
            var after := Loaded(map[], map[], MAINNET_BALANCES, MAINNET_UTXOS, faults);
            && HalfLoaded(map[], map[], MAINNET_BALANCES, MAINNET_UTXOS, after)
            && BalanceOf(after.balances, NO_PREMINE_ADDRESS) == 1000000000 && after.coins == map[]
  {
    MainnetMatches();
    SetAllIsTheList(map[], MAINNET_BALANCES);
    ImportedIds(MAINNET_UTXOS);
    assert MAINNET_BALANCES[1] == BootstrapBalance(NO_PREMINE_ADDRESS, Num(1000000000));
    assert MAINNET_UTXOS[1].coinId in ImportAll(map[], MAINNET_UTXOS);
    HalfLoadedIff(map[], map[], MAINNET_BALANCES, MAINNET_UTXOS, Faults({}, false, true));
  }
}
