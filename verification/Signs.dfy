/** Sign normalisation of spent amounts. Amounts are objects: a created operation's amount is the
    same object as the one in the coin cache, and the normalisation overwrites amounts in place. */
module Signs {
  import opened Types
  import opened CoinEffects
  import opened Converter
  import opened Operations
  import opened Resolution

  class Amount {
    var value: Text

    constructor (value: Text)
      ensures this.value == value
    {
      this.value := value;
    }
  }

  /** An operation as the indexer holds it. */
  datatype LiveOp = LiveOp(coinChange: Option<CoinChange>, amount: Amount) {
    predicate Spends() {
      coinChange.Some? && coinChange.value.action == CoinSpent
    }
  }

  /** What becomes of a spent amount: positive numbers are negated. */
  function Normal(t: Text): Text {
    if t.Num? && t.n > 0 then Num(-t.n) else t
  }

  ghost function SpentAmounts(ops: seq<LiveOp>): set<Amount> {
    set op | op in ops && op.Spends() :: op.amount
  }

  function Flat(txs: seq<seq<LiveOp>>): seq<LiveOp> {
    if txs == [] then [] else Flat(txs[..|txs| - 1]) + txs[|txs| - 1]
  }

  /** The values of the spent amounts. */
  ghost function Snapshot(ops: seq<LiveOp>): map<Amount, Text>
    reads SpentAmounts(ops)
  {
    map a | a in SpentAmounts(ops) :: a.value
  }

  /** The amounts are as they were, except that those in done are normalised. */
  ghost predicate NormalisedIn(done: set<Amount>, was: map<Amount, Text>)
    reads was.Keys
  {
    forall a :: a in was ==> a.value == if a in done then Normal(was[a]) else was[a]
  }

  /** One operation: a spent amount is normalised in place, or is not a number. */
  method NegateIfSpent(op: LiveOp, ghost done: set<Amount>, ghost was: map<Amount, Text>) returns (ok: bool)
    requires op.coinChange.Some? && (op.Spends() ==> op.amount in was)
    requires NormalisedIn(done, was)
    modifies if op.Spends() then {op.amount} else {}
    ensures ok <==> !op.Spends() || was[op.amount].Num?
    ensures NormalisedIn(if ok && op.Spends() then done + {op.amount} else done, was)
  {
    if op.coinChange.value.action != CoinSpent {
      return true;
    }
    if op.amount.value.NotANumber? {
      return false;
    }
    if op.amount.value.n > 0 {
      op.amount.value := Num(-op.amount.value.n);
    }
    return true;
  }

  /** Operation n spends something that is not a number. */
  ghost predicate StopsAt(all: seq<LiveOp>, n: nat, was: map<Amount, Text>)
    requires n < |all|
  {
    all[n].Spends() && all[n].amount in was && was[all[n].amount] == NotANumber
  }

  /** Goes through the operations of one transaction, which start at position start of the block's. */
  method NegateSpent(ops: seq<LiveOp>, ghost all: seq<LiveOp>, ghost start: nat, ghost was: map<Amount, Text>)
    returns (ok: bool, ghost n: nat)
    requires start + |ops| <= |all| && all[start..start + |ops|] == ops
    requires forall op :: op in ops ==> op.coinChange.Some? && (op.Spends() ==> op.amount in was)
    requires NormalisedIn(SpentAmounts(all[..start]), was) && SpendsNumbers(all[..start], was)
    modifies SpentAmounts(ops)
    ensures start <= n <= start + |ops| && (ok <==> n == start + |ops|)
    ensures NormalisedIn(SpentAmounts(all[..n]), was) && SpendsNumbers(all[..n], was)
    ensures !ok ==> StopsAt(all, n, was)
  {
    n := start;
    for o := 0 to |ops|
      invariant n == start + o
      invariant NormalisedIn(SpentAmounts(all[..n]), was) && SpendsNumbers(all[..n], was)
    {
      assert all[n] == ops[o];
      OneMoreSpent(all, n);
      ok := NegateIfSpent(ops[o], SpentAmounts(all[..n]), was);
      if !ok {
        return;
      }
      n := n + 1;
    }
    ok := true;
  }

  /** Normalises the spent amounts up to operation n, the first that spends something that is not a
      number; n is the number of operations when there is none, and then the call succeeds. Only the
      amount objects of spending operations are written. An operation without a coin change would
      be a nil dereference. */
  method EnsureNegativeValueInputs(txs: seq<seq<LiveOp>>) returns (ok: bool, ghost n: nat)
    requires forall op :: op in Flat(txs) ==> op.coinChange.Some?
    modifies SpentAmounts(Flat(txs))
    ensures n <= |Flat(txs)| && (ok <==> n == |Flat(txs)|)
    ensures NormalisedIn(SpentAmounts(Flat(txs)[..n]), old(Snapshot(Flat(txs))))
    ensures SpendsNumbers(Flat(txs)[..n], old(Snapshot(Flat(txs))))
    ensures !ok ==> Flat(txs)[n].Spends() && old(Flat(txs)[n].amount.value) == NotANumber
  {
    ghost var all, was := Flat(txs), Snapshot(Flat(txs));
    n := 0;
    for t := 0 to |txs|
      invariant n == |Flat(txs[..t])| && n <= |all|
      invariant NormalisedIn(SpentAmounts(all[..n]), was) && SpendsNumbers(all[..n], was)
    {
      TxMembers(txs, t);
      FlatPart(txs, t);
      ok, n := NegateSpent(txs[t], all, n, was);
      if !ok {
        return;
      }
    }
    assert txs[..|txs|] == txs;
    ok := true;
  }

  lemma {:induction false} FlatMember(txs: seq<seq<LiveOp>>, t: nat, o: nat)
    requires t < |txs| && o < |txs[t]|
    ensures txs[t][o] in Flat(txs)
  {
    if t < |txs| - 1 {
      FlatMember(txs[..|txs| - 1], t, o);
    }
  }

  lemma TxMembers(txs: seq<seq<LiveOp>>, t: nat)
    requires t < |txs|
    ensures forall op :: op in txs[t] ==> op in Flat(txs)
    ensures SpentAmounts(txs[t]) <= SpentAmounts(Flat(txs))
  {
    forall op | op in txs[t]
      ensures op in Flat(txs)
    {
      var o :| 0 <= o < |txs[t]| && txs[t][o] == op;
      FlatMember(txs, t, o);
    }
  }

  /** Where the operations of transaction t stand in the flat list. */
  lemma FlatPart(txs: seq<seq<LiveOp>>, t: nat)
    requires t < |txs|
    ensures var start, end := |Flat(txs[..t])|, |Flat(txs[..t + 1])|;
            end == start + |txs[t]| <= |Flat(txs)| && Flat(txs)[start..end] == txs[t]
  {
    FlatPrefix(txs, t + 1);
    assert txs[..t + 1][..t] == txs[..t];
    assert Flat(txs[..t + 1]) == Flat(txs[..t]) + txs[t];
  }

  ghost predicate SpendsNumbers(ops: seq<LiveOp>, was: map<Amount, Text>) {
    forall k :: 0 <= k < |ops| && ops[k].Spends() ==> ops[k].amount in was && was[ops[k].amount].Num?
  }

  lemma OneMoreSpent(all: seq<LiveOp>, n: nat)
    requires n < |all|
    ensures SpentAmounts(all[..n + 1]) == SpentAmounts(all[..n]) + (if all[n].Spends() then {all[n].amount} else {})
  {
    assert all[..n + 1] == all[..n] + [all[n]];
  }

  lemma {:induction false} FlatPrefix(txs: seq<seq<LiveOp>>, n: nat)
    requires n <= |txs|
    ensures Flat(txs[..n]) <= Flat(txs)
  {
    if n == |txs| {
      assert txs[..n] == txs;
    } else {
      FlatPrefix(txs[..|txs| - 1], n);
      assert txs[..|txs| - 1][..n] == txs[..n];
    }
  }

  // ---------- on the operations of a block ----------

  /** An operation after normalisation: only a spent amount can change. */
  function NormalOp(op: Operation): Operation {
    if op.Spends() then op.(amount := Normal(op.amount)) else op
  }

  function NormalOps(ops: seq<Operation>): seq<Operation> {
    seq(|ops|, k requires 0 <= k < |ops| => NormalOp(ops[k]))
  }

  /** The live operations show ops: same coin changes, amounts in objects that no two share. */
  ghost predicate Shows(live: seq<LiveOp>, ops: seq<Operation>)
    reads set op | op in live :: op.amount
  {
    && |live| == |ops|
    && (forall k :: 0 <= k < |ops| ==> live[k].coinChange == ops[k].coinChange && live[k].amount.value == ops[k].amount)
    && (forall j, k :: 0 <= j < k < |live| ==> live[j].amount != live[k].amount)
  }

  /** The amount objects that the coin cache gets from some operations: a cached coin has the very
      object of the operation that created it, and a later operation on the same identifier wins. */
  function CachedAmounts(live: seq<LiveOp>): map<string, Amount> {
    if live == [] then map[]
    else
      var rest := CachedAmounts(live[..|live| - 1]);
      var op := live[|live| - 1];
      if op.coinChange.Some? && op.coinChange.value.action == CoinCreated then rest[op.coinChange.value.coinId := op.amount]
      else rest
  }

  /** As long as the amounts of the creating operations show, so do the cached coins. */
  lemma {:induction false} CacheShows(live: seq<LiveOp>, ops: seq<Operation>)
    requires |live| == |ops| && forall k :: 0 <= k < |ops| ==> live[k].coinChange == ops[k].coinChange
    requires forall k :: 0 <= k < |ops| && ops[k].Creates() ==> live[k].amount.value == ops[k].amount
    ensures CachedAmounts(live).Keys == CreatedCoins(ops).Keys
    ensures forall id :: id in CreatedCoins(ops) ==> CachedAmounts(live)[id].value == CreatedCoins(ops)[id].amount
  {
    if ops != [] {
      CacheShows(live[..|live| - 1], ops[..|ops| - 1]);
    }
  }

  /** One fresh amount object for each operation. */
  method Allocate(ops: seq<Operation>) returns (live: seq<LiveOp>)
    ensures Shows(live, ops)
    ensures forall op :: op in live ==> fresh(op.amount)
  {
    live := [];
    for k := 0 to |ops|
      invariant Shows(live, ops[..k])
      invariant forall op :: op in live ==> fresh(op.amount)
    {
      var amount := new Amount(ops[k].amount);
      live := live + [LiveOp(ops[k].coinChange, amount)];
    }
    assert ops[..|ops|] == ops;
  }

  /** On operations with amounts of their own a successful normalisation rewrites exactly the spent
      amounts: created operations, and the coins that share their amounts, keep theirs. */
  method NormaliseOwnAmounts(txs: seq<seq<LiveOp>>, ghost ops: seq<Operation>) returns (ok: bool)
    requires Shows(Flat(txs), ops) && forall op :: op in ops ==> op.coinChange.Some?
    modifies SpentAmounts(Flat(txs))
    ensures ok <==> forall k :: 0 <= k < |ops| && ops[k].Spends() ==> ops[k].amount.Num?
    ensures ok ==> Shows(Flat(txs), NormalOps(ops))
    ensures forall k :: 0 <= k < |ops| && !ops[k].Spends() ==> Flat(txs)[k].amount.value == ops[k].amount
    ensures CachedAmounts(Flat(txs)).Keys == CreatedCoins(ops).Keys
    ensures forall id :: id in CreatedCoins(ops) ==> CachedAmounts(Flat(txs))[id].value == CreatedCoins(ops)[id].amount
  {
    ghost var live := Flat(txs);
    OwnAmounts(live, ops);
    ghost var was := Snapshot(live);
    ghost var n;
    ok, n := EnsureNegativeValueInputs(txs);
    if ok {
      assert live[..n] == live;
      forall k | 0 <= k < |ops|
        ensures live[k].amount.value == NormalOp(ops[k]).amount && (ops[k].Spends() ==> ops[k].amount.Num?)
      {
        assert live[k].Spends() ==> live[k].amount.value == Normal(was[live[k].amount]);
      }
    } else {
      assert ops[n].Spends() && ops[n].amount == NotANumber;
    }
    CacheShows(live, ops);
  }

  /** A spent amount is among the spent ones with the operation's amount, a created one is not. */
  lemma OwnAmounts(live: seq<LiveOp>, ops: seq<Operation>)
    requires Shows(live, ops) && forall op :: op in ops ==> op.coinChange.Some?
    ensures forall op :: op in live ==> op.coinChange.Some?
    ensures forall k :: 0 <= k < |ops| ==> live[k].Spends() == ops[k].Spends()
    ensures forall k :: 0 <= k < |ops| && live[k].Spends() ==>
                          live[k].amount in Snapshot(live) && Snapshot(live)[live[k].amount] == ops[k].amount
    ensures forall k :: 0 <= k < |ops| && !live[k].Spends() ==> live[k].amount !in SpentAmounts(live)
  {
    forall k | 0 <= k < |ops|
      ensures live[k].coinChange.Some? && live[k].Spends() == ops[k].Spends()
      ensures live[k].Spends() ==> live[k].amount in SpentAmounts(live)
    {
      assert ops[k] in ops && live[k] in live;
    }
    forall k | 0 <= k < |ops| && !live[k].Spends()
      ensures live[k].amount !in SpentAmounts(live)
    {
      assert forall j :: 0 <= j < |live| && live[j].Spends() ==> live[j].amount != live[k].amount;
    }
  }

  /** Normalising again changes nothing. */
  lemma NormalIsIdempotent(ops: seq<Operation>)
    ensures NormalOps(NormalOps(ops)) == NormalOps(ops)
  {
    forall k | 0 <= k < |ops|
      ensures NormalOp(NormalOp(ops[k])) == NormalOp(ops[k])
    {
    }
  }

  /** A normalised spent number is not positive and has the magnitude it had. */
  lemma NormalKeepsMagnitude(ops: seq<Operation>, k: nat)
    requires k < |ops|
    ensures var op, op' := ops[k], NormalOps(ops)[k];
            if op.Spends() && op.amount.Num? then op'.amount.Num? && op'.amount.n <= 0 && (op'.amount.n == op.amount.n || op'.amount.n == -op.amount.n)
            else op' == op
  {
    assert NormalOps(ops)[k] == NormalOp(ops[k]);
  }

  predicate NonNegative(coins: Coins) {
    forall id :: id in coins ==> coins[id].amount.Nano() >= 0
  }

  predicate NonNegativeOutputs(txs: seq<ErgoTransaction>) {
    forall t, j :: 0 <= t < |txs| && 0 <= j < |txs[t].outputs| ==> txs[t].outputs[j].value >= 0
  }

  lemma {:induction false} CreatedNonNegative(ops: seq<Operation>)
    requires forall k :: 0 <= k < |ops| && ops[k].Creates() ==> ops[k].amount.Nano() >= 0
    ensures NonNegative(CreatedCoins(ops))
  {
    if ops != [] {
      CreatedNonNegative(ops[..|ops| - 1]);
    }
  }

  predicate AlreadyNormal(ops: seq<Operation>) {
    forall k :: 0 <= k < |ops| ==> NormalOp(ops[k]) == ops[k]
  }

  lemma TxIsNormal(node: TreeToAddress, created: Coins, pre: Coins, tx: ErgoTransaction)
    requires ConvertTx(node, created, pre, tx).Ok? && NonNegative(created) && NonNegative(pre)
    requires forall j :: 0 <= j < |tx.outputs| ==> tx.outputs[j].value >= 0
    ensures var ops := ConvertTx(node, created, pre, tx).value.operations;
            AlreadyNormal(ops) && NonNegative(CreatedCoins(ops))
  {
    TxShape(node, created, pre, tx);
    var ops, n := ConvertTx(node, created, pre, tx).value.operations, |tx.inputs|;
    forall k | 0 <= k < |ops|
      ensures NormalOp(ops[k]) == ops[k] && (ops[k].Creates() ==> ops[k].amount.Nano() >= 0)
    {
      if k < n {
        assert IsInputOp(created, pre, tx.inputs, k, ops[k]);
      } else {
        assert IsOutputOp(node, tx.outputs, n, k - n, ops[k]);
      }
    }
    CreatedNonNegative(ops);
  }

  /** On a block converted from non-negative coins and outputs the normalisation is the identity. */
  lemma {:induction false} ConvertedIsNormal(node: TreeToAddress, pre: Coins, txs: seq<ErgoTransaction>)
    requires ConvertTxs(node, map[], pre, txs).Ok? && NonNegative(pre) && NonNegativeOutputs(txs)
    ensures var parsed := ConvertTxs(node, map[], pre, txs).value;
            AlreadyNormal(AllOps(parsed)) && NormalOps(AllOps(parsed)) == AllOps(parsed) && NonNegative(Made(parsed))
  {
    if txs != [] {
      var init := txs[..|txs| - 1];
      assert NonNegativeOutputs(init) by {
        assert forall t :: 0 <= t < |init| ==> init[t] == txs[t];
      }
      ConvertLast(node, pre, txs);
      ConvertedIsNormal(node, pre, init);
      var parsed := ConvertTxs(node, map[], pre, init).value;
      TxIsNormal(node, Made(parsed), pre, txs[|txs| - 1]);
      OneMoreNormal(parsed, ConvertTx(node, Made(parsed), pre, txs[|txs| - 1]).value);
    }
    NormalIsFixed(AllOps(ConvertTxs(node, map[], pre, txs).value));
  }

  lemma OneMoreNormal(parsed: seq<Transaction>, tx: Transaction)
    requires AlreadyNormal(AllOps(parsed)) && AlreadyNormal(tx.operations)
    ensures AlreadyNormal(AllOps(parsed + [tx]))
  {
    assert (parsed + [tx])[..|parsed|] == parsed;
  }

  lemma NormalIsFixed(ops: seq<Operation>)
    requires AlreadyNormal(ops)
    ensures NormalOps(ops) == ops
  {
  }
}
