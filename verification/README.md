# Verification of the Ergo indexer

A Dafny model of the part of rosetta-ergo that turns a node's blocks into
Rosetta blocks: the indexer's concurrent coin lookup, the conversion of Ergo
transactions into operations and coin changes, and the loading of the state
before the first block. `dafny verify dfyconfig.toml` checks all of it.

## What is modelled

**The lookup protocol** (`Protocol`, `ProtocolSafety`, `ProtocolTheorems`,
`FetchOutcomes`, `SeenOutcomes`, `StorageSteps`, `Provenance`, `ReorgFree`,
`BoundedWaiting`, `WaitOutcomes`, `CacheContents`). Any number of `Block` fetches
run beside any number of `BlockSeen` calls and the syncer's serial
`BlockAdded` and `BlockRemoved` calls. The model is a transition system with
one action for each critical section, each unsynchronised read of `seen` and
each storage call, so every interleaving of those is a run, with cancellations,
storage errors and reorganisations. Storage is the committed chain; its coins
are a function of the chain (`CoinsAfter`), because coin and balance storage
are block workers committed with the block (`pkg/storage/storage.go:79`).
`ProtocolSafety.Inv` is the inductive invariant; `ProtocolTheorems` reads the
guarantees off it for every state of every run. `FetchOutcomes`, `SeenOutcomes`
and `StorageSteps` say what each call yields, why it ends, and what it leaves
behind, in terms of storage, cache and the errors met. `Provenance` follows coins
through the cache in all runs, reorganisations included.

`ReorgFree` adds what the syncer and the node are assumed to do when there is
no reorganisation (`Allowed`): a block is requested before it is added, seen
once and after its fetch has returned, and added in chain order after it was
seen. The results of `BoundedWaiting`, `CacheContents` and `EndToEnd` are about
such runs, over a chain that is valid where they say so. `WaitingRuns` and
`StaleCoins` hold two concrete runs, built from the blocks of `Samples`.

**The wait table in place** (`WaitTables`, `WaitTableClass`) **and the indexer's
fields** (`IndexerSections`). The class `WaitTable` maps keys to shared,
mutable entries; `Indexer` holds the coin cache, the counter and the table.
Their methods are the bodies of the critical sections, proved against the very
functions that the protocol's actions use.

**The conversion pipeline** (`Inputs`, `Converter`, `Operations`, `Resolution`,
`BlockShapes`, `Ledger`, `EndToEnd`). Loops are methods with invariants, proved against
functions; what those functions mean is proved against definitions that do not
mention them: places of inputs in the block, Ergo's own "delete the inputs,
insert the outputs", sums of unspent coins. `EndToEnd` joins both halves: in a
run without reorganisations over a valid chain, a fetch that succeeds yields
the one correct block, whatever it read and whenever it read it.

**Signs, mempool, bootstrap** (`Signs`, `Mempool`, `Bootstrap`). The sign
normalisation works on amount objects, which a created operation shares with
the coin cache. The bootstrap is all-or-nothing for balances, and the shipped
mainnet files start the ledger in agreement.

## Findings

- **A wait is never answered by the block that creates the coin.** The comment
  at `pkg/indexer/indexer.go:389-391` says that seeing a transaction wakes the
  fetches that wait for its outputs. The key of a wait is the id of the
  *spending* transaction (`pkg/ergo/utils.go:31-34`), while `BlockSeen` closes
  the ids in the seen block. `WaitingRuns.SeenCreatorDoesNotWake` is a run over
  a valid chain in which the creating block has been seen to the end, its coin
  is in the cache, and the fetch still waits on an open channel. Seeing a block
  wakes a waiting fetch exactly if the block contains the *spending*
  transaction (`WaitOutcomes.WokenIff`, every run). Without reorganisations a
  `findCoins` call that runs to its end succeeds exactly if it never registered
  a listener, and returns the orphan error otherwise
  (`WaitOutcomes.SucceedsIffNeverRegistered`).
- **A seen block that is never added leaves its coins in the cache.** Only
  `BlockAdded` cleans up (`pkg/indexer/indexer.go:265-281`), so a coin lingers
  exactly as `Provenance.CacheHistory` says. `StaleCoins.StaleCoinIsFound` is a
  run in which a fetch succeeds with a coin that its chain does not have. The
  coins found are those of the block's own chain exactly if that chain has the
  inputs the block must look up (`Provenance.FoundOnChainIff`); for a block
  that is valid on its own chain the result is therefore always right
  (`Provenance.FetchYieldsItsBlock`).
- **The two "produced earlier in this block" rules differ.** For
  `GetInputsForTxs` a transaction's own outputs already count as produced, for
  the converter they do not. `Resolution.SelfSpendIsMissed` gives the input on
  which nothing is fetched and the lookup fails; `Resolution.LookupsResolveIff`
  is the exact condition for all inputs.
- **Inputs minus outputs is not always what is fetched.** It is, as a set,
  exactly when no transaction spends a box that only a later one creates
  (`Inputs.RequiredIsInputsMinusOutputs`); `Inputs.ForwardSpendIsListed` is an
  input on which it is not.
- **Bootstrap is two commits.** When the coin import fails, the balances are
  already committed. `Bootstrap.HalfLoadedIff` says exactly when a half-loaded
  state is left, and `Bootstrap.MainnetHalfLoaded` shows it for the mainnet
  files.

## Model

| member | source | states |
|---|---|---|
| ProtocolTheorems.NoFalseMiss | pkg/indexer/indexer.go:547-640 | In every run, when `findCoin` registers a listener the coin is absent from storage at the head it read twice, also if the head moved away and came back; if it is in the cache, some `BlockSeen` put it there since the lookup, and none of those has run its channel-closing section |
| ProtocolTheorems.UnchangedSeenMeansUncounted | pkg/indexer/indexer.go:351-377 | If the counter is unchanged under the lock, every `BlockSeen` that filled the cache since the cache was looked at has not yet done `seen++` |
| ProtocolTheorems.ListenerConservation | pkg/indexer/indexer.go:488-525 | In every run each key has at least as many listeners as running calls hold unreleased registrations, exactly as many when no call was cancelled or failed hard; every entry has a listener; both "not in waiter" returns are unreachable |
| ProtocolTheorems.EntryIdentity | pkg/indexer/indexer.go:493-524 | Between registration and its own decrement a listener's key keeps the same entry and channel, whatever else runs, and the channel waited on is that one |
| ProtocolTheorems.ClosedOnce | pkg/indexer/indexer.go:287-299 | Over every run no channel is closed twice, `channelClosed` says exactly whether the channel is closed, `aborted` implies it, and neither flag is reset |
| ProtocolTheorems.RunEvolves | pkg/indexer/wait_table.go:43-81 | Between any two states of a run an entry keeps its key and channel, its flags only rise, its earliest block only falls, and a closed channel stays closed |
| ProtocolTheorems.FindCoinsExact | pkg/indexer/indexer.go:446-545 | Through any depth of waiting and recursion, success returns a coin for exactly the requested inputs, each read from a storage snapshot or the cache in an earlier state; after success or abort no listener of the call is left |
| FetchOutcomes.StoreLookup | pkg/indexer/indexer.go:555-592 | In every run a storage lookup takes exactly the coin that is unspent after the committed chain, or misses; it fails hard on an unreadable head or a failed read, goes round again while nothing is stored, and lets the genesis block do without a head |
| FetchOutcomes.CacheLookup | pkg/indexer/indexer.go:594-600 | A cache lookup takes exactly the cached coin, or misses |
| FetchOutcomes.EndsExactly | pkg/indexer/indexer.go:446-545 | A step ends its call as success, orphan, cancelled or hard error exactly for the reasons that the outcome has; never for a missing entry |
| FetchOutcomes.ErrorsHaveCauses | pkg/indexer/indexer.go:463-482 | A call fails hard only after a storage error that it met and is cancelled only by a cancellation; one that met neither ends in success or as an orphan |
| FetchOutcomes.AbortedIff | pkg/indexer/indexer.go:511-516 | A call is marked for abortion exactly if it has released a listener whose entry was aborted |
| FetchOutcomes.OrphanHasReason | pkg/indexer/indexer.go:527-530 | An orphan error comes from a head that the block does not follow or from an aborted listener; a call that released an aborted listener never succeeds |
| FetchOutcomes.UnabortedRetries | pkg/indexer/indexer.go:527-544 | When the waits of a pass are over and none was aborted, another pass starts that covers every requested input not yet found |
| FetchOutcomes.PendingConserved | pkg/indexer/indexer.go:455-474 | Every step of a call keeps each input that is to be looked up, waited for or retried as often as before, but for one whose coin it has just taken |
| FetchOutcomes.PendingBounded | pkg/indexer/indexer.go:446-545 | So what is pending is never more than the block requires, with multiplicity |
| FetchOutcomes.NoCallIsStuck | pkg/indexer/indexer.go:490-525 | Every running call can take a step, or another call holds the waiter lock and can; waiting and looking calls can be cancelled, and a closed channel lets its waiter go on |
| SeenOutcomes.SeenIsTheCount | pkg/indexer/indexer.go:374-377 | The counter is the number of `BlockSeen` calls that have counted themselves |
| SeenOutcomes.LastStepOf | pkg/indexer/indexer.go:343-414 | A `BlockSeen` call inserts, counts, stores and closes in this order |
| SeenOutcomes.ClosedWasStored | pkg/indexer/indexer.go:379-414 | The closing section runs only after the storage call succeeded, and never after it failed |
| StorageSteps.ChainHistory | pkg/indexer/indexer.go:255-338 | The stored chain grows by exactly the block that is being added, shrinks by exactly its last block, and is otherwise left alone |
| StorageSteps.CommitApplies | pkg/indexer/indexer.go:255-263 | Committing a converted valid block turns the stored coins into Ergo's unspent boxes after it |
| StorageSteps.RemovalUndoes | pkg/indexer/indexer.go:318-339 | Removing the head gives the stored coins with the removed block's operations undone in reverse; the new head is its parent, and cache and waits are left alone |
| ProtocolTheorems.FoundOrigin | pkg/indexer/indexer.go:578-600 | Every value a call has found was stored or cached under that id in an earlier state of the run |
| ProtocolSafety.HeadDeterminesChain | pkg/indexer/indexer.go:607-617 | Equal head identifiers of two valid chains mean equal chains, which is what comparing head hashes relies on |
| ProtocolSafety.InvStep | pkg/indexer/indexer.go:246-640 | Every action keeps the invariant: table, counts, lock, registrations, phases, coverage of the requested inputs, and what each pass has read |
| ProtocolSafety.RunInv | pkg/indexer/indexer.go:246-640 | Every state of every run satisfies the invariant |
| ProtocolSafety.CountsStep | pkg/indexer/indexer.go:624-637 | Every action keeps listener counts equal to the unreleased registrations, key by key |
| ProtocolSafety.CoverStep | pkg/indexer/indexer.go:455-474 | Every action keeps each requested input found, to do, waited for, or to be retried, and nothing else |
| ProtocolSafety.LockStep | pkg/indexer/indexer.go:602-637 | At most one fetch has the waiter lock, it is the one between locking and unlocking, and no path leaves the lock held |
| BoundedWaiting.WaitsAreBounded | pkg/indexer/indexer.go:283-300 | Without reorganisations every open entry has `earliestBlock >= head+2`, or `head+1` while the head's abort section is pending; so once `BlockAdded` of h-1 is done no listener for block h is blocked |
| BoundedWaiting.RegistersAhead | pkg/indexer/indexer.go:602-637 | A fetch registers only when it is two blocks ahead of the head, or one ahead of a head whose abort section is still to come |
| BoundedWaiting.ReleasedEntryAborted | pkg/indexer/indexer.go:504-516 | Every entry that a running fetch releases was aborted |
| WaitingRuns.SeenCreatorDoesNotWake | pkg/indexer/indexer.go:389-414 | A concrete run without reorganisations over a valid chain: a fetch registers, the block that creates its coin is seen, cached and closed, and the fetch still waits on an open channel |
| WaitOutcomes.WokenIff | pkg/indexer/indexer.go:283-300 | In every run an action wakes a waiting fetch exactly if it is a `BlockSeen` of a block that contains the spending transaction, or a `BlockAdded` of the block before the entry's earliest one |
| WaitOutcomes.FlagsRiseIff | pkg/indexer/indexer.go:287-299 | In every run an entry becomes closed exactly when its waits are closed, and aborted exactly when it is a `BlockAdded` that closes it; a `BlockSeen` never aborts |
| WaitOutcomes.SucceedsIffNeverRegistered | pkg/indexer/indexer.go:484-545 | On a valid chain without reorganisations a call that ran to its end succeeded exactly if it never registered a listener; every other one returned the orphan error |
| Provenance.CacheHistory | pkg/indexer/indexer.go:265-281 | In every run a coin is in the cache exactly if a `BlockSeen` inserted it and no `BlockAdded` has cleaned it since; it is the coin of the last block that inserted it |
| Provenance.FoundCoinSource | pkg/indexer/indexer.go:578-600 | In every run a found coin was bootstrapped, or created by a block that had been seen or committed when it was read |
| Provenance.FoundOnChainIff | pkg/indexer/indexer.go:446-545 | In every run what a successful call found are the coins of a given chain exactly if that chain has the inputs the block must look up |
| Provenance.FetchYieldsItsBlock | pkg/indexer/indexer.go:201-219 | In every run, reorganisations included, a successful fetch of a block that is valid on its own chain converts into exactly the block that belongs there |
| StaleCoins.StaleCoinIsFound | pkg/indexer/indexer.go:349-372 | A concrete run in which a coin of a block seen and never added is found by a fetch on another branch, which succeeds and converts |
| BoundedWaiting.WaitsNeverSucceed | pkg/indexer/indexer.go:389-413 | With the key of pkg/ergo/utils.go:31-34, a fetch that registered a listener never succeeds afterwards; contrary to the comment |
| ReorgFree.PlannedRunInv | pkg/indexer/indexer.go:246-423 | In reorganisation-free runs every fetch, seen block and added block stays on the one chain: a running fetch's block is neither seen nor being added |
| ReorgFree.RInvStep | pkg/indexer/indexer.go:246-423 | Every allowed action keeps that invariant |
| CacheContents.CacheIsExact | pkg/indexer/indexer.go:265-281 | In reorganisation-free runs with distinct coin ids, the cache holds exactly the coins of blocks inserted by `BlockSeen` and not yet cleaned by `BlockAdded`, with their values |
| CacheContents.NoAvailabilityGap | pkg/indexer/indexer.go:349-372 | A coin created by an inserted block is in the cache or in storage at every step, unless a committed block spent it |
| CacheContents.FetchFindsParentCoins | pkg/indexer/indexer.go:201-206 | A successful call for block h has found exactly its required inputs, with the coins stored when its parent is the head |
| EndToEnd.FetchYieldsThePlannedBlock | pkg/indexer/indexer.go:201-219 | Whatever ran beside it, a fetch whose lookup succeeds converts without error and into exactly the block that belongs at its height |
| EndToEnd.ValidPlanCovers | pkg/indexer/indexer.go:186-203 | On a valid chain everything a block must look up is stored once its parent is the head |
| EndToEnd.RequiredAreUnspent | pkg/ergo/utils.go:18-41 | What a valid list of transactions must look up is unspent before it |
| EndToEnd.OrphanedIffDetached | pkg/indexer/indexer.go:425-444 | `checkHeaderMatch` fails hard when the head cannot be read; otherwise it reports an orphan exactly when the block would be next and, once converted, does not name the head as its parent |
| EndToEnd.BlockConvertsIff | pkg/indexer/indexer.go:186-213 | In every run, after a successful `findCoins`, a block with good amounts and trees converts exactly if the boxes that its transactions take from their own outputs were found; a missing input is reported only if one was not; without self-spends none is ever missing |
| WaitTables.RegisterKeeps | pkg/indexer/indexer.go:622-636 | Registering keeps flags, channels and keys consistent and only evolves the table |
| WaitTables.ReleaseKeeps | pkg/indexer/indexer.go:504-524 | Releasing a listener keeps flags, channels and keys consistent and only evolves the table |
| WaitTables.CloseAllKeeps | pkg/indexer/indexer.go:392-414 | Closing any set of keys keeps the table consistent, only evolves it, and closes no channel twice |
| WaitTables.EvolvesTransitive | pkg/indexer/wait_table.go:74-81 | Evolution of the table composes over steps |
| WaitTableClass.WaitTable.RegisterListener | pkg/indexer/indexer.go:622-637 | In place: one more listener, entry and channel made on first use, earliest block lowered |
| WaitTableClass.WaitTable.ReleaseListener | pkg/indexer/indexer.go:504-524 | In place: one listener less, the entry deleted with its last one; reports an absent key and the abort flag |
| WaitTableClass.WaitTable.CloseOne | pkg/indexer/indexer.go:400-412 | In place: closes one entry if it is present and open, never a closed channel |
| WaitTableClass.WaitTable.CloseSeen | pkg/indexer/indexer.go:392-414 | In place: exactly the open entries of the block's transactions become closed |
| WaitTableClass.WaitTable.AbortIfStale | pkg/indexer/indexer.go:287-298 | In place: one entry of the loop is closed and aborted exactly if it is open and stale |
| WaitTableClass.WaitTable.AbortStale | pkg/indexer/indexer.go:286-300 | In place and in any iteration order: exactly the open entries of the next block become closed and aborted |
| IndexerSections.Indexer.InsertCreatedCoins | pkg/indexer/indexer.go:351-372 | The cache gains exactly the coins the block creates |
| IndexerSections.Indexer.RemoveCreatedCoins | pkg/indexer/indexer.go:265-281 | The cache loses exactly the ids the block creates |
| IndexerSections.Indexer.BlockSeen | pkg/indexer/indexer.go:343-423 | Insertion, count and, unless the storage call fails, the closing section |
| IndexerSections.Indexer.BlockAdded | pkg/indexer/indexer.go:248-316 | Spent amounts before the first that is not a number are normalised, also when the call fails; on failure cache and waits stay as they were, otherwise cleanup and abort section follow |
| IndexerSections.Indexer.MatchAndRegister | pkg/indexer/indexer.go:602-639 | Under the lock: a head error, another pass if head or counter moved, otherwise a registered listener |
| IndexerSections.LockedSectionAgrees | pkg/indexer/indexer.go:602-639 | That method and the protocol's three actions under the lock end in the same table, outcome and bookkeeping, with the lock released |
| Inputs.GetInputsForTxs | pkg/ergo/utils.go:18-41 | The loops compute the list that the two lemmas below characterise |
| Inputs.RequiredInputsExact | pkg/ergo/utils.go:18-41 | The result lists, in block order and with multiplicity, exactly the input occurrences whose box is not an output of the same or an earlier transaction |
| Inputs.RequiredIsInputsMinusOutputs | pkg/ergo/utils.go:26-38 | As a set it is all inputs minus all outputs if and only if no transaction spends a box that only a later one creates |
| Inputs.ForwardSpendIsListed | pkg/ergo/utils.go:26-38 | A concrete forward spend: the box is listed although it is an output of the list |
| Inputs.RequiredIds | pkg/ergo/utils.go:26-38 | An id is listed if and only if some external occurrence spends it |
| Converter.BlockConverter.TxToRosettaTx | pkg/rosetta/converter.go:69-114 | The two loops compute the specified operations, or the first error in order |
| Converter.BlockConverter.StoreTxCoins | pkg/rosetta/converter.go:195-215 | The running map gains exactly the created coins of the transaction |
| Converter.BlockConverter.BlockToRosettaBlock | pkg/rosetta/converter.go:39-67 | A fresh converter computes the specified block or first error, and its running map ends with the block's created coins |
| BlockShapes.BlockShape | pkg/rosetta/converter.go:39-67 | For any block that converts: identifiers and time are the header's, the parent is the previous height and parent id, or the block itself at height 1 (lines 243-265); the transactions come in order, each converted with the outputs of exactly the ones before it |
| BlockShapes.TxsShape | pkg/rosetta/converter.go:47-62 | The same for a list of transactions |
| BlockShapes.BlockError | pkg/rosetta/converter.go:47-62 | A failing block reports the first bad input or output of its first bad transaction |
| BlockShapes.TxError | pkg/rosetta/converter.go:77-105 | A failing transaction reports its first input that is missing or not a number, or else its first output whose tree the node does not translate |
| Operations.TxShape | pkg/rosetta/converter.go:69-193 | Conversion succeeds if and only if inputs and amounts resolve and the node translates every tree but the hard-coded one; indices are 0..n-1 in list order, inputs first, each with its coin's owner and negated amount; every output relates to exactly all inputs and pays the node's address of its tree, or the fixed address for the hard-coded tree |
| Operations.TxCoinChanges | pkg/rosetta/converter.go:116-193 | Each operation spends the box of its input or creates the box of its output, with a numeric amount |
| Operations.AmountsBalance | pkg/rosetta/converter.go:116-193 | The amounts sum to output value minus input value |
| Resolution.LookupsResolveIff | pkg/rosetta/converter.go:217-229 | All lookups of a block succeed if and only if the required inputs and the boxes spent by their own transaction are prefetched |
| Resolution.ResolveIffCovered | pkg/ergo/utils.go:18-41 | Without self-spends: if and only if the required inputs are prefetched |
| Resolution.SelfSpendIsMissed | pkg/rosetta/converter.go:47-62 | A transaction that spends its own output requires nothing and is reported missing |
| Resolution.ConversionResolves | pkg/rosetta/converter.go:69-95 | A conversion that succeeds found every input; one that reports a missing input did not |
| Resolution.ConvertsIffResolved | pkg/rosetta/converter.go:39-67 | With good amounts and trees a block converts if and only if all lookups succeed |
| Resolution.FetchedResolvesIff | pkg/rosetta/converter.go:39-62 | With exactly the required inputs prefetched, a good block converts if and only if the boxes that transactions take from their own outputs are among them |
| Ledger.TxMeaning | pkg/rosetta/converter.go:69-114 | A valid transaction converts, and its coin changes in order are "delete the inputs, insert the outputs" |
| Ledger.BlockMeaning | pkg/rosetta/converter.go:39-67 | A valid block with prefetched inputs converts as if each transaction looked up the unspent boxes of its moment, and the coin changes in order give Ergo's unspent boxes: ids, owners, values |
| Ledger.OpsKeepAgreement | pkg/rosetta/converter.go:116-193 | Operations that name the coins they change keep every balance equal to the value of the account's unspent coins |
| Ledger.LedgerAgreement | pkg/indexer/indexer.go:248-263 | From agreeing genesis state, after any sequence of converted valid blocks the stored coins are Ergo's unspent boxes and every balance is the total of the account's unspent coins |
| Ledger.BlockIsLossless | pkg/rosetta/converter.go:116-193 | Applying a converted valid block and undoing its operations in reverse gives back the unspent coins and every balance |
| Signs.EnsureNegativeValueInputs | pkg/indexer/indexer.go:645-668 | In place: the spent amounts before the first that is not a number are normalised, nothing else is written, and the call fails exactly if there is such an amount |
| Signs.NormaliseOwnAmounts | pkg/indexer/indexer.go:645-668 | With one amount object per operation, success rewrites exactly the spent amounts; created ones, and the cached coins that share their amount objects, keep theirs even on failure |
| Signs.CacheShows | pkg/indexer/indexer.go:363-369 | As long as the amounts of creating operations stay, the cached coins, which hold the same objects, show what was created |
| Signs.Allocate | pkg/rosetta/converter.go:134-184 | One fresh amount object for each operation meets what `NormaliseOwnAmounts` asks for |
| Signs.NormalIsIdempotent | pkg/indexer/indexer.go:657-663 | Normalising twice is normalising once |
| Signs.NormalKeepsMagnitude | pkg/indexer/indexer.go:652-663 | A normalised spent number is not positive and keeps its magnitude; other operations are unchanged |
| Signs.ConvertedIsNormal | pkg/rosetta/converter.go:122-138 | On a block converted from non-negative coins and outputs normalisation is the identity |
| Mempool.FindCoinsForMempoolTx | pkg/services/mempool.go:106-143 | The loop computes the stored coins among the inputs, one read each, or fails on the first failed read |
| Mempool.MempoolTransaction | pkg/services/mempool.go:63-104 | The branches of the endpoint: offline, node error, unknown transaction, failed lookup, failed conversion, converted transaction |
| Mempool.Refusals | pkg/services/mempool.go:70-93 | When exactly the endpoint answers offline, node error, not found and unable to get coins |
| Mempool.ListedIsAnswered | pkg/services/mempool.go:79-103 | In every other case the answer is the last listed transaction with the requested id: its inputs spent with the coins that were read, its outputs created and related to all inputs, or the reason why it does not convert |
| Mempool.LookUpAllExact | pkg/services/mempool.go:106-143 | The search fails exactly on a failed read, and otherwise finds for each id what the last successful read of it found |
| Mempool.MempoolResolvesIffStored | pkg/services/mempool.go:79-99 | With stable storage holding no unconfirmed output, the requested transaction's inputs resolve if and only if all are stored, whatever the order of the others, and the answer spends the stored coins |
| Bootstrap.Storage.BootstrapBalances | pkg/indexer/indexer.go:695-744 | Succeeds exactly if every value is a number above zero, every balance can be set and the commit goes through, and then commits the whole list; otherwise commits nothing and reports the first bad entry for what is wrong with it |
| Bootstrap.Storage.BootstrapGenesisState | pkg/indexer/indexer.go:670-693 | Balances, then coins: when it succeeds, when it reports a failed import, and what is stored in each case |
| Bootstrap.HalfLoadedIff | pkg/indexer/indexer.go:670-693 | An error leaves the storage changed exactly when the balances commit, the import fails and a balance is new; the state is half-way exactly when the import would have changed something too |
| Bootstrap.MainnetHalfLoaded | pkg/indexer/indexer.go:670-693 | With the mainnet files and an empty database a failed import leaves balances that no coin backs |
| Bootstrap.SetAllIsTheList | pkg/indexer/indexer.go:704-741 | For distinct accounts the committed balances are exactly the list and other accounts are untouched |
| Bootstrap.SetAllLast | pkg/indexer/indexer.go:704-741 | In any list an account ends with its last listed value |
| Bootstrap.ImportAllLast | pkg/indexer/indexer.go:677-690 | In any list a coin id ends with its last listed coin |
| Bootstrap.UnlistedStays | pkg/indexer/indexer.go:670-744 | Accounts and coins that are not listed stay as they were |
| Bootstrap.BootstrapAgrees | pkg/indexer/indexer.go:670-744 | Matching lists start the ledger with every balance equal to the account's coins |
| Bootstrap.MainnetAgrees | pkg/config/mainnet/genesis_utxos.json:1-53 | The shipped coins and pkg/config/mainnet/bootstrap_balances.json match, are accepted, and start the ledger in agreement |

## Left out

- Protocol.DoFetch: `findCoin`, `findCoins` and `checkHeaderMatch` are modelled on values, as a state machine whose every read is a step of its own, because the property is about what runs between their reads; sharing of entry pointers is shown in `WaitTableClass`, the section under the lock in `IndexerSections.Indexer.MatchAndRegister`.
- IndexerSections.Indexer.BlockSeen: states the effect without interference; the interleavings of its sections are the protocol's.
- IndexerSections.Indexer.BlockAdded: states the effect without interference; the storage commit itself is an outcome that the caller of the model chooses.
- BoundedWaiting.WaitsAreBounded: assumes the call order of `ReorgFree.Allowed`, which is the syncer's; the syncer itself is not part of this model.
- Signs.Allocate: stands beside `BlockConverter`, whose operations are values; that each conversion makes a new amount object is read off the source.
- Signs.EnsureNegativeValueInputs: an operation without a coin change would be a nil dereference in the source and is a precondition here.
- Storage of the Rosetta SDK: reduced to a chain committed atomically with its coins and balances; its retries, pruning and block index are not part of this model. A hash names one block, and hashes of identifiers are taken to be injective.
- The bounds and order of the seen semaphore and of the priority mutex: a `BlockSeen` call that has not acquired the semaphore is one that has not taken its next step.
- Termination: the recursion of `findCoins` and the retry of `findCoin` depend on the environment, so results are about all states of all runs, not about progress.
- The `seen` counter is unbounded, as a counter of blocks does not overflow in practice.
- Sleeps, retry limits, logging, the HTTP client and the asserter's check of the finished block.
- `TreeToAddress` is any partial function of the tree, with the one hard-coded tree kept; currency and status fields, which are constants, are dropped.
- Decimal texts are a number or not a number; the parsing itself is library code.
- `NetworkStatus`, `PeerToRosettaPeer` and the network, block and account services: they would add only easy members.
