/** The entities of the indexer: Rosetta blocks and coins on one side, Ergo blocks on the other.
    Only the fields that the indexer, the converter and the mempool service use are kept. */
module Types {

  datatype Option<+T> = None | Some(value: T)

  datatype Result<+T, +E> = Ok(value: T) | Err(error: E)

  /** The decimal text of an amount: a number, or a text that does not parse as one. */
  datatype Text = Num(n: int) | NotANumber {
    /** The amount in nanoErg that the text contributes to a sum. */
    function Nano(): int {
      if Num? then n else 0
    }
  }

  // ---------- Rosetta side ----------

  datatype BlockIdentifier = BlockIdentifier(index: int, hash: string)

  datatype CoinAction = CoinCreated | CoinSpent

  datatype CoinChange = CoinChange(coinId: string, action: CoinAction)

  datatype OperationType = INPUT | OUTPUT

  datatype Operation = Operation(
    index: int,
    networkIndex: int,
    related: seq<int>,
    kind: OperationType,
    account: string,
    amount: Text,
    coinChange: Option<CoinChange>)
  {
    predicate Creates() {
      coinChange.Some? && coinChange.value.action == CoinCreated
    }

    predicate Spends() {
      coinChange.Some? && coinChange.value.action == CoinSpent
    }

    function CoinId(): string
      requires coinChange.Some?
    {
      coinChange.value.coinId
    }
  }

  datatype Transaction = Transaction(hash: string, operations: seq<Operation>)

  datatype Block = Block(
    id: BlockIdentifier,
    parent: BlockIdentifier,
    timestamp: int,
    transactions: seq<Transaction>)

  /** A coin and its owner. */
  datatype AccountCoin = AccountCoin(account: string, coinId: string, amount: Text)

  type Coins = map<string, AccountCoin>

  // ---------- Ergo side ----------

  datatype ErgoInput = ErgoInput(boxId: string)

  datatype ErgoOutput = ErgoOutput(boxId: string, value: int, ergoTree: string, index: int)

  datatype ErgoTransaction = ErgoTransaction(id: string, inputs: seq<ErgoInput>, outputs: seq<ErgoOutput>)

  datatype BlockHeader = BlockHeader(id: string, parentId: string, height: int, timestamp: int)

  datatype FullBlock = FullBlock(header: BlockHeader, transactions: seq<ErgoTransaction>)

  /** A box that must be looked up before its spending transaction can be converted.
      txId names the spending transaction. */
  datatype InputCtx = InputCtx(txId: string, inputId: string)
}
