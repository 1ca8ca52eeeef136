/**
 * The values handled by the wallet's output-manager storage backend:
 * outputs, pending-transaction records, the key-manager state, the keys and
 * values of the backend's fetch/write interface and its error type.
 */
module OutputTypes {
  import opened Wrappers

  /** The secret spending key of an output; outputs are identified by it. */
  type SpendingKey = nat

  /** Transaction ids are 64-bit unsigned integers. */
  newtype TxId = x: int | 0 <= x < 0x1_0000_0000_0000_0000

  /** Instants and durations, in milliseconds. */
  type Timestamp = int

  /** An output the wallet can spend: its spending key and everything else about it, kept opaque. */
  datatype UnblindedOutput = UnblindedOutput(spendingKey: SpendingKey, payload: seq<bv8>)

  /** The outputs a transaction in flight will spend and receive, and when it was recorded. */
  datatype PendingTransactionOutputs = PendingTransactionOutputs(
    txId: TxId,
    outputsToBeSpent: seq<UnblindedOutput>,
    outputsToBeReceived: seq<UnblindedOutput>,
    timestamp: Timestamp)

  /** The key manager's state: its key index, and its seeds kept opaque. */
  datatype KeyManagerState = KeyManagerState(primaryKeyIndex: nat, seeds: seq<bv8>)

  /** What `fetch` and `Remove` look up. */
  datatype DbKey =
    | SpentOutput(key: SpendingKey)
    | UnspentOutput(key: SpendingKey)
    | PendingTransactionOutputs(txId: TxId)
    | UnspentOutputs
    | SpentOutputs
    | AllPendingTransactionOutputs
    | KeyManagerState
    | InvalidOutputs

  /** What `fetch` and `Remove` hand back. */
  datatype DbValue =
    | SpentOutput(output: UnblindedOutput)
    | UnspentOutput(output: UnblindedOutput)
    | PendingTransactionOutputs(pendingTx: PendingTransactionOutputs)
    | UnspentOutputs(outputs: seq<UnblindedOutput>)
    | SpentOutputs(outputs: seq<UnblindedOutput>)
    | AllPendingTransactionOutputs(pending: map<TxId, PendingTransactionOutputs>)
    | KeyManagerState(state: KeyManagerState)
    | InvalidOutputs(outputs: seq<UnblindedOutput>)

  /** What `Insert` stores. */
  datatype DbKeyValuePair =
    | SpentOutput(key: SpendingKey, output: UnblindedOutput)
    | UnspentOutput(key: SpendingKey, output: UnblindedOutput)
    | PendingTransactionOutputs(txId: TxId, pendingTx: PendingTransactionOutputs)
    | KeyManagerState(state: KeyManagerState)

  datatype WriteOperation = Insert(pair: DbKeyValuePair) | Remove(key: DbKey)

  datatype StorageError =
    | DuplicateOutput
    | ValueNotFound(key: DbKey)
    | ValuesNotFound
    | OperationNotSupported
    | KeyManagerNotInitialized
      /** The timeout period does not fit a chrono duration. */
    | DurationOutOfRange

  datatype Result<+T> = Ok(value: T) | Err(error: StorageError)
}
