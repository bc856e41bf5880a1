/** The cross-chain vocabulary of cross_chain.rs. Hashes are constructors, so two actions (or two
    root derivations) hash alike only when they are equal. */
module CrossChain {
  import opened Wrappers
  import opened MachineInts

  type Address = nat
  type Bytes = seq<nat>
  type RollupId = U256

  const MAINNET: RollupId := 0
  const ZERO_ADDRESS: Address := 0

  datatype ActionKind = Call | Result | L2Tx | Revert | RevertContinue

  datatype Action = Action(
    kind: ActionKind,
    rollupId: RollupId,
    destination: Address,
    value: U256,
    data: Bytes,
    failed: bool,
    sourceAddress: Address,
    sourceRollup: RollupId,
    scope: seq<U256>)

  /** `ZeroHash` marks immediate entries; `OfAction` is keccak of the encoded action; `Opaque`
      stands for any other 32 bytes a poster may write. */
  datatype ActionHash = ZeroHash | OfAction(action: Action) | Opaque(id: nat)

  function HashOf(a: Action): ActionHash {
    OfAction(a)
  }

  /** A state root: an arbitrary 32-byte value (`Real(0)` is B256::ZERO), or the synthetic root
      keccak(pre, post, rollup, j). */
  datatype Root = Real(id: nat) | Syn(pre: Root, post: Root, rollup: U64, j: nat)

  const ZERO_ROOT: Root := Real(0)

  datatype StateDelta = StateDelta(rollupId: RollupId, currentState: Root, newState: Root, etherDelta: int)

  datatype Entry = Entry(stateDeltas: seq<StateDelta>, actionHash: ActionHash, nextAction: Action)

  predicate Immediate(e: Entry) {
    e.actionHash == ZeroHash
  }

  /** Field pattern shared by RESULT actions: everything but rollup, data and flag is zero. */
  function ResultAction(rollupId: RollupId, data: Bytes, failed: bool): Action {
    Action(Result, rollupId, ZERO_ADDRESS, 0, data, failed, ZERO_ADDRESS, MAINNET, [])
  }

  function RevertAction(rollupId: RollupId, scope: seq<U256>): Action {
    Action(Revert, rollupId, ZERO_ADDRESS, 0, [], false, ZERO_ADDRESS, MAINNET, scope)
  }

  function RevertContinueAction(rollupId: RollupId): Action {
    Action(RevertContinue, rollupId, ZERO_ADDRESS, 0, [], true, ZERO_ADDRESS, MAINNET, [])
  }

  // ---- Transactions and receipts of an L2 block ----

  /** An event log; a topic is a 32-byte word, so it shares the type of an action hash. */
  datatype Log = Log(address: Address, topics: seq<ActionHash>)

  /** The signature hash of `ExecutionConsumed`. */
  const CONSUMED_SIGNATURE: ActionHash := Opaque(0)

  datatype Receipt = Receipt(logs: seq<Log>)

  /** A transaction, with the table it loads when it decodes as `loadExecutionTable`. */
  datatype Tx = Tx(id: nat, loadsTable: Option<seq<Entry>>)

  /** Encoded transactions of a block: no bytes at all, an RLP list, or bytes that do not decode. */
  datatype Payload = NoBytes | RlpList(txs: seq<Tx>) | Undecodable(id: nat)
}
