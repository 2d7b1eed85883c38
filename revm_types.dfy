/**
 * The EVM types the assertion cheatcode exchanges with its collaborators, at the level
 * of detail the cheatcode itself depends on.
 */
module Revm {
  import opened Wrappers
  import opened Primitives

  /** The protocol revision the execution follows (`SpecId`). */
  datatype SpecId = SpecId(revision: nat)

  datatype AccountInfo = AccountInfo(balance: U256, nonce: U64, codeHash: Hash)

  datatype Account = Account(info: AccountInfo, storage: map<U256, U256>)

  /** The journaled, not yet committed, state of the current call: touched accounts. */
  type JournalState = map<Address, Account>

  /** Contract code. Assertions are registered as raw, not yet analysed, legacy bytecode. */
  datatype Bytecode = LegacyRaw(bytes: seq<Byte>)

  datatype TxKind = Call(to: Address) | Create

  datatype BlockEnv = BlockEnv(number: U256, coinbase: Address, timestamp: U256, gasLimit: U256, basefee: U256)

  /** A transaction ready for execution. Fields the cheatcode does not set keep the
      defaults `TxEnv::default()` gives them (see `DefaultTxEnv`). */
  datatype TxEnv = TxEnv(
    caller: Address,
    gasLimit: U64,
    gasPrice: U256,
    transactTo: TxKind,
    value: U256,
    data: seq<Byte>,
    nonce: Option<U64>,
    chainId: Option<U64>)

  function DefaultTxEnv(): TxEnv {
    TxEnv(Zeros(20), MaxU64, 0, Call(Zeros(20)), 0, [], None, None)
  }

  /** The outcome of executing a transaction. */
  datatype ExecutionResult =
    | Success(gasUsed: U64, output: seq<Byte>)
    | Revert(gasUsed: U64, output: seq<Byte>)
    | Halt(gasUsed: U64)
  {
    predicate IsSuccess() {
      Success?
    }

    /** The returned or revert data; a halt has none. */
    function IntoOutput(): (r: Option<seq<Byte>>)
      ensures r.None? <==> Halt?
    {
      match this
      case Success(_, out) => Some(out)
      case Revert(_, out) => Some(out)
      case Halt(_) => None
    }
  }

  datatype ResultAndState = ResultAndState(result: ExecutionResult, state: JournalState)

  datatype DatabaseError = DatabaseError(detail: string)

  /** The read interface of the caller's mutable ledger accessor (`DatabaseExt`). */
  datatype Ledger = Ledger(
    basic: Address -> Result<Option<AccountInfo>, DatabaseError>,
    codeByHash: Hash -> Result<Bytecode, DatabaseError>,
    storage: (Address, U256) -> Result<U256, DatabaseError>,
    blockHash: U64 -> Result<Hash, DatabaseError>)
}
