# Assertion-validated execution and the Hardhat console selector patch

This project is a Dafny model of two small parts of a Foundry-style EVM test toolchain:

- **The Hardhat console selector patch** (`crates/evm/src/executor/abi/mod.rs`).
  A call to `hardhat/console.log` carries a selector computed from a signature written with
  `uint`/`int`. The generated call bindings expect the selector of the same signature written
  with `uint256`/`int256`. `PatchHardhatConsoleSelector` rewrites the first four bytes of the
  call-data buffer in place, using a table of such selector pairs. The table's entries are kept
  abstract: every property is proved for any table of 4-byte keys and 4-byte values. The
  module also holds the cheatcode address and the Hardhat console address as 20-byte constants.
- **The `assertionEx` cheatcode** (`crates/cheatcodes/src/credible.rs`). It takes an
  ABI-encoded transaction descriptor, an adopter address and a list of assertion bytecode
  blobs. It registers the blobs under the adopter in a call-scoped assertion store, then
  decodes the descriptor and builds a transaction from it. Next it creates a runtime for this
  call alone. Inside that runtime it commits the caller's journaled state into a fresh fork and
  asks the assertion engine to validate the transaction. It then cancels the store reader's
  token and joins the reader. Finally it classifies the outcome:
  - an engine error;
  - an assertion rejection, which carries the number of assertions run and the gas they used;
  - a transaction revert, which carries the decoded reason or a fixed placeholder;
  - a pass, which replies `(true, gas, count)`.

Modules:

- `Wrappers`: `Option` and `Result`.
- `Primitives`: bytes, addresses, 64- and 256-bit words.
- `Decimal`: Rust's `Display` of unsigned integers, with its parse-back lemma.
- `ExecutorAbi`: the selector patch and the address constants.
- `Revm`: the EVM types the cheatcode uses.
- `AssertionExecutor`: the assertion engine's interface. This covers the configuration, the
  validation result, the store, the fork database, the cancellation token, the reader and its
  handle, the executor, and the trace that records one call's events.
- `Credible`: the cheatcode.

The collaborators whose code is outside this model are parameters, gathered in
`Credible.Collaborators`:

- ABI decoding of the descriptor;
- `Revert` decoding;
- ABI encoding of the reply;
- whether the store accepts the registration;
- the engine's `validate_transaction`;
- how the reader task ends.

The Debug renderings embedded in failure messages are the parameter `Credible.Formatter`.
The method `Credible.ApplyStateful` is proved equal to the function `Credible.Apply`. It keeps one
`AssertionExecutor.Trace` for the call. The operations append their own events to it: token
creation, reader spawn, executor build, validation, cancellation, join and runtime creation. Its event
trace is proved equal to `Credible.ApplyEvents`. The properties of the call are lemmas about
those two functions.

The model follows the code's order of steps. Decoding the descriptor is not the first step:
the assertions are registered in the store (credible.rs:73) before the descriptor is decoded (credible.rs:75).
A refused registration therefore ends the call before the descriptor is looked at. The model
keeps that order. Decoding still comes before the runtime, the fork commit and validation.

## Model

| member | source | states |
|---|---|---|
| ExecutorAbi.PatchHardhatConsoleSelector | crates/evm/src/executor/abi/mod.rs:32-40 | The buffer after the call is exactly `Patched` of the buffer before it. The buffer is changed in place, one selector byte at a time. |
| ExecutorAbi.PatchIgnoresShortInput | crates/evm/src/executor/abi/mod.rs:33-35 | An input shorter than four bytes is returned unchanged. |
| ExecutorAbi.PatchPreservesLength | crates/evm/src/executor/abi/mod.rs:36-39 | Patching never changes the buffer's length. |
| ExecutorAbi.PatchKeepsArguments | crates/evm/src/executor/abi/mod.rs:36-38 | The bytes from index 4 on are never modified. |
| ExecutorAbi.PatchReplacesKnownSelector | crates/evm/src/executor/abi/mod.rs:37-38 | When the 4-byte prefix is a key of the table, the prefix afterwards is the key's value. |
| ExecutorAbi.PatchKeepsUnknownSelector | crates/evm/src/executor/abi/mod.rs:37 | When the prefix is not a key, the whole buffer is left unchanged. |
| ExecutorAbi.PatchMapsEveryEntry | crates/evm/src/executor/abi/mod.rs:1205-1212 | For every entry of any table, patching the bare key gives exactly the entry's value. This is the module's own test, stated for all tables. |
| ExecutorAbi.HardhatConsoleAddressSpellsConsoleLog | crates/evm/src/executor/abi/mod.rs:22-28 | The Hardhat console address is nine zero bytes followed by the ASCII bytes of "console.log". |
| Credible.ThreadSafeDb.constructor | crates/cheatcodes/src/credible.rs:28-30 | The wrapper holds exactly the caller's ledger accessor. |
| Credible.ThreadSafeDb.BasicRef | crates/cheatcodes/src/credible.rs:37-39 | An account read is one read of the wrapped accessor. Its answer, error included, is returned unchanged. |
| Credible.ThreadSafeDb.CodeByHashRef | crates/cheatcodes/src/credible.rs:41-43 | A code read is one read of the wrapped accessor. Its answer, error included, is returned unchanged. |
| Credible.ThreadSafeDb.StorageRef | crates/cheatcodes/src/credible.rs:45-47 | A storage read is one read of the wrapped accessor. Its answer, error included, is returned unchanged. |
| Credible.ThreadSafeDb.BlockHashRef | crates/cheatcodes/src/credible.rs:49-51 | A block-hash read is one read of the wrapped accessor. Its answer, error included, is returned unchanged. |
| Credible.ToLegacyBytecodes | crates/cheatcodes/src/credible.rs:67-68 | The bytecode list has the same length and order as the blobs. Each element is the blob at that position, wrapped as raw legacy bytecode. |
| Credible.ExecutorConfigFor | crates/cheatcodes/src/credible.rs:70 | The engine configuration has the caller's spec id and chain id, and an assertion gas limit of 3,000,000. |
| AssertionExecutor.MockStore.constructor | crates/cheatcodes/src/credible.rs:72 | A new store has the given configuration and holds no assertions. |
| AssertionExecutor.MockStore.Insert | crates/cheatcodes/src/credible.rs:73 | A registration the store accepts adds the code under the adopter and changes nothing else. A refused one changes nothing and reports the refusal. |
| Credible.RegisteredAssertions | crates/cheatcodes/src/credible.rs:67-73 | After registration the store has exactly one key, the given adopter. Under it are all the blobs in order, each wrapped as raw legacy bytecode. |
| Credible.SaturateToU64 | crates/cheatcodes/src/credible.rs:79 | The gas limit is the block's when it fits in 64 bits, otherwise the 64-bit maximum. It is never above the block's. |
| Credible.BuildTxEnv | crates/cheatcodes/src/credible.rs:77-85 | The transaction has caller = `from` and target = `Call(to)`. Value and data are copied from the descriptor. The chain id is `Some` of the caller's chain id. The gas limit is the saturated block gas limit. The other fields are the defaults. |
| Credible.BuildTxEnvKeepsDescriptor | crates/cheatcodes/src/credible.rs:77-85 | The descriptor can be read back from the built transaction, so building loses none of it. |
| AssertionExecutor.NewFork | crates/cheatcodes/src/credible.rs:99 | A new fork is backed by the given ledger and has an empty overlay. |
| AssertionExecutor.Commit | crates/cheatcodes/src/credible.rs:100 | Committing puts every committed account into the overlay. Other overlay accounts and the backing ledger stay as they were. |
| AssertionExecutor.MockStore.CancellableReader | crates/cheatcodes/src/credible.rs:93 | The reader and its handle are new. The reader serves this store, and both are bound to the given token. The trace gains exactly "reader spawned". |
| AssertionExecutor.AssertionReader.constructor | crates/cheatcodes/src/credible.rs:93 | A new reader serves the given store and listens to the given token. |
| AssertionExecutor.AssertionReader.Serve | crates/cheatcodes/src/credible.rs:93-104 | The reader answers only while its token is not cancelled. It answers with exactly the assertions registered in its store. |
| AssertionExecutor.Executor.constructor | crates/cheatcodes/src/credible.rs:95 | The executor keeps the configuration, the ledger and the reader it is built from. The trace gains exactly "executor built". |
| AssertionExecutor.Executor.ValidateTransaction | crates/cheatcodes/src/credible.rs:103-104 | Validation needs the reader's token to be still live. The verdict is the engine's, given the configuration, the reader's assertions, the block, the transaction and the fork. The trace gains exactly "validated". |
| AssertionExecutor.CancellationToken.constructor | crates/cheatcodes/src/credible.rs:91 | A new token is not cancelled. |
| AssertionExecutor.CancellationToken.Cancel | crates/cheatcodes/src/credible.rs:106 | After the call the token is cancelled, and the trace gains exactly "cancelled". |
| AssertionExecutor.ReaderHandle.Join | crates/cheatcodes/src/credible.rs:108 | The reader can be joined only once its token is cancelled. Its outcome is reported unchanged, and the trace gains exactly "joined". |
| Credible.Runtime.constructor | crates/cheatcodes/src/credible.rs:87 | Creating a runtime appends "runtime created" to the call's trace. |
| Credible.Runtime.BlockOn | crates/cheatcodes/src/credible.rs:90-111 | Running the task appends to the trace, in order: token created, reader spawned, executor built, fork committed, validated, cancelled, joined. The result is the engine's verdict, with the store's assertions as the reader serves them, on the committed fork. It is returned unchanged whatever the join gives. |
| Credible.RunStepsAreOrderly | crates/cheatcodes/src/credible.rs:99-110 | In the runtime's record, validation, cancellation and join each happen exactly once. The fork commit precedes validation, validation precedes cancellation, and cancellation precedes the join. |
| Credible.ApplyRunsInOrder | crates/cheatcodes/src/credible.rs:87-111 | Every call that reaches its runtime follows that orderly sequence. |
| Credible.UndecodableDescriptorStopsEarly | crates/cheatcodes/src/credible.rs:75-111 | A descriptor that fails to decode fails the call with the decode error. No runtime is created, no fork is committed and nothing is validated. |
| Credible.ReaderOutcomeIsIgnored | crates/cheatcodes/src/credible.rs:108-110 | The call's result does not depend on how the reader task ended. |
| Credible.RevertReasonOf | crates/cheatcodes/src/credible.rs:121-127 | The reason is the revert decoded from the execution's output, where a halt counts as empty output. If decoding fails, it is the placeholder "Couldn't decode revert error". |
| Credible.OutcomeCasesPartition | crates/cheatcodes/src/credible.rs:112-137 | Every engine outcome is exactly one of engine error, assertion rejection, transaction failure or pass. |
| Credible.Classify | crates/cheatcodes/src/credible.rs:112-143 | The verdict is a reply exactly when the outcome passed, and the reply is `(true, gas, count)` as reported. An engine error becomes a failure carrying it. A rejection becomes a failure carrying both counts. A failed execution becomes a revert with its reason. |
| Credible.RejectionMessage | crates/cheatcodes/src/credible.rs:132-136 | The rejection message starts with the fixed heading and the label of the assertion count. |
| Credible.Message | crates/cheatcodes/src/credible.rs:73-136 | A refused registration panics with "Failed to store assertions: " and the store error. An undecodable descriptor gives the decode error's own message. An engine error gives "Error during Assertion Execution: " and the error. A revert gives "Transaction Execution Reverted: " and the reason. A rejection gives the rejection message with both counts. |
| Credible.RejectionMessageDeterminesTelemetry | crates/cheatcodes/src/credible.rs:132-136 | The rejection message determines both counts: two rejections with the same message have the same assertion count and the same gas. |
| Credible.FailureMessagesDistinguishCases | crates/cheatcodes/src/credible.rs:112-136 | The messages of a rejection, an engine failure and a transaction revert can never be confused, whatever text they embed. |
| Credible.MessageInitial | crates/cheatcodes/src/credible.rs:112-128 | Each of those three messages has its own first letter: 'S' for a rejection, 'E' for an engine error and 'T' for a revert. |
| Decimal.ParseDecimalString | crates/cheatcodes/src/credible.rs:133-135 | Parsing the decimal text of a count gives back the count. |
| Credible.ApplySucceedsOnlyWhenPassed | crates/cheatcodes/src/credible.rs:119-143 | The call returns Ok exactly when registration and decoding succeeded and the validated transaction passed. Its value is then the encoding of `(true, gas, count)`. |
| Credible.ApplyStateful | crates/cheatcodes/src/credible.rs:55-145 | The cheatcode's result is `Apply` and the call's trace is `ApplyEvents`. A call that fails before its runtime exists records nothing. |

## Left out

- The static signature lists `HEVM_ABI`, `HARDHAT_CONSOLE_ABI` and `CONSOLE_ABI`
  (abi/mod.rs:42-676). They are data fed to an external JSON ABI parser and have no logic.
- The entries of `HARDHAT_CONSOLE_SELECTOR_PATCHES`. The table is a parameter, and every
  property holds for any table of 4-byte pairs. Checking the entries would need keccak-256.
- `CheatcodeAddress` is modelled byte for byte only. Its derivation from
  `keccak256('hevm cheat code')` is not checked, because hashing is not modelled.
- The `unsafe` raw-pointer view of the selector is modelled as a plain update of the first
  four elements. The `Vec<u8>` is modelled as an array: this operation never changes the
  buffer's length.
- `ThreadSafeDb`'s `Arc<Mutex<…>>` is left out, along with the lock, its poisoning panic on
  `unwrap` and the concurrent callers. This is concurrency. Only the delegation of each read
  is modelled.
- The tokio runtime, `block_on`, the async task and the cancellation mechanics are reduced to a
  sequential record of events. The panic of `Runtime::new().unwrap()` is not modelled, and
  neither is dropping the runtime at the end of the call.
- The `.expect` panic when the store refuses the registration is modelled as the distinct
  fatal failure `StoreInsertFailed` rather than as a process abort. When the store refuses is
  the engine's decision, so it is a parameter.
- The internals of `validate_transaction`, `config.build` and `cancellable_reader`, and the revm
  interpreter, are not modelled. Validation is a parameter of the inputs the code hands it.
  The model assumes this interface for these engine operations, and the proof that validation
  comes before cancellation, and cancellation before the join, rests on it:
  - `AssertionReader.Serve`: the reader serves the store's current assertions, and only while
    its token has not been cancelled.
  - `ReaderHandle.Join`: the reader's handle is joined only after its token is cancelled.
- `ForkDb::commit` is not part of this model. Commit is modelled as an overlay in which
  committed accounts replace earlier ones.
- ABI decoding of the descriptor and `Revert::abi_decode` are parameters that may fail. The ABI
  encoding of the reply is a total parameter, which cannot fail. The round trip of the encoded
  reply is not modelled.
- RejectionMessage: its own contract states only the fixed beginning. That both counts can be
  read back from the rest is stated by RejectionMessageDeterminesTelemetry.
- The renderings of errors are parameters: the pretty Debug form (`{:#?}`) of engine errors
  and reverts, the plain Debug form (`{:?}`) of the store error in the panic message of
  `.expect`, and the message of a converted decode error. The decimal rendering of the two counts in the
  rejection message is modelled.
- Revm's types are modelled only as far as the cheatcode uses them. This covers `TxEnv`'s
  explicitly set fields, its default gas price and nonce, `is_success` and `into_output`.
  The other `TxEnv` fields are not modelled: access list, priority fee, blob and authorization
  fields.
- The telemetry counters are unbounded naturals, because the width of the engine's counters
  is outside this model.
- Reads through the caller's `DatabaseExt` may update the caller's caches. That is not
  modelled: the context is a value.
- Properties that depend on what the engine computes are not stated. This includes the counts
  reported for an empty or a failing assertion set and the balance scenarios: the engine is a
  parameter.
