/**
 * The `assertionEx` cheatcode: execute one transaction against a fork of the current
 * state, run the assertions registered for one adopter address against the result, and
 * turn the verdict into the cheatcode's reply or a revert.
 */
module Credible {
  import opened Wrappers
  import opened Primitives
  import opened Decimal
  import opened Revm
  import opened AssertionExecutor

  // ---------------------------------------------------------------------------------
  // Inputs and collaborators
  // ---------------------------------------------------------------------------------

  /** The cheatcode's arguments: an ABI-encoded transaction descriptor, the adopter
      address and the assertion bytecode blobs. */
  datatype AssertionExCall = AssertionExCall(tx: seq<Byte>, assertionAdopter: Address, assertions: seq<seq<Byte>>)

  /** The decoded transaction descriptor. */
  datatype AssertionExTransaction = AssertionExTransaction(from: Address, to: Address, value: U256, data: seq<Byte>)

  /** What the cheatcode reads from its execution context. */
  datatype CheatsCtxt = CheatsCtxt(specId: SpecId, block: BlockEnv, state: JournalState, chainId: U64, db: Ledger)

  datatype DecodeError = DecodeError(detail: string)

  /** The Solidity `Error(string)` revert payload. */
  datatype SolRevert = SolRevert(reason: string)

  /** The successful reply, ABI-encoded as `(bool, uint256, uint256)`. */
  datatype Reply = Reply(passed: bool, totalAssertionGas: nat, totalAssertionsRan: nat)

  /** The operations the cheatcode calls but whose code is outside this model: ABI
      decoding and encoding, the store's acceptance of a registration, the engine's
      validation, and how the store's background reader ends. */
  datatype Collaborators = Collaborators(
    storeInsert: (ExecutorConfig, Address, seq<Bytecode>) -> Option<StoreError>,
    decodeDescriptor: seq<Byte> -> Result<AssertionExTransaction, DecodeError>,
    validate: (ExecutorConfig, map<Address, seq<Bytecode>>, BlockEnv, TxEnv, ForkDb) -> Result<ValidationResult, EngineError>,
    readerOutcome: Result<(), JoinError>,
    decodeRevert: seq<Byte> -> Option<SolRevert>,
    encodeReply: Reply -> seq<Byte>)

  // ---------------------------------------------------------------------------------
  // The shared ledger accessor
  // ---------------------------------------------------------------------------------

  /** The caller's ledger accessor, shared with the engine's tasks. Each read goes to
      the wrapped accessor once and hands its answer back as it is, errors included. */
  class ThreadSafeDb {
    const db: Ledger

    constructor (db: Ledger)
      ensures this.db == db
    {
      this.db := db;
    }

    method BasicRef(address: Address) returns (r: Result<Option<AccountInfo>, DatabaseError>)
      ensures r == db.basic(address)
    {
      r := db.basic(address);
    }

    method CodeByHashRef(codeHash: Hash) returns (r: Result<Bytecode, DatabaseError>)
      ensures r == db.codeByHash(codeHash)
    {
      r := db.codeByHash(codeHash);
    }

    method StorageRef(address: Address, index: U256) returns (r: Result<U256, DatabaseError>)
      ensures r == db.storage(address, index)
    {
      r := db.storage(address, index);
    }

    method BlockHashRef(number: U64) returns (r: Result<Hash, DatabaseError>)
      ensures r == db.blockHash(number)
    {
      r := db.blockHash(number);
    }
  }

  // ---------------------------------------------------------------------------------
  // Assertion registration
  // ---------------------------------------------------------------------------------

  /** The gas every assertion may use. */
  const AssertionGasLimit: U64 := 3_000_000

  /** The engine configuration: the caller's protocol revision and chain id. */
  function ExecutorConfigFor(ctx: CheatsCtxt): (c: ExecutorConfig)
    ensures c.specId == ctx.specId && c.chainId == ctx.chainId
    ensures c.assertionGasLimit == 3_000_000
  {
    ExecutorConfig(ctx.specId, ctx.chainId, AssertionGasLimit)
  }

  /** Each blob wrapped as raw legacy bytecode, in order. */
  function ToLegacyBytecodes(blobs: seq<seq<Byte>>): (code: seq<Bytecode>)
    ensures |code| == |blobs|
    ensures forall i :: 0 <= i < |blobs| ==> code[i] == LegacyRaw(blobs[i])
  {
    if blobs == [] then [] else [LegacyRaw(blobs[0])] + ToLegacyBytecodes(blobs[1..])
  }

  /** The store's contents once the call's assertions are registered: exactly one
      entry, under the adopter, holding every blob in order. */
  function RegisteredAssertions(call: AssertionExCall): (m: map<Address, seq<Bytecode>>)
    ensures m.Keys == {call.assertionAdopter}
    ensures |m[call.assertionAdopter]| == |call.assertions|
    ensures forall i :: 0 <= i < |call.assertions| ==> m[call.assertionAdopter][i] == LegacyRaw(call.assertions[i])
  {
    map[call.assertionAdopter := ToLegacyBytecodes(call.assertions)]
  }

  // ---------------------------------------------------------------------------------
  // Building the transaction
  // ---------------------------------------------------------------------------------

  /** A 256-bit gas limit narrowed to 64 bits, saturating at the 64-bit maximum. */
  function SaturateToU64(g: U256): (r: U64)
    ensures r <= g
    ensures g <= MaxU64 ==> r == g
    ensures g > MaxU64 ==> r == MaxU64
  {
    if g <= MaxU64 then g else MaxU64
  }

  /** The transaction the descriptor describes, sent on the caller's chain with the
      block's gas limit; the remaining fields keep their defaults. */
  function BuildTxEnv(d: AssertionExTransaction, ctx: CheatsCtxt): (tx: TxEnv)
    ensures tx.caller == d.from && tx.transactTo == Call(d.to)
    ensures tx.value == d.value && tx.data == d.data
    ensures tx.chainId == Some(ctx.chainId)
    ensures tx.gasLimit == SaturateToU64(ctx.block.gasLimit)
    ensures tx.gasPrice == DefaultTxEnv().gasPrice && tx.nonce == DefaultTxEnv().nonce
  {
    DefaultTxEnv().(
      caller := d.from,
      gasLimit := SaturateToU64(ctx.block.gasLimit),
      transactTo := Call(d.to),
      value := d.value,
      data := d.data,
      chainId := Some(ctx.chainId))
  }

  /** The descriptor a built transaction was made from: the inverse of `BuildTxEnv`. */
  function DescriptorOf(tx: TxEnv): AssertionExTransaction
    requires tx.transactTo.Call?
  {
    AssertionExTransaction(tx.caller, tx.transactTo.to, tx.value, tx.data)
  }

  /** Building loses nothing of the descriptor. */
  lemma BuildTxEnvKeepsDescriptor(d: AssertionExTransaction, ctx: CheatsCtxt)
    ensures BuildTxEnv(d, ctx).transactTo.Call?
    ensures DescriptorOf(BuildTxEnv(d, ctx)) == d
  {
  }

  // ---------------------------------------------------------------------------------
  // Classifying the engine's outcome
  // ---------------------------------------------------------------------------------

  const UndecodableRevert: string := "Couldn't decode revert error"

  /** Why the triggering transaction failed: its output decoded as a revert reason,
      with no output standing for empty bytes, or the fixed placeholder. */
  function RevertReasonOf(result: ExecutionResult, decodeRevert: seq<Byte> -> Option<SolRevert>): (r: SolRevert)
    ensures decodeRevert(result.IntoOutput().UnwrapOr([])).Some? ==> r == decodeRevert(result.IntoOutput().UnwrapOr([])).value
    ensures decodeRevert(result.IntoOutput().UnwrapOr([])).None? ==> r.reason == UndecodableRevert
    ensures result.Halt? ==> r == decodeRevert([]).UnwrapOr(SolRevert(UndecodableRevert))
  {
    decodeRevert(result.IntoOutput().UnwrapOr([])).UnwrapOr(SolRevert(UndecodableRevert))
  }

  /** How a call of the cheatcode can fail. */
  datatype Failure =
    | StoreInsertFailed(storeError: StoreError)
    | DescriptorDecodeFailed(decodeError: DecodeError)
    | EngineFailed(engineError: EngineError)
    | TransactionReverted(revert: SolRevert)
    | AssertionsRejected(totalAssertionsRan: nat, totalAssertionGas: nat)

  /** The engine itself failed to run. */
  predicate EngineBroke(outcome: Result<ValidationResult, EngineError>) {
    outcome.Err?
  }

  /** Some assertion rejected the transaction: there is no post-state. */
  predicate AssertionRejected(outcome: Result<ValidationResult, EngineError>) {
    outcome.Ok? && outcome.value.resultAndState.None?
  }

  /** Every assertion passed, but the transaction's own execution did not succeed. */
  predicate TransactionFailed(outcome: Result<ValidationResult, EngineError>) {
    outcome.Ok? && outcome.value.resultAndState.Some? && !outcome.value.resultAndState.value.result.IsSuccess()
  }

  /** The transaction executed successfully and every assertion passed. */
  predicate Passed(outcome: Result<ValidationResult, EngineError>) {
    outcome.Ok? && outcome.value.resultAndState.Some? && outcome.value.resultAndState.value.result.IsSuccess()
  }

  /** Every outcome falls in exactly one of the four cases. */
  lemma OutcomeCasesPartition(outcome: Result<ValidationResult, EngineError>)
    ensures EngineBroke(outcome) || AssertionRejected(outcome) || TransactionFailed(outcome) || Passed(outcome)
    ensures !(EngineBroke(outcome) && AssertionRejected(outcome))
    ensures !(EngineBroke(outcome) && TransactionFailed(outcome))
    ensures !(EngineBroke(outcome) && Passed(outcome))
    ensures !(AssertionRejected(outcome) && TransactionFailed(outcome))
    ensures !(AssertionRejected(outcome) && Passed(outcome))
    ensures !(TransactionFailed(outcome) && Passed(outcome))
  {
  }

  /** The verdict on the engine's outcome: a passing reply exactly when the transaction
      succeeded and every assertion passed, else the failure of the case at hand. */
  function Classify(outcome: Result<ValidationResult, EngineError>, decodeRevert: seq<Byte> -> Option<SolRevert>): (r: Result<Reply, Failure>)
    ensures r.Ok? <==> Passed(outcome)
    ensures r.Ok? ==> r.value.passed
    ensures r.Ok? ==> (r.value.totalAssertionGas == outcome.value.totalAssertionGas
                       && r.value.totalAssertionsRan == outcome.value.totalAssertionsRan)
    ensures EngineBroke(outcome) ==> r == Err(EngineFailed(outcome.error))
    ensures AssertionRejected(outcome) ==>
              r == Err(AssertionsRejected(outcome.value.totalAssertionsRan, outcome.value.totalAssertionGas))
    ensures TransactionFailed(outcome) ==>
              r == Err(TransactionReverted(RevertReasonOf(outcome.value.resultAndState.value.result, decodeRevert)))
  {
    match outcome
    case Err(e) => Err(EngineFailed(e))
    case Ok(details) =>
      match details.resultAndState
      case None => Err(AssertionsRejected(details.totalAssertionsRan, details.totalAssertionGas))
      case Some(rs) =>
        if !rs.result.IsSuccess() then Err(TransactionReverted(RevertReasonOf(rs.result, decodeRevert)))
        else Ok(Reply(true, details.totalAssertionGas, details.totalAssertionsRan))
  }

  // ---------------------------------------------------------------------------------
  // Failure messages
  // ---------------------------------------------------------------------------------

  /** Renderings of the values a failure message embeds: pretty Debug (`{:#?}`) of engine
      errors and reverts, plain Debug (`{:?}`) of store errors, and the message of a
      converted decode error. Their format belongs to the libraries that define those values. */
  datatype Formatter = Formatter(
    storeError: StoreError -> string,
    decodeError: DecodeError -> string,
    engineError: EngineError -> string,
    revert: SolRevert -> string)

  const RejectionHeading: string := "Some Assertions reverted"
  const RanLabel: string := " | Total Assertions Ran: "
  const GasLabel: string := " | Total Assertion Gas: "

  /** The rejection message: the fixed heading, then both counts in decimal, each after its label. */
  function RejectionMessage(ran: nat, gas: nat): (m: string)
    ensures RejectionHeading + RanLabel <= m
  {
    RejectionHeading + RanLabel + DecimalString(ran) + GasLabel + DecimalString(gas)
  }

  /** The text of a failure: the message the cheatcode reverts with, or, for a refused
      registration, the message of the panic raised by `.expect`. */
  function Message(f: Failure, fmt: Formatter): (m: string)
    ensures f.StoreInsertFailed? ==> m == "Failed to store assertions: " + fmt.storeError(f.storeError)
    ensures f.DescriptorDecodeFailed? ==> m == fmt.decodeError(f.decodeError)
    ensures f.EngineFailed? ==> m == "Error during Assertion Execution: " + fmt.engineError(f.engineError)
    ensures f.TransactionReverted? ==> m == "Transaction Execution Reverted: " + fmt.revert(f.revert)
    ensures f.AssertionsRejected? ==> m == RejectionMessage(f.totalAssertionsRan, f.totalAssertionGas)
  {
    match f
    case StoreInsertFailed(e) => "Failed to store assertions: " + fmt.storeError(e)
    case DescriptorDecodeFailed(e) => fmt.decodeError(e)
    case EngineFailed(e) => "Error during Assertion Execution: " + fmt.engineError(e)
    case TransactionReverted(r) => "Transaction Execution Reverted: " + fmt.revert(r)
    case AssertionsRejected(ran, gas) => RejectionMessage(ran, gas)
  }

  /** The rejection message keeps its telemetry: both counts can be read back from it. */
  lemma RejectionMessageDeterminesTelemetry(ran1: nat, gas1: nat, ran2: nat, gas2: nat)
    requires RejectionMessage(ran1, gas1) == RejectionMessage(ran2, gas2)
    ensures ran1 == ran2 && gas1 == gas2
  {
    var prefix := RejectionHeading + RanLabel;
    var d1, d2 := DecimalString(ran1), DecimalString(ran2);
    var t1, t2 := GasLabel + DecimalString(gas1), GasLabel + DecimalString(gas2);
    RejectionMessageParts(ran1, gas1);
    RejectionMessageParts(ran2, gas2);
    DropCommonPrefix(prefix, d1 + t1, d2 + t2);
    assert GasLabel[0] == ' ';
    DigitRunUnique(d1, t1, d2, t2);
    DropCommonPrefix(GasLabel, DecimalString(gas1), DecimalString(gas2));
    DecimalStringInjective(ran1, ran2);
    DecimalStringInjective(gas1, gas2);
  }

  /** The rejection message regrouped as the fixed prefix, the first count, and the rest. */
  lemma RejectionMessageParts(ran: nat, gas: nat)
    ensures RejectionMessage(ran, gas)
         == (RejectionHeading + RanLabel) + (DecimalString(ran) + (GasLabel + DecimalString(gas)))
  {
  }

  lemma DropCommonPrefix(p: string, a: string, b: string)
    requires p + a == p + b
    ensures a == b
  {
    assert a == (p + a)[|p|..];
    assert b == (p + b)[|p|..];
  }

  /** An assertion rejection, an engine failure and a transaction revert never produce
      the same message, whatever the embedded renderings are. */
  lemma FailureMessagesDistinguishCases(f1: Failure, f2: Failure, fmt: Formatter)
    requires f1.AssertionsRejected? || f1.EngineFailed? || f1.TransactionReverted?
    requires f2.AssertionsRejected? || f2.EngineFailed? || f2.TransactionReverted?
    requires Message(f1, fmt) == Message(f2, fmt)
    ensures f1.AssertionsRejected? == f2.AssertionsRejected?
    ensures f1.EngineFailed? == f2.EngineFailed?
  {
    MessageInitial(f1, fmt);
    MessageInitial(f2, fmt);
  }

  /** The first letter of the message of each case that reverts with a fixed prefix. */
  lemma MessageInitial(f: Failure, fmt: Formatter)
    requires f.AssertionsRejected? || f.EngineFailed? || f.TransactionReverted?
    ensures |Message(f, fmt)| > 0
    ensures Message(f, fmt)[0] == if f.AssertionsRejected? then 'S' else if f.EngineFailed? then 'E' else 'T'
  {
    match f
    case AssertionsRejected(ran, gas) =>
      var rest := RanLabel + DecimalString(ran) + GasLabel + DecimalString(gas);
      assert Message(f, fmt) == RejectionHeading + rest;
      assert (RejectionHeading + rest)[0] == RejectionHeading[0] == 'S';
    case EngineFailed(e) =>
      assert ("Error during Assertion Execution: " + fmt.engineError(e))[0] == 'E';
    case TransactionReverted(r) =>
      assert ("Transaction Execution Reverted: " + fmt.revert(r))[0] == 'T';
  }

  // ---------------------------------------------------------------------------------
  // Running validation
  // ---------------------------------------------------------------------------------

  /** What a call's runtime records after its own creation, in order. */
  const RunSteps: seq<Event> := [TokenCreated, ReaderSpawned, ExecutorBuilt, ForkCommitted, Validated, Cancelled, Joined]

  predicate Precedes(events: seq<Event>, a: Event, b: Event) {
    exists i, j :: 0 <= i < j < |events| && events[i] == a && events[j] == b
  }

  /** Validation runs once on the committed fork; then the token is cancelled exactly
      once; then the reader is joined exactly once. */
  predicate OrderlyRun(events: seq<Event>) {
    multiset(events)[Validated] == 1 && multiset(events)[Cancelled] == 1 && multiset(events)[Joined] == 1
    && Precedes(events, ForkCommitted, Validated)
    && Precedes(events, Validated, Cancelled)
    && Precedes(events, Cancelled, Joined)
  }

  /** The runtime created for one call, blocking the caller until its one task ends. */
  class Runtime {
    const trace: Trace

    constructor (trace: Trace)
      modifies trace
      ensures this.trace == trace
      ensures trace.events == old(trace.events) + [RuntimeCreated]
    {
      this.trace := trace;
      new;
      trace.Record(RuntimeCreated);
    }

    /** Runs the validation task: commit the caller's state into a fresh fork, validate,
        then cancel the reader's token and join the reader. The validation's outcome is
        returned as it is, however the reader ended. */
    method BlockOn(env: Collaborators, store: MockStore, db: ThreadSafeDb, state: JournalState, block: BlockEnv, tx: TxEnv)
      returns (r: Result<ValidationResult, EngineError>)
      modifies trace
      ensures trace.events == old(trace.events) + RunSteps
      ensures r == env.validate(store.config, store.assertions, block, tx, Commit(NewFork(db.db), state))
    {
      var token := new CancellationToken(trace);
      var reader, handle := store.CancellableReader(token);
      var executor := new Executor(store.config, db.db, reader);
      var fork := Commit(NewFork(executor.db), state);
      trace.Record(ForkCommitted);
      r := executor.ValidateTransaction(env.validate, block, tx, fork);
      token.Cancel();
      var joined := handle.Join(env.readerOutcome);
    }
  }

  // ---------------------------------------------------------------------------------
  // The cheatcode
  // ---------------------------------------------------------------------------------

  /** What the engine reports for the decoded descriptor `d`. */
  function Validation(call: AssertionExCall, ctx: CheatsCtxt, env: Collaborators, d: AssertionExTransaction): Result<ValidationResult, EngineError> {
    env.validate(ExecutorConfigFor(ctx), RegisteredAssertions(call), ctx.block, BuildTxEnv(d, ctx),
                 Commit(NewFork(ctx.db), ctx.state))
  }

  /** The cheatcode's result: the encoded passing reply, or the failure. */
  function Apply(call: AssertionExCall, ctx: CheatsCtxt, env: Collaborators): Result<seq<Byte>, Failure> {
    match env.storeInsert(ExecutorConfigFor(ctx), call.assertionAdopter, ToLegacyBytecodes(call.assertions))
    case Some(e) => Err(StoreInsertFailed(e))
    case None =>
      match env.decodeDescriptor(call.tx)
      case Err(e) => Err(DescriptorDecodeFailed(e))
      case Ok(d) =>
        match Classify(Validation(call, ctx, env, d), env.decodeRevert)
        case Ok(reply) => Ok(env.encodeReply(reply))
        case Err(f) => Err(f)
  }

  /** Whether the call gets as far as creating its runtime. */
  predicate ReachesRuntime(call: AssertionExCall, ctx: CheatsCtxt, env: Collaborators) {
    env.storeInsert(ExecutorConfigFor(ctx), call.assertionAdopter, ToLegacyBytecodes(call.assertions)).None?
    && env.decodeDescriptor(call.tx).Ok?
  }

  /** What the call's runtime records: nothing when the call fails before it exists. */
  function ApplyEvents(call: AssertionExCall, ctx: CheatsCtxt, env: Collaborators): seq<Event> {
    if ReachesRuntime(call, ctx, env) then [RuntimeCreated] + RunSteps else []
  }

  method ApplyStateful(call: AssertionExCall, ctx: CheatsCtxt, env: Collaborators)
    returns (r: Result<seq<Byte>, Failure>, events: seq<Event>)
    ensures r == Apply(call, ctx, env)
    ensures events == ApplyEvents(call, ctx, env)
  {
    var trace := new Trace();
    var db := new ThreadSafeDb(ctx.db);
    var code := ToLegacyBytecodes(call.assertions);
    var config := ExecutorConfigFor(ctx);
    var store := new MockStore(config);
    var refused := store.Insert(call.assertionAdopter, code, env.storeInsert(config, call.assertionAdopter, code));
    if refused.Some? {
      return Err(StoreInsertFailed(refused.value)), trace.events;
    }
    var decoded := env.decodeDescriptor(call.tx);
    if decoded.Err? {
      return Err(DescriptorDecodeFailed(decoded.error)), trace.events;
    }
    var tx := BuildTxEnv(decoded.value, ctx);
    var rt := new Runtime(trace);
    var outcome := rt.BlockOn(env, store, db, ctx.state, ctx.block, tx);
    events := trace.events;
    assert store.assertions == RegisteredAssertions(call);
    var verdict := Classify(outcome, env.decodeRevert);
    match verdict {
      case Ok(reply) => r := Ok(env.encodeReply(reply));
      case Err(f) => r := Err(f);
    }
  }

  // ---------------------------------------------------------------------------------
  // Properties of the whole call
  // ---------------------------------------------------------------------------------

  /** The runtime's record of a call that reaches it is an orderly run. */
  lemma RunStepsAreOrderly()
    ensures OrderlyRun([RuntimeCreated] + RunSteps)
  {
    var setup := [RuntimeCreated, TokenCreated, ReaderSpawned, ExecutorBuilt, ForkCommitted];
    var events := [RuntimeCreated] + RunSteps;
    assert events == setup + [Validated, Cancelled, Joined];
    assert Validated !in setup && Cancelled !in setup && Joined !in setup;
    assert multiset(events) == multiset(setup) + multiset{Validated, Cancelled, Joined};
    assert events[4] == ForkCommitted && events[5] == Validated && events[6] == Cancelled && events[7] == Joined;
  }

  /** A call that reaches its runtime validates first, then cancels once, then joins. */
  lemma ApplyRunsInOrder(call: AssertionExCall, ctx: CheatsCtxt, env: Collaborators)
    requires ReachesRuntime(call, ctx, env)
    ensures OrderlyRun(ApplyEvents(call, ctx, env))
  {
    RunStepsAreOrderly();
  }

  /** A descriptor that does not decode fails the call before the runtime exists: no
      fork is committed and nothing is validated. */
  lemma UndecodableDescriptorStopsEarly(call: AssertionExCall, ctx: CheatsCtxt, env: Collaborators)
    requires env.storeInsert(ExecutorConfigFor(ctx), call.assertionAdopter, ToLegacyBytecodes(call.assertions)).None?
    requires env.decodeDescriptor(call.tx).Err?
    ensures Apply(call, ctx, env) == Err(DescriptorDecodeFailed(env.decodeDescriptor(call.tx).error))
    ensures ApplyEvents(call, ctx, env) == []
  {
  }

  /** The call succeeds exactly when the transaction executed successfully and every
      assertion passed, and then it replies `(true, gas, count)` as reported. */
  lemma ApplySucceedsOnlyWhenPassed(call: AssertionExCall, ctx: CheatsCtxt, env: Collaborators)
    ensures Apply(call, ctx, env).Ok? <==>
              ReachesRuntime(call, ctx, env) && Passed(Validation(call, ctx, env, env.decodeDescriptor(call.tx).value))
    ensures Apply(call, ctx, env).Ok? ==>
              var v := Validation(call, ctx, env, env.decodeDescriptor(call.tx).value).value;
              Apply(call, ctx, env).value == env.encodeReply(Reply(true, v.totalAssertionGas, v.totalAssertionsRan))
  {
  }

  /** How the store's background reader ended has no bearing on the result. */
  lemma ReaderOutcomeIsIgnored(call: AssertionExCall, ctx: CheatsCtxt, env: Collaborators, outcome: Result<(), JoinError>)
    ensures Apply(call, ctx, env.(readerOutcome := outcome)) == Apply(call, ctx, env)
  {
  }
}
