/**
 * The interface of the assertion engine as the cheatcode uses it: its configuration,
 * its result, the in-memory assertion store, the fork database and the cancellation
 * token of the store's background reader. What the engine does inside
 * `validate_transaction` is not modelled; it is a parameter of the cheatcode model.
 */
module AssertionExecutor {
  import opened Wrappers
  import opened Primitives
  import opened Revm

  datatype ExecutorConfig = ExecutorConfig(specId: SpecId, chainId: U64, assertionGasLimit: U64)

  /** What validation reports: the triggering transaction's outcome and post-state when
      every assertion passed (absent when an assertion rejected it), and telemetry. */
  datatype ValidationResult = ValidationResult(
    resultAndState: Option<ResultAndState>,
    totalAssertionsRan: nat,
    totalAssertionGas: nat)

  datatype EngineError = EngineError(detail: string)

  datatype StoreError = StoreError(detail: string)

  datatype JoinError = JoinError(detail: string)

  /** A writable overlay over a ledger; changes committed here never reach the ledger. */
  datatype ForkDb = ForkDb(backing: Ledger, overlay: JournalState)

  function NewFork(backing: Ledger): (f: ForkDb)
    ensures f.backing == backing && f.overlay == map[]
  {
    ForkDb(backing, map[])
  }

  /** Committing state changes: committed accounts replace the overlay's, others stay. */
  function Commit(f: ForkDb, changes: JournalState): (g: ForkDb)
    ensures g.backing == f.backing
    ensures g.overlay.Keys == f.overlay.Keys + changes.Keys
    ensures forall a :: a in changes ==> g.overlay[a] == changes[a]
    ensures forall a :: a in f.overlay && a !in changes ==> g.overlay[a] == f.overlay[a]
  {
    ForkDb(f.backing, f.overlay + changes)
  }

  /** What happens during one call of the cheatcode, in order. */
  datatype Event =
    | RuntimeCreated
    | TokenCreated
    | ReaderSpawned
    | ExecutorBuilt
    | ForkCommitted
    | Validated
    | Cancelled
    | Joined

  /** The record of one call. Each operation appends its own event, so the record is what
      was called and in which order. */
  class Trace {
    var events: seq<Event>

    constructor ()
      ensures events == []
    {
      events := [];
    }

    method Record(e: Event)
      modifies this
      ensures events == old(events) + [e]
    {
      events := events + [e];
    }
  }

  /** A single-fire cancellation signal. */
  class CancellationToken {
    const trace: Trace
    var cancelled: bool

    constructor (trace: Trace)
      modifies trace
      ensures this.trace == trace && !cancelled
      ensures trace.events == old(trace.events) + [TokenCreated]
    {
      this.trace := trace;
      cancelled := false;
      new;
      trace.Record(TokenCreated);
    }

    method Cancel()
      modifies this, trace
      ensures cancelled
      ensures trace.events == old(trace.events) + [Cancelled]
    {
      cancelled := true;
      trace.Record(Cancelled);
    }
  }

  /** The join handle of the store's background reader. The reader runs until its token
      is cancelled, so joining it is only meaningful once the token has fired. */
  class ReaderHandle {
    const token: CancellationToken

    constructor (token: CancellationToken)
      ensures this.token == token
    {
      this.token := token;
    }

    /** Waits for the reader to finish; `outcome` is how the reader task ended. */
    method Join(outcome: Result<(), JoinError>) returns (r: Result<(), JoinError>)
      requires token.cancelled
      modifies token.trace
      ensures r == outcome
      ensures token.trace.events == old(token.trace.events) + [Joined]
    {
      r := outcome;
      token.trace.Record(Joined);
    }
  }

  /** The call-scoped assertion store: assertion bytecode keyed by adopter address. */
  class MockStore {
    const config: ExecutorConfig
    var assertions: map<Address, seq<Bytecode>>

    constructor (config: ExecutorConfig)
      ensures this.config == config && assertions == map[]
    {
      this.config := config;
      assertions := map[];
    }

    /** Registers `code` under `adopter`. Whether the engine accepts the registration is
        its own decision, passed in as `refusal` (`None` when it accepts). */
    method Insert(adopter: Address, code: seq<Bytecode>, refusal: Option<StoreError>)
      returns (err: Option<StoreError>)
      modifies this
      ensures err == refusal
      ensures assertions == if refusal.None? then old(assertions)[adopter := code] else old(assertions)
    {
      err := refusal;
      if refusal.None? {
        assertions := assertions[adopter := code];
      }
    }

    /** Starts the background reader serving this store; it stops when `token` fires.
        Returns the reader the executor reads assertions through and the reader's handle. */
    method CancellableReader(token: CancellationToken) returns (reader: AssertionReader, handle: ReaderHandle)
      modifies token.trace
      ensures fresh(reader) && reader.store == this && reader.token == token
      ensures fresh(handle) && handle.token == token
      ensures token.trace.events == old(token.trace.events) + [ReaderSpawned]
    {
      reader := new AssertionReader(this, token);
      handle := new ReaderHandle(token);
      token.trace.Record(ReaderSpawned);
    }
  }

  /** The store's background reader. It serves the store's assertions only as long as
      its token has not fired. */
  class AssertionReader {
    const store: MockStore
    const token: CancellationToken

    constructor (store: MockStore, token: CancellationToken)
      ensures this.store == store && this.token == token
    {
      this.store := store;
      this.token := token;
    }

    /** The assertions the store holds, read while the reader is still live. */
    method Serve() returns (a: map<Address, seq<Bytecode>>)
      requires !token.cancelled
      ensures a == store.assertions
    {
      a := store.assertions;
    }
  }

  /** The engine built from a configuration, a ledger and the store's reader. */
  class Executor {
    const config: ExecutorConfig
    const db: Ledger
    const reader: AssertionReader

    constructor (config: ExecutorConfig, db: Ledger, reader: AssertionReader)
      modifies reader.token.trace
      ensures this.config == config && this.db == db && this.reader == reader
      ensures reader.token.trace.events == old(reader.token.trace.events) + [ExecutorBuilt]
    {
      this.config := config;
      this.db := db;
      this.reader := reader;
      new;
      reader.token.trace.Record(ExecutorBuilt);
    }

    /** Validates `tx` on `fork` against the assertions served by the reader. The engine's
        judgement itself is the parameter `validate`. Because the assertions come through the
        reader, validation must happen before the reader's token fires. */
    method ValidateTransaction(
      validate: (ExecutorConfig, map<Address, seq<Bytecode>>, BlockEnv, TxEnv, ForkDb) -> Result<ValidationResult, EngineError>,
      block: BlockEnv, tx: TxEnv, fork: ForkDb)
      returns (r: Result<ValidationResult, EngineError>)
      requires !reader.token.cancelled
      modifies reader.token.trace
      ensures r == validate(config, reader.store.assertions, block, tx, fork)
      ensures reader.token.trace.events == old(reader.token.trace.events) + [Validated]
    {
      var assertions := reader.Serve();
      r := validate(config, assertions, block, tx, fork);
      reader.token.trace.Record(Validated);
    }
  }
}
