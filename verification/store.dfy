/**
  The `Store` of package `db` (db/sqlc/store.go): a database handle together
  with a default `Queries` bound to it, and `execTx`, which runs a caller's
  unit of work inside one transaction.

  `ExecTx` is a pure function of the answers the driver and the unit of work
  give. It returns the calls it issued, each with the answer it received, and
  the error it hands back to its caller.
 */
module Store {
  import opened Driver

  /** What a `Queries` sends its statements through: the bare handle, or an
      open transaction (the `DBTX` interface of the generated code). */
  datatype Executor = OnDb(db: DbId) | OnTx(tx: TxId)

  /** A bundle of data-access operations closed over one executor. Its
      operations themselves are generated code and are not part of this
      model. */
  datatype Queries = Queries(executor: Executor)

  /** `New(executor)`: a provider bound to `executor`. */
  function New(executor: Executor): Queries
  {
    Queries(executor)
  }

  /** The provider `execTx` hands to the unit of work once `tx` is open. */
  function TxQueries(tx: TxId): Queries
  {
    New(OnTx(tx))
  }

  /** The answer the unit of work gives when run inside `begin`'s
      transaction. */
  function Work(begin: BeginOutcome, fn: Queries -> Outcome): Outcome
    requires begin.Began?
  {
    fn(TxQueries(begin.tx))
  }

  /** The embedded `*Queries` and the `db` field of the Go struct. */
  datatype Store = Store(queries: Queries, db: DbId)

  /** A store is well formed when its default provider runs on its own
      handle, outside any transaction. */
  predicate WellFormed(store: Store)
  {
    store.queries.executor == OnDb(store.db)
  }

  /** `NewStore(db)`. */
  function NewStore(db: DbId): (store: Store)
    ensures store.db == db
    ensures WellFormed(store)
    ensures !store.queries.executor.OnTx?
  {
    Store(New(OnDb(db)), db)
  }

  /** One call `execTx` issues, together with the answer it got back. */
  datatype Call =
    | BeginTx(db: DbId, begun: BeginOutcome)
    | InvokeFn(queries: Queries, answer: Outcome)
    | Rollback(tx: TxId, answer: Outcome)
    | Commit(tx: TxId, answer: Outcome)

  /** What one run of `execTx` did: the calls in the order issued, and the
      error it returned. */
  datatype Execution = Execution(trace: seq<Call>, result: Outcome)

  /** `store.execTx(ctx, fn)`, given the driver's answers: `begin` for
      `BeginTx`, `rollback` for `tx.Rollback()` and `commit` for
      `tx.Commit()`. Each answer is consulted only if the call is issued. */
  function ExecTx(store: Store, begin: BeginOutcome, fn: Queries -> Outcome,
                  rollback: Outcome, commit: Outcome): (e: Execution)
    // the first call is always BeginTx on the store's own handle
    ensures |e.trace| >= 1 && e.trace[0] == BeginTx(store.db, begin)
    // a failed begin is returned unchanged and nothing else is issued
    ensures begin.BeginFailed? ==> e.result == Fail(begin.err) && |e.trace| == 1
    ensures begin.Began? ==>
      var work := Work(begin, fn);
      // fn is run once, second, on a provider bound to the new transaction
      && |e.trace| == 3
      && e.trace[1] == InvokeFn(TxQueries(begin.tx), work)
      // a failed unit of work is rolled back, never committed
      && (work.Fail? ==> e.trace[2] == Rollback(begin.tx, rollback))
      && (work.Fail? && rollback.Ok? ==> e.result == work)
      // the "transaction error" first, the "rollback error" second
      && (work.Fail? && rollback.Fail? ==>
            && e.result == Fail(Composed(work.err, rollback.err))
            && Carries(e.result.err, work.err)
            && Carries(e.result.err, rollback.err)
            && e.result.err != work.err)
      // a successful unit of work is committed and the commit's answer returned
      && (work.Ok? ==> e.trace[2] == Commit(begin.tx, commit) && e.result == commit)
    // success if and only if begin, fn and commit all succeeded
    ensures e.result.Ok? <==>
      begin.Began? && Work(begin, fn).Ok? && commit.Ok?
  {
    match begin
    case BeginFailed(err) =>
      Execution([BeginTx(store.db, begin)], Fail(err))
    case Began(tx) =>
      var q := TxQueries(tx);
      var work := fn(q);
      match work
      case Fail(err) =>
        var trace := [BeginTx(store.db, begin), InvokeFn(q, work), Rollback(tx, rollback)];
        (match rollback
         case Fail(rbErr) =>
           ComposedCarriesBoth(err, rbErr);
           Execution(trace, Fail(Composed(err, rbErr)))
         case Ok() =>
           Execution(trace, work))
      case Ok() =>
        Execution([BeginTx(store.db, begin), InvokeFn(q, work), Commit(tx, commit)], commit)
  }
}
