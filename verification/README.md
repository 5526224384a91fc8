# Transactional unit of work of `db.Store`

This project models the transaction wrapper of the `db` package of a small
Go bank service (`db/sqlc/store.go`). A `Store` holds a `*sql.DB` handle and
embeds a default `*Queries` bound to that handle. Its `execTx(ctx, fn)` does
the following:

- opens a transaction with `BeginTx`;
- builds a `Queries` bound to the transaction;
- runs the caller's unit of work `fn` on it once;
- commits when `fn` succeeds;
- rolls back when `fn` fails. If the rollback fails too, it returns an
  error that combines both failures.

The database is not modelled. `BeginTx`, `Rollback`, `Commit` and `fn` are
oracles, and each gives back either nil or an error value. `Store.ExecTx`
is a pure function of those answers. It returns the calls issued, each with
the answer received, and the error returned to the caller.

Modules:

- `Driver` (`driver.dfy`): handle identities, `Error` (opaque, or
  `Composed(work, rollback)`), `Outcome` (nil or an error), the answer of
  `BeginTx`, and `Carries`, the "holds information from" relation on errors.
- `Store` (`store.dfy`): `Executor` (bare handle or open transaction),
  `Queries`, `New`, `Store`, `NewStore`, the call trace and `ExecTx`.
- `TxProtocol` (`tx_protocol.dfy`): a reference state machine for the
  transaction lifecycle, written independently of `ExecTx`. Its states are
  `Pending`, `Begun`, `Executed`, and then `Committed` or `RolledBack`; a
  failed begin leads to `NeverBegun`. The module also holds per-kind call
  tallies, the errors a trace records, and lemmas that hold of every trace
  the machine accepts.
- `StoreProperties` (`store_properties.dfy`): lemmas connecting `ExecTx` to
  the reference machine and to the errors its trace records.

`db/sqlc/store.go:38` reads `q := New(t x)`, which does not compile. It is
modelled as `New(tx)`, a provider bound to the open transaction. The comment
above `execTx` says `fn` receives a `Store`. The code hands it a `*Queries`,
and the model follows the code.

## Model

| member | source | states |
|---|---|---|
| Store.NewStore | db/sqlc/store.go:16-20 | The new store keeps the given handle, and its embedded provider runs on that same handle, outside any transaction. |
| Store.ExecTx | db/sqlc/store.go:30-50 | BeginTx is always issued first, on the store's own handle. A failed begin is returned unchanged and nothing else is issued. After a successful begin, `fn` runs once on a provider bound to the new transaction. A failed `fn` is rolled back and never committed. With a successful rollback, the result is exactly `fn`'s error. With a failed rollback, the result is `Composed(fnErr, rbErr)`: `fn`'s error in the "transaction error" place and the rollback error in the "rollback error" place. That result carries both errors and differs from `fn`'s error. A successful `fn` is committed, and the commit's answer is returned as-is. The result is nil if and only if begin, `fn` and commit all succeeded. |
| Driver.ComposedCarriesBoth | db/sqlc/store.go:43-44 | The error built for a dual failure carries both the unit-of-work error and the rollback error, and equals neither of them. |
| TxProtocol.StepRefusesAfterFinal | db/sqlc/store.go:41-49 | Once the transaction is committed or rolled back, or never began, the lifecycle accepts no further call. |
| TxProtocol.ProtocolTerminalFollowsWork | db/sqlc/store.go:40-49 | In any trace the lifecycle accepts, every Commit or Rollback comes right after the unit of work ran on that same transaction. Commit comes only after a success, and Rollback only after a failure. |
| TxProtocol.ProtocolCallsAtMostOnce | db/sqlc/store.go:32-49 | Every accepted trace begins at most once. It runs the unit of work no more often than it began, and issues Commit or Rollback no more often than it ran the unit of work. |
| TxProtocol.CompletedTraceTally | db/sqlc/store.go:32-49 | A completed trace issued exactly one BeginTx. It ran the unit of work once unless begin failed, and issued one Commit exactly when it ended committed and one Rollback exactly when it ended rolled back. |
| TxProtocol.EndingCallIsLast | db/sqlc/store.go:32-49 | In any accepted trace, a Commit, a Rollback or a failed BeginTx is the last call. |
| StoreProperties.ExecTxFollowsProtocol | db/sqlc/store.go:30-50 | The calls `execTx` issues are accepted by the reference lifecycle, which ends in a final state on the transaction that begin returned: never begun when begin failed, Commit issued when `fn` succeeded, Rollback issued when `fn` failed. The final state records which call was issued, whatever that call answered. |
| StoreProperties.ExecTxCallCounts | db/sqlc/store.go:32-49 | `execTx` issues one BeginTx. It runs `fn` once exactly when begin succeeded. It issues one Commit exactly when `fn` succeeded and one Rollback exactly when `fn` failed, so after a successful begin exactly one of the two is issued. |
| StoreProperties.ExecTxTerminalFollowsWork | db/sqlc/store.go:40-49 | Every Commit or Rollback `execTx` issues comes right after `fn` ran on that transaction. Commit comes only after `fn` succeeded, and Rollback only after it failed. |
| StoreProperties.ExecTxNothingAfterEnd | db/sqlc/store.go:41-49 | After a Commit, a Rollback or a failed BeginTx, `execTx` issues no further call. |
| StoreProperties.ExecTxHandsFnTxQueries | db/sqlc/store.go:38-40 | The only provider `fn` ever receives is bound to the transaction begin returned, so on a store built by `NewStore` it is never the store's default provider. |
| StoreProperties.ExecTxObservesFnOnlyInTx | db/sqlc/store.go:38-40 | Two units of work that answer alike on the transaction-bound provider give the same run: `fn` is consulted nowhere else. |
| StoreProperties.ExecTxDualFailureIsDistinct | db/sqlc/store.go:43-46 | When `fn` fails, the error returned after a failed rollback differs from the one returned after a successful rollback. |
| StoreProperties.ExecTxReportsEveryFailure | db/sqlc/store.go:32-49 | No error is swallowed: every error reported by BeginTx, `fn`, Rollback or Commit is carried by the error `execTx` returns. |
| StoreProperties.ExecTxInventsNoError | db/sqlc/store.go:32-49 | No error is invented. The returned error is either one that was reported during the run, or a composition. In a composition, the first component is the error the unit-of-work call reported, and the second is the error the Rollback call reported. |
| StoreProperties.ExecTxOkIffNoFailure | db/sqlc/store.go:32-49 | `execTx` returns nil if and only if no call it issued reported an error. |

## Left out

- Database semantics are not modelled. Atomicity, durability, isolation and
  visibility of writes belong to the backing store. Only the success or
  error answers of its calls are visible to this code.
- `context.Context` is not modelled. Cancellation and deadlines are timing
  behaviour of the driver, and surface here only as error answers.
- The `nil` transaction options are not modelled. The isolation level is the
  database's default, and nothing in the code varies it.
- Concurrent `execTx` calls are not modelled. Each call owns its own
  transaction, and isolation between calls comes from the database.
- The generated data-access methods of `Queries` and `New` are not modelled.
  They are not part of this model: `New(executor)` is only a provider bound
  to that executor, and the statements `fn` runs through it are not traced.
- The error text is not modelled. `fmt.Errorf` with `%v` keeps both errors
  only as text, under the fixed prefixes "transaction error" and "rollback
  error". The model keeps the two errors as values inside
  `Composed(work, rollback)`, and does not model that `errors.Is` cannot
  reach them in the Go value.
- A panic inside `fn` is not modelled. The code has no `recover` or
  deferred rollback, so a panicking `fn` does not reach the rollback branch.
  The model follows the code: only a non-nil error returned by `fn` leads to
  Rollback.
