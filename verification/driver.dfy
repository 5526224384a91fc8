/**
  The vocabulary the store shares with the `database/sql` driver: handle
  identities, error values and the answers a driver call can give.

  The database itself is not modelled. Every driver call (`BeginTx`,
  `Rollback`, `Commit`) and the caller's unit of work are oracles whose only
  observable result is success or an error value.
 */
module Driver {

  /** Identity of a `*sql.DB` handle. */
  type DbId = int

  /** Identity of an open `*sql.Tx`. */
  type TxId = int

  /** A non-nil Go `error`. Errors produced by the driver or by the caller's
      unit of work are opaque; the store itself only ever builds `Composed`,
      which holds a unit-of-work failure together with the rollback failure
      that followed it. */
  datatype Error =
    | Opaque(message: string)
    | Composed(work: Error, rollback: Error)

  /** A Go `error` result: nil (`Ok`) or a failure. */
  datatype Outcome = Ok | Fail(err: Error)

  /** The answer of `db.BeginTx`: a fresh transaction, or the error. */
  datatype BeginOutcome = Began(tx: TxId) | BeginFailed(err: Error)

  /** True if `whole` holds information derived from `part`: it is `part`,
      or a composition one of whose components carries `part`. */
  predicate Carries(whole: Error, part: Error)
    decreases whole
  {
    whole == part
    || (whole.Composed? && (Carries(whole.work, part) || Carries(whole.rollback, part)))
  }

  /** A composed error carries each of its components and is distinct from
      both of them, so a dual failure can always be told apart from either
      single failure. */
  lemma ComposedCarriesBoth(work: Error, rollback: Error)
    ensures Carries(Composed(work, rollback), work)
    ensures Carries(Composed(work, rollback), rollback)
    ensures Composed(work, rollback) != work
    ensures Composed(work, rollback) != rollback
  {
  }
}
