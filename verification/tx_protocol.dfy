/**
  The transaction lifecycle as a state machine over call traces, written
  independently of `Store.ExecTx`:

    Pending --BeginTx fails--> NeverBegun
    Pending --BeginTx ok-----> Begun --fn--> Executed --Rollback (fn failed)--> RolledBack
                                                      --Commit (fn succeeded)--> Committed

  `NeverBegun`, `Committed` and `RolledBack` are final: no further call is
  accepted. The lemmas here hold of every trace the machine accepts.
 */
module TxProtocol {
  import opened Driver
  import opened Store

  datatype Option<T> = None | Some(value: T)

  datatype TxState =
    | Pending(db: DbId)                  // nothing issued yet against `db`
    | NeverBegun                         // BeginTx failed: no transaction exists
    | Begun(tx: TxId)                    // transaction open, unit of work not yet run
    | Executed(tx: TxId, workOk: bool)   // unit of work has returned
    | Committed(tx: TxId)                // Commit was issued, whatever it answered; the transaction is over
    | RolledBack(tx: TxId)               // Rollback was issued, whatever it answered; the transaction is over

  predicate IsFinal(s: TxState)
  {
    s.NeverBegun? || s.Committed? || s.RolledBack?
  }

  /** A call after which no call may follow on the same transaction. */
  predicate Ends(c: Call)
  {
    c.Commit? || c.Rollback? || (c.BeginTx? && c.begun.BeginFailed?)
  }

  /** How many calls of each kind a trace holds. */
  datatype Tally = Tally(begins: int, invokes: int, rollbacks: int, commits: int)
  {
    function Plus(other: Tally): Tally
    {
      Tally(begins + other.begins, invokes + other.invokes,
            rollbacks + other.rollbacks, commits + other.commits)
    }
  }

  /** `after` counts what `before` counts plus what `extra` counts. */
  predicate Adds(after: Tally, before: Tally, extra: Tally)
  {
    && after.begins == before.begins + extra.begins
    && after.invokes == before.invokes + extra.invokes
    && after.rollbacks == before.rollbacks + extra.rollbacks
    && after.commits == before.commits + extra.commits
  }

  function CallTally(c: Call): Tally
  {
    match c
    case BeginTx(_, _) => Tally(1, 0, 0, 0)
    case InvokeFn(_, _) => Tally(0, 1, 0, 0)
    case Rollback(_, _) => Tally(0, 0, 1, 0)
    case Commit(_, _) => Tally(0, 0, 0, 1)
  }

  function Tallied(t: seq<Call>): Tally
  {
    if t == [] then Tally(0, 0, 0, 0) else CallTally(t[0]).Plus(Tallied(t[1..]))
  }

  /** The errors the answers of a call report. */
  function CallFailures(c: Call): set<Error>
  {
    match c
    case BeginTx(_, begun) => if begun.BeginFailed? then {begun.err} else {}
    case InvokeFn(_, answer) => if answer.Fail? then {answer.err} else {}
    case Rollback(_, answer) => if answer.Fail? then {answer.err} else {}
    case Commit(_, answer) => if answer.Fail? then {answer.err} else {}
  }

  /** Every error reported to the store by the driver or the unit of work
      during a trace. */
  function Failures(t: seq<Call>): set<Error>
  {
    if t == [] then {} else CallFailures(t[0]) + Failures(t[1..])
  }

  /** The calls that must have been issued to reach `s` from `Pending`. */
  function History(s: TxState): Tally
  {
    match s
    case Pending(_) => Tally(0, 0, 0, 0)
    case NeverBegun => Tally(1, 0, 0, 0)
    case Begun(_) => Tally(1, 0, 0, 0)
    case Executed(_, _) => Tally(1, 1, 0, 0)
    case Committed(_) => Tally(1, 1, 0, 1)
    case RolledBack(_) => Tally(1, 1, 1, 0)
  }

  /** One transition; `None` when the protocol forbids the call in `s`. */
  function Step(s: TxState, c: Call): Option<TxState>
  {
    match s
    case Pending(db) =>
      if !c.BeginTx? || c.db != db then None
      else if c.begun.BeginFailed? then Some(NeverBegun)
      else Some(Begun(c.begun.tx))
    case Begun(tx) =>
      if c.InvokeFn? && c.queries.executor == OnTx(tx) then Some(Executed(tx, c.answer.Ok?))
      else None
    case Executed(tx, workOk) =>
      if c.Rollback? && c.tx == tx && !workOk then Some(RolledBack(tx))
      else if c.Commit? && c.tx == tx && workOk then Some(Committed(tx))
      else None
    case _ => None
  }

  /** A final state accepts no further call. */
  lemma StepRefusesAfterFinal(s: TxState, c: Call)
    requires IsFinal(s)
    ensures Step(s, c).None?
  {
  }

  /** An accepted call is recorded exactly once in the history. */
  lemma StepRecordsCall(s: TxState, c: Call)
    requires Step(s, c).Some?
    ensures Adds(History(Step(s, c).value), History(s), CallTally(c))
  {
  }

  /** Exactly the ending calls lead to a final state. */
  lemma StepEndsOnlyOnEndingCall(s: TxState, c: Call)
    requires Step(s, c).Some?
    ensures IsFinal(Step(s, c).value) <==> Ends(c)
  {
  }

  /** Commit follows only a successful unit of work and Rollback only a
      failed one, each on the transaction that ran it. */
  lemma StepTerminalFollowsWork(s: TxState, c: Call)
    requires Step(s, c).Some?
    ensures c.Commit? ==> s == Executed(c.tx, true)
    ensures c.Rollback? ==> s == Executed(c.tx, false)
  {
  }

  /** The only way into `Executed(tx, ok)` is running the unit of work on
      `tx`'s provider with an answer whose success is `ok`. */
  lemma StepIntoExecuted(s: TxState, c: Call, tx: TxId, ok: bool)
    requires Step(s, c) == Some(Executed(tx, ok))
    ensures c.InvokeFn? && c.queries.executor == OnTx(tx) && c.answer.Ok? == ok
  {
  }

  /** Runs the machine over a whole trace from `s`. */
  function Replay(s: TxState, t: seq<Call>): Option<TxState>
    decreases |t|
  {
    if t == [] then Some(s)
    else
      var next := Step(s, t[0]);
      if next.None? then None else Replay(next.value, t[1..])
  }

  /** The calls of an accepted trace are exactly those that separate the
      history of its start state from that of its end state. */
  lemma {:induction false} ReplayTally(s: TxState, t: seq<Call>)
    requires Replay(s, t).Some?
    ensures Adds(History(Replay(s, t).value), History(s), Tallied(t))
    decreases |t|
  {
    if t != [] {
      StepRecordsCall(s, t[0]);
      var s' := Step(s, t[0]).value;
      ReplayTally(s', t[1..]);
    }
  }

  /** Starting from `Pending`, an accepted trace begins at most once, runs the
      unit of work at most once and only inside an open transaction, and
      issues at most one of Commit and Rollback, and only after the unit of
      work. */
  // no induction in the body; the attribute keeps automatic induction from slowing the proof
  lemma {:induction false} ProtocolCallsAtMostOnce(db: DbId, t: seq<Call>)
    requires Replay(Pending(db), t).Some?
    ensures Tallied(t).begins <= 1
    ensures Tallied(t).invokes <= Tallied(t).begins
    ensures Tallied(t).commits + Tallied(t).rollbacks <= Tallied(t).invokes
  {
    ReplayTally(Pending(db), t);
  }

  /** The calls recorded by each final state. */
  lemma FinalHistory(f: TxState)
    requires IsFinal(f)
    ensures History(f).begins == 1
    ensures History(f).invokes == (if f.NeverBegun? then 0 else 1)
    ensures History(f).commits == (if f.Committed? then 1 else 0)
    ensures History(f).rollbacks == (if f.RolledBack? then 1 else 0)
  {
  }

  /** What a completed trace from `Pending` issued, read off its final
      state. */
  // no induction in the body; the attribute keeps automatic induction from slowing the proof
  lemma {:induction false} CompletedTraceTally(db: DbId, t: seq<Call>, f: TxState)
    requires Replay(Pending(db), t) == Some(f) && IsFinal(f)
    ensures Tallied(t).begins == 1
    ensures Tallied(t).invokes == (if f.NeverBegun? then 0 else 1)
    ensures Tallied(t).commits == (if f.Committed? then 1 else 0)
    ensures Tallied(t).rollbacks == (if f.RolledBack? then 1 else 0)
  {
    ReplayTally(Pending(db), t);
    FinalHistory(f);
  }

  /** A final state accepts only the empty remainder. */
  // no induction in the body; the attribute keeps automatic induction from slowing the proof
  lemma {:induction false} FinalReplay(s: TxState, t: seq<Call>)
    ensures IsFinal(s) ==> Replay(s, t) == (if t == [] then Some(s) else None)
  {
    if t != [] && IsFinal(s) {
      StepRefusesAfterFinal(s, t[0]);
    }
  }

  /** Nothing follows an ending call: once the transaction is committed or
      rolled back, or failed to begin, the trace is over. */
  lemma {:induction false} EndingCallIsLast(s: TxState, t: seq<Call>, i: nat)
    requires Replay(s, t).Some?
    requires i < |t| && Ends(t[i])
    ensures i == |t| - 1
    decreases |t|
  {
    var s' := Step(s, t[0]).value;
    if i == 0 {
      StepEndsOnlyOnEndingCall(s, t[0]);
      FinalReplay(s', t[1..]);
    } else {
      EndingCallIsLast(s', t[1..], i - 1);
    }
  }

  /** In a trace accepted from `s`, a Commit or Rollback at position `i` acts
      on the transaction that ran the unit of work: either `s` itself is that
      state (`i == 0`), or the call just before is the unit of work, on the
      same transaction, and Commit comes exactly after a success. */
  lemma {:induction false} TerminalFollowsWorkFrom(s: TxState, t: seq<Call>, i: nat)
    requires Replay(s, t).Some?
    requires i < |t| && (t[i].Commit? || t[i].Rollback?)
    ensures i == 0 ==> s == Executed(t[i].tx, t[i].Commit?)
    ensures i > 0 ==>
      && t[i - 1].InvokeFn?
      && t[i - 1].queries.executor == OnTx(t[i].tx)
      && (t[i].Commit? <==> t[i - 1].answer.Ok?)
    decreases |t|
  {
    var s' := Step(s, t[0]).value;
    if i == 0 {
      StepTerminalFollowsWork(s, t[0]);
    } else {
      TerminalFollowsWorkFrom(s', t[1..], i - 1);
      if i == 1 {
        StepIntoExecuted(s, t[0], t[1].tx, t[1].Commit?);
      }
    }
  }

  /** From `Pending`, every Commit or Rollback comes right after the unit of
      work ran on its transaction: Commit after a success, Rollback after a
      failure. */
  lemma ProtocolTerminalFollowsWork(db: DbId, t: seq<Call>, i: nat)
    requires Replay(Pending(db), t).Some?
    requires i < |t| && (t[i].Commit? || t[i].Rollback?)
    ensures 0 < i
    ensures t[i - 1].InvokeFn? && t[i - 1].queries.executor == OnTx(t[i].tx)
    ensures t[i].Commit? <==> t[i - 1].answer.Ok?
  {
    TerminalFollowsWorkFrom(Pending(db), t, i);
  }
}
