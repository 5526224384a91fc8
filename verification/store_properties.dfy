/**
  What `Store.ExecTx` promises, stated against the reference protocol of
  `TxProtocol` and against the errors its trace records.
 */
module StoreProperties {
  import opened Driver
  import opened Store
  import opened TxProtocol

  /** Replaying a one-call trace is one step of the machine. */
  lemma ReplayOfOne(s: TxState, a: Call)
    ensures Replay(s, [a]) == (if Step(s, a).None? then None else Some(Step(s, a).value))
  {
    assert [a][1..] == [];
  }

  /** Replaying a three-call trace whose first two calls are accepted is
      replaying its last call from the state they reach. */
  lemma ReplayOfThree(s: TxState, a: Call, b: Call, c: Call)
    ensures Step(s, a).Some? && Step(Step(s, a).value, b).Some? ==>
      Replay(s, [a, b, c]) == Replay(Step(Step(s, a).value, b).value, [c])
  {
    assert [a, b, c][1..] == [b, c];
    assert [b, c][1..] == [c];
  }

  /** `execTx` issues exactly the calls the protocol allows, in order, and
      leaves the transaction in a final state: never begun when BeginTx
      failed, Commit issued when the unit of work succeeded, Rollback issued
      when it failed, whatever those calls answered. */
  lemma ExecTxFollowsProtocol(store: Store, begin: BeginOutcome, fn: Queries -> Outcome,
                              rollback: Outcome, commit: Outcome)
    ensures var e := ExecTx(store, begin, fn, rollback, commit);
      var f := Replay(Pending(store.db), e.trace);
      && f.Some?
      && IsFinal(f.value)
      && (f.value == NeverBegun <==> begin.BeginFailed?)
      && (f.value.Committed? <==> begin.Began? && Work(begin, fn).Ok?)
      && (f.value.RolledBack? <==> begin.Began? && Work(begin, fn).Fail?)
      && (begin.Began? ==> f.value.tx == begin.tx)
  {
    var e := ExecTx(store, begin, fn, rollback, commit);
    if begin.Began? {
      ReplayOfThree(Pending(store.db), e.trace[0], e.trace[1], e.trace[2]);
      ReplayOfOne(Step(Step(Pending(store.db), e.trace[0]).value, e.trace[1]).value, e.trace[2]);
      assert e.trace == [e.trace[0], e.trace[1], e.trace[2]];
    } else {
      ReplayOfOne(Pending(store.db), e.trace[0]);
      assert e.trace == [e.trace[0]];
    }
  }

  /** Each call is issued at most once: one BeginTx; the unit of work once
      if and only if the transaction opened; then Commit exactly when it
      succeeded and Rollback exactly when it failed. */
  lemma ExecTxCallCounts(store: Store, begin: BeginOutcome, fn: Queries -> Outcome,
                         rollback: Outcome, commit: Outcome)
    ensures var n := Tallied(ExecTx(store, begin, fn, rollback, commit).trace);
      && n.begins == 1
      && n.invokes == (if begin.Began? then 1 else 0)
      && n.commits == (if begin.Began? && Work(begin, fn).Ok? then 1 else 0)
      && n.rollbacks == (if begin.Began? && Work(begin, fn).Fail? then 1 else 0)
  {
    var e := ExecTx(store, begin, fn, rollback, commit);
    ExecTxFollowsProtocol(store, begin, fn, rollback, commit);
    CompletedTraceTally(store.db, e.trace, Replay(Pending(store.db), e.trace).value);
  }

  /** Once a transaction is committed or rolled back, or failed to begin,
      `execTx` issues no further call. */
  lemma ExecTxNothingAfterEnd(store: Store, begin: BeginOutcome, fn: Queries -> Outcome,
                              rollback: Outcome, commit: Outcome)
    ensures var t := ExecTx(store, begin, fn, rollback, commit).trace;
      forall i :: 0 <= i < |t| && Ends(t[i]) ==> i == |t| - 1
  {
    var t := ExecTx(store, begin, fn, rollback, commit).trace;
    ExecTxFollowsProtocol(store, begin, fn, rollback, commit);
    forall i | 0 <= i < |t| && Ends(t[i])
      ensures i == |t| - 1
    {
      EndingCallIsLast(Pending(store.db), t, i);
    }
  }

  /** Every Commit or Rollback `execTx` issues comes right after the unit of
      work ran on that transaction: Commit after a success, Rollback after a
      failure. */
  lemma ExecTxTerminalFollowsWork(store: Store, begin: BeginOutcome, fn: Queries -> Outcome,
                                  rollback: Outcome, commit: Outcome)
    ensures var t := ExecTx(store, begin, fn, rollback, commit).trace;
      forall i :: 0 <= i < |t| && (t[i].Commit? || t[i].Rollback?) ==>
        && 0 < i
        && t[i - 1].InvokeFn? && t[i - 1].queries.executor == OnTx(t[i].tx)
        && (t[i].Commit? <==> t[i - 1].answer.Ok?)
  {
    var t := ExecTx(store, begin, fn, rollback, commit).trace;
    ExecTxFollowsProtocol(store, begin, fn, rollback, commit);
    forall i | 0 <= i < |t| && (t[i].Commit? || t[i].Rollback?)
      ensures 0 < i
      ensures t[i - 1].InvokeFn? && t[i - 1].queries.executor == OnTx(t[i].tx)
      ensures t[i].Commit? <==> t[i - 1].answer.Ok?
    {
      ProtocolTerminalFollowsWork(store.db, t, i);
    }
  }

  /** The unit of work only ever receives the provider bound to the
      transaction `execTx` opened, never one on the bare handle, and so
      never the store's own default provider. */
  lemma ExecTxHandsFnTxQueries(store: Store, begin: BeginOutcome, fn: Queries -> Outcome,
                               rollback: Outcome, commit: Outcome)
    ensures var t := ExecTx(store, begin, fn, rollback, commit).trace;
      forall i :: 0 <= i < |t| && t[i].InvokeFn? ==>
        && begin.Began?
        && t[i].queries.executor == OnTx(begin.tx)
        && (WellFormed(store) ==> t[i].queries != store.queries)
  {
  }

  /** `execTx` observes the unit of work only on the transaction-bound
      provider: two units of work that agree there give the same run. */
  lemma ExecTxObservesFnOnlyInTx(store: Store, begin: BeginOutcome,
                                 fn1: Queries -> Outcome, fn2: Queries -> Outcome,
                                 rollback: Outcome, commit: Outcome)
    requires begin.Began? ==> Work(begin, fn1) == Work(begin, fn2)
    ensures ExecTx(store, begin, fn1, rollback, commit) == ExecTx(store, begin, fn2, rollback, commit)
  {
  }

  /** A dual failure is reported differently from a unit-of-work failure
      whose rollback succeeded. */
  lemma ExecTxDualFailureIsDistinct(store: Store, begin: BeginOutcome, fn: Queries -> Outcome,
                                    rbErr: Error, commit: Outcome)
    requires begin.Began? && Work(begin, fn).Fail?
    ensures ExecTx(store, begin, fn, Fail(rbErr), commit).result
         != ExecTx(store, begin, fn, Ok, commit).result
  {
  }

  /** The errors recorded by a trace of at most three calls. */
  lemma FailuresOfShortTrace(t: seq<Call>)
    requires 1 <= |t| <= 3
    ensures |t| == 1 ==> Failures(t) == CallFailures(t[0])
    ensures |t| == 3 ==> Failures(t) == CallFailures(t[0]) + CallFailures(t[1]) + CallFailures(t[2])
  {
    if |t| == 3 {
      assert t[1..][1..] == [t[2]];
      assert t[1..][1..][1..] == [];
    } else if |t| == 1 {
      assert t[1..] == [];
    }
  }

  /** No error is swallowed: every failure the driver or the unit of work
      reported is carried by the error `execTx` returns. */
  lemma ExecTxReportsEveryFailure(store: Store, begin: BeginOutcome, fn: Queries -> Outcome,
                                  rollback: Outcome, commit: Outcome)
    ensures var e := ExecTx(store, begin, fn, rollback, commit);
      forall err :: err in Failures(e.trace) ==> e.result.Fail? && Carries(e.result.err, err)
  {
    var e := ExecTx(store, begin, fn, rollback, commit);
    FailuresOfShortTrace(e.trace);
  }

  /** No error is invented: the returned error is one that was reported, or
      the composition of the error the unit of work reported with the error
      the rollback that followed it reported. */
  lemma ExecTxInventsNoError(store: Store, begin: BeginOutcome, fn: Queries -> Outcome,
                             rollback: Outcome, commit: Outcome)
    ensures var e := ExecTx(store, begin, fn, rollback, commit);
      e.result.Fail? ==>
        || e.result.err in Failures(e.trace)
        || (&& e.result.err.Composed?
            && |e.trace| == 3
            && e.trace[1].InvokeFn? && e.result.err.work in CallFailures(e.trace[1])
            && e.trace[2].Rollback? && e.result.err.rollback in CallFailures(e.trace[2]))
  {
    var e := ExecTx(store, begin, fn, rollback, commit);
    FailuresOfShortTrace(e.trace);
  }

  /** `execTx` succeeds exactly when no call it issued failed. */
  lemma ExecTxOkIffNoFailure(store: Store, begin: BeginOutcome, fn: Queries -> Outcome,
                             rollback: Outcome, commit: Outcome)
    ensures var e := ExecTx(store, begin, fn, rollback, commit);
      e.result.Ok? <==> Failures(e.trace) == {}
  {
    var e := ExecTx(store, begin, fn, rollback, commit);
    ExecTxReportsEveryFailure(store, begin, fn, rollback, commit);
    ExecTxInventsNoError(store, begin, fn, rollback, commit);
  }
}
