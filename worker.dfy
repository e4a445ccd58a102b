/** `db_worker_session`, the context manager that gives a background worker a session of its
    own (ichnaea/db.py). Python runs the generator up to its `yield` when the `with` block is
    entered, and resumes it when the block exits; the two halves are `WorkerEnter` and
    `WorkerExit`. The block in between may use the session freely. */
module Worker {
  import opened Wrappers
  import opened Errors
  import opened Sessions

  /** The calls the context manager makes on the session when the block exits, and the
      exception that leaves the `with` statement, if any. */
  datatype ExitEffect = ExitEffect(calls: seq<Call>, raised: Option<Error>)

  /** The exit half, given what the block raised (`blockError`) and what the database raises on
      the rollback, if anything (`rollbackFault`). */
  function WorkerCleanup(blockError: Option<Error>, rollbackFault: Option<Error>): (e: ExitEffect)
    // close() is called exactly once, as the last call, on every exit path.
    ensures e.calls != [] && e.calls[|e.calls| - 1] == Call.Close
    ensures Call.Close !in e.calls[..|e.calls| - 1]
    // rollback() comes first, exactly when the block raised an Exception.
    ensures Call.Rollback in e.calls <==> blockError.Some? && IsException(blockError.value)
    ensures Call.Rollback in e.calls ==> e.calls[0] == Call.Rollback
    ensures Call.Commit !in e.calls
    // The block's exception propagates, replaced only by one the rollback raised.
    ensures blockError.None? ==> e.raised.None?
    ensures blockError.Some? ==> e.raised.Some?
    ensures e.raised != blockError ==> Call.Rollback in e.calls && e.raised == rollbackFault
    ensures blockError.Some? && IsException(blockError.value) && rollbackFault.Some? ==> e.raised == rollbackFault
    // rollback() is called at most once.
    ensures |e.calls| <= 2
  {
    match blockError
    case None => ExitEffect([Call.Close], None)
    case Some(err) =>
      if IsException(err) then
        ExitEffect([Call.Rollback, Call.Close], if rollbackFault.Some? then rollbackFault else blockError)
      else
        ExitEffect([Call.Close], blockError)
  }

  /** Entering the `with` block: a new session from `database`. */
  method WorkerEnter(database: Database) returns (session: Session)
    ensures fresh(session)
    ensures session.database == database && session.history == []
  {
    session := database.NewSession();
  }

  /** Leaving the `with` block, normally (`blockError` is `None`) or by an exception. */
  method WorkerExit(session: Session, blockError: Option<Error>, rollbackFault: Option<Error>)
    returns (raised: Option<Error>)
    modifies session
    ensures var e := WorkerCleanup(blockError, rollbackFault);
            session.history == old(session.history) + e.calls && raised == e.raised
  {
    raised := blockError;
    if blockError.Some? && IsException(blockError.value) {
      // except Exception: rollback(); raise
      var rollbackRaised := session.Rollback(rollbackFault);
      if rollbackRaised.Some? {
        raised := rollbackRaised;
      }
    }
    // finally: close()
    session.Close();
  }

  /** Whatever the block did with the session, the session is closed once the `with`
      statement is left. */
  lemma {:induction false} WorkerLeavesSessionClosed(
    blockCalls: seq<Call>, blockError: Option<Error>, rollbackFault: Option<Error>)
    ensures Run(Open, blockCalls + WorkerCleanup(blockError, rollbackFault).calls) == Closed
  {
    EndsClosed(Open, blockCalls + WorkerCleanup(blockError, rollbackFault).calls);
  }
}
