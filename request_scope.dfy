/** Request-scoped sessions: the lazy master and slave session accessors and the tween that
    cleans them up when the response is ready (ichnaea/db.py). */
module RequestScope {
  import opened Wrappers
  import opened Errors
  import opened Sessions

  /** The application registry: the database of each role. In a single-node deployment, and
      under test, both roles are the same object. */
  class Registry {
    const dbMaster: Database
    const dbSlave: Database

    constructor (dbMaster: Database, dbSlave: Database)
      ensures this.dbMaster == dbMaster && this.dbSlave == dbSlave
    {
      this.dbMaster := dbMaster;
      this.dbSlave := dbSlave;
    }
  }

  /** An inbound request and the sessions cached on it (`_db_master_session`,
      `_db_slave_session`); `null` is an attribute not yet set. */
  class Request {
    const registry: Registry
    var masterSession: Session?
    var slaveSession: Session?

    /** Each cached session belongs to its own role's database, and the two roles never
        share one session object. */
    ghost predicate Valid()
      reads this
    {
      (masterSession != null ==> masterSession.database == registry.dbMaster) &&
      (slaveSession != null ==> slaveSession.database == registry.dbSlave) &&
      (masterSession != null && slaveSession != null ==> masterSession != slaveSession)
    }

    constructor (registry: Registry)
      ensures this.registry == registry
      ensures masterSession == null && slaveSession == null && Valid()
    {
      this.registry := registry;
      masterSession, slaveSession := null, null;
    }
  }

  /** `db_master_session`: the request's master session, made on first use. */
  method DbMasterSession(request: Request) returns (session: Session)
    requires request.Valid()
    modifies request`masterSession
    ensures request.Valid()
    ensures request.masterSession == session && request.slaveSession == old(request.slaveSession)
    ensures old(request.masterSession) != null ==> session == old(request.masterSession)
    ensures old(request.masterSession) == null ==>
              fresh(session) && session.database == request.registry.dbMaster && session.history == []
  {
    var cached := request.masterSession;
    if cached == null {
      var db := request.registry.dbMaster;
      session := db.NewSession();
      request.masterSession := session;
    } else {
      session := cached;
    }
  }

  /** `db_slave_session`: the request's slave session, made on first use. */
  method DbSlaveSession(request: Request) returns (session: Session)
    requires request.Valid()
    modifies request`slaveSession
    ensures request.Valid()
    ensures request.slaveSession == session && request.masterSession == old(request.masterSession)
    ensures old(request.slaveSession) != null ==> session == old(request.slaveSession)
    ensures old(request.slaveSession) == null ==>
              fresh(session) && session.database == request.registry.dbSlave && session.history == []
  {
    var cached := request.slaveSession;
    if cached == null {
      var db := request.registry.dbSlave;
      session := db.NewSession();
      request.slaveSession := session;
    } else {
      session := cached;
    }
  }

  /** The response produced by the view; only its status line is looked at. */
  datatype Response = Response(status: string)

  /** A status starting with '4' or '5': a client or a server error. */
  predicate IsErrorStatus(status: string)
  {
    |status| > 0 && (status[0] == '4' || status[0] == '5')
  }

  /** What the tween does: the calls it makes on the master session and on the slave
      session, and what it returns or raises. */
  datatype Cleanup = Cleanup(master: seq<Call>, slave: seq<Call>, result: Result<Response, Error>)

  /** The tween rolls the master session back, and that rollback raises. */
  predicate MasterRollbackRaises(handler: Result<Response, Error>, hasMaster: bool, masterFault: Option<Error>)
  {
    handler.Ok? && hasMaster && IsErrorStatus(handler.value.status) && masterFault.Some?
  }

  /** The effect of `db_tween` once the handler has run. `handler` is what the view returned
      or raised; `hasMaster` and `hasSlave` say whether the request made each session;
      `separateSlave` is `db_master != db_slave`; `masterFault` and `slaveFault` are what
      the database raises on the rollback of each session, if anything. */
  function TweenEffect(handler: Result<Response, Error>, hasMaster: bool, hasSlave: bool,
                       separateSlave: bool, masterFault: Option<Error>, slaveFault: Option<Error>): (c: Cleanup)
    // A view that raises skips every cleanup step.
    ensures handler.Err? ==> c == Cleanup([], [], handler)
    // The tween never commits.
    ensures Call.Commit !in c.master && Call.Commit !in c.slave
    // The master session is rolled back exactly when the response is an error ...
    ensures c.master != [] <==> handler.Ok? && hasMaster
    ensures handler.Ok? && hasMaster ==> (Call.Rollback in c.master <==> IsErrorStatus(handler.value.status))
    // ... and closed last unless that rollback raised.
    ensures c.master != [] ==>
              (c.master[|c.master| - 1] == Call.Close <==> !MasterRollbackRaises(handler, hasMaster, masterFault))
    ensures Call.Close in c.master ==> c.master[|c.master| - 1] == Call.Close && Call.Close !in c.master[..|c.master| - 1]
    // The slave session is rolled back then closed, only when it has its own database.
    ensures c.slave != [] <==>
              handler.Ok? && hasSlave && separateSlave && !MasterRollbackRaises(handler, hasMaster, masterFault)
    ensures c.slave != [] ==> c.slave == [Call.Rollback, Call.Close]
    // The view's own response is returned unless a rollback raised.
    ensures c.result.Ok? ==> c.result == handler
    ensures handler.Ok? && c.result.Err? ==>
              (MasterRollbackRaises(handler, hasMaster, masterFault) && c.result == Err(masterFault.value)) ||
              (c.slave != [] && slaveFault.Some? && c.result == Err(slaveFault.value))
    ensures handler.Ok? && masterFault.None? && slaveFault.None? ==> c.result == handler
    // A rollback that raises propagates its own error, and each session is rolled back at most once.
    ensures MasterRollbackRaises(handler, hasMaster, masterFault) ==> c.result == Err(masterFault.value)
    ensures c.slave != [] && slaveFault.Some? ==> c.result == Err(slaveFault.value)
    ensures |c.master| <= 2
    ensures MasterRollbackRaises(handler, hasMaster, masterFault) ==> c.master == [Call.Rollback]
  {
    match handler
    case Err(_) => Cleanup([], [], handler)
    case Ok(response) =>
      var rollsBack := hasMaster && IsErrorStatus(response.status);
      if rollsBack && masterFault.Some? then
        Cleanup([Call.Rollback], [], Err(masterFault.value))
      else
        var master := if !hasMaster then [] else if rollsBack then [Call.Rollback, Call.Close] else [Call.Close];
        if separateSlave && hasSlave then
          Cleanup(master, [Call.Rollback, Call.Close], if slaveFault.Some? then Err(slaveFault.value) else handler)
        else
          Cleanup(master, [], handler)
  }

  /** `db_tween`, run after the view: `handler` is what the view returned or raised. */
  method DbTween(request: Request, handler: Result<Response, Error>,
                 masterFault: Option<Error>, slaveFault: Option<Error>) returns (result: Result<Response, Error>)
    requires request.Valid()
    modifies request.masterSession, request.slaveSession
    ensures request.Valid()
    ensures var c := TweenEffect(handler, request.masterSession != null, request.slaveSession != null,
                                 request.registry.dbMaster != request.registry.dbSlave, masterFault, slaveFault);
            result == c.result &&
            (request.masterSession != null ==>
               request.masterSession.history == old(request.masterSession.history) + c.master) &&
            (request.slaveSession != null ==>
               request.slaveSession.history == old(request.slaveSession.history) + c.slave)
  {
    if handler.Err? {
      return handler;
    }
    var response := handler.value;
    var masterSession := request.masterSession;
    if masterSession != null {
      if IsErrorStatus(response.status) {
        var raised := masterSession.Rollback(masterFault);
        if raised.Some? {
          return Err(raised.value);
        }
      }
      masterSession.Close();
    }
    var slaveSession := request.slaveSession;
    result := handler;
    if request.registry.dbMaster != request.registry.dbSlave {
      if slaveSession != null {
        // try: rollback() finally: close()
        var raised := slaveSession.Rollback(slaveFault);
        slaveSession.Close();
        if raised.Some? {
          result := Err(raised.value);
        }
      }
    }
  }

  /** After a tween that returned normally, a master session the request made is closed, and
      so is a slave session that has its own database, whatever the calls made on them before. */
  lemma {:induction false} TweenLeavesSessionsClosed(
    handler: Result<Response, Error>, hasMaster: bool, hasSlave: bool, separateSlave: bool,
    masterFault: Option<Error>, slaveFault: Option<Error>, masterBefore: seq<Call>, slaveBefore: seq<Call>)
    requires TweenEffect(handler, hasMaster, hasSlave, separateSlave, masterFault, slaveFault).result.Ok?
    ensures var c := TweenEffect(handler, hasMaster, hasSlave, separateSlave, masterFault, slaveFault);
            (hasMaster ==> Run(Open, masterBefore + c.master) == Closed) &&
            (hasSlave && separateSlave ==> Run(Open, slaveBefore + c.slave) == Closed)
  {
    var c := TweenEffect(handler, hasMaster, hasSlave, separateSlave, masterFault, slaveFault);
    if hasMaster {
      EndsClosed(Open, masterBefore + c.master);
    }
    if hasSlave && separateSlave {
      EndsClosed(Open, slaveBefore + c.slave);
    }
  }

  /** On an error response the first call the tween makes on the master session is a
      rollback, so nothing the view left uncommitted survives; when that rollback succeeds the
      session is closed after it. */
  lemma {:induction false} ErrorResponseRollsBackMaster(
    response: Response, hasSlave: bool, separateSlave: bool,
    masterFault: Option<Error>, slaveFault: Option<Error>, masterBefore: seq<Call>)
    requires IsErrorStatus(response.status)
    ensures var h := masterBefore + TweenEffect(Ok(response), true, hasSlave, separateSlave, masterFault, slaveFault).master;
            |h| > |masterBefore| &&
            Run(Open, h[..|masterBefore| + 1]) == (if Run(Open, masterBefore) == Closed then Closed else RolledBack) &&
            (masterFault.None? ==> Run(Open, h) == Closed)
  {
    var m := TweenEffect(Ok(response), true, hasSlave, separateSlave, masterFault, slaveFault).master;
    var h := masterBefore + m;
    assert h[..|masterBefore| + 1] == masterBefore + [Call.Rollback];
    RunAppend(Open, masterBefore, Call.Rollback);
    if masterFault.None? {
      EndsClosed(Open, h);
    }
  }
}
