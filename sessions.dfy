/** Sessions and the `Database` that makes them (ichnaea/db.py). A session is the ORM's unit of
    work; the model keeps the calls made on it, in order, and its state is computed from them. */
module Sessions {
  import opened Wrappers
  import opened Errors

  /** A call made on a session by the code around it. */
  datatype Call = Commit | Rollback | Close

  /** Where a session's transaction stands. */
  datatype SessionState = Open | Committed | RolledBack | Closed

  /** One transition: `close()` always ends the session, and a closed session stays closed. */
  function Step(s: SessionState, c: Call): SessionState
  {
    match c
    case Close => Closed
    case Rollback => if s == Closed then Closed else RolledBack
    case Commit => if s == Closed then Closed else Committed
  }

  /** The state reached from `s` by making the calls `h`, first to last. */
  function Run(s: SessionState, h: seq<Call>): SessionState
    decreases |h|
  {
    if h == [] then s else Run(Step(s, h[0]), h[1..])
  }

  /** Making one more call moves the state reached so far by one step. */
  lemma {:induction false} RunAppend(s: SessionState, h: seq<Call>, c: Call)
    ensures Run(s, h + [c]) == Step(Run(s, h), c)
    decreases |h|
  {
    if h == [] {
      assert h + [c] == [c];
    } else {
      assert (h + [c])[1..] == h[1..] + [c];
      RunAppend(Step(s, h[0]), h[1..], c);
    }
  }

  /** Whatever came before, a history that ends with `close()` leaves the session closed. */
  lemma {:induction false} EndsClosed(s: SessionState, h: seq<Call>)
    requires h != [] && h[|h| - 1] == Close
    ensures Run(s, h) == Closed
  {
    assert h == h[..|h| - 1] + [Close];
    RunAppend(s, h[..|h| - 1], Close);
  }

  /** The engine options `Database` passes to `create_engine`. */
  datatype EngineOptions = EngineOptions(
    poolRecycle: nat,         // seconds after which a pooled connection is replaced
    poolSize: nat,            // connections kept in the pool
    poolTimeout: nat,         // seconds a checkout waits for a free connection
    echo: bool,               // log every statement
    isolationLevel: string,
    charset: string,          // connect argument
    autocommit: bool)         // execution option

  /** The options `Database` passes to `sessionmaker`. */
  datatype SessionOptions = SessionOptions(autocommit: bool, autoflush: bool)

  /** A configured database: an engine with a checkout listener and a session factory. */
  class Database {
    const uri: string
    const engineOptions: EngineOptions
    const sessionOptions: SessionOptions

    constructor (uri: string, echo: bool := false, isolationLevel: string := "REPEATABLE READ")
      ensures this.uri == uri
      ensures engineOptions == EngineOptions(3600, 10, 10, echo, isolationLevel, "utf8", false)
      ensures sessionOptions == SessionOptions(false, false)
    {
      this.uri := uri;
      engineOptions := EngineOptions(3600, 10, 10, echo, isolationLevel, "utf8", false);
      sessionOptions := SessionOptions(false, false);
    }

    /** `session()`: a new session from the factory on every call. */
    method NewSession() returns (s: Session)
      ensures fresh(s)
      ensures s.database == this && s.history == [] && s.State() == Open
    {
      s := new Session(this);
    }
  }

  /** A session bound to the engine of `database`. */
  class Session {
    const database: Database
    /** The calls made on this session so far, oldest first. */
    var history: seq<Call>

    constructor (database: Database)
      ensures this.database == database && history == []
    {
      this.database := database;
      history := [];
    }

    function State(): SessionState
      reads this
    {
      Run(Open, history)
    }

    /** `commit()`. */
    method Commit()
      modifies this
      ensures history == old(history) + [Call.Commit]
      ensures State() == Step(old(State()), Call.Commit)
    {
      RunAppend(Open, history, Call.Commit);
      history := history + [Call.Commit];
    }

    /** `rollback()`. Whether the database raises on it is `fault`, given by the environment;
        the call has been made either way. */
    method Rollback(fault: Option<Error>) returns (raised: Option<Error>)
      modifies this
      ensures history == old(history) + [Call.Rollback]
      ensures State() == Step(old(State()), Call.Rollback)
      ensures raised == fault
    {
      RunAppend(Open, history, Call.Rollback);
      history := history + [Call.Rollback];
      raised := fault;
    }

    /** `close()`. */
    method Close()
      modifies this
      ensures history == old(history) + [Call.Close]
      ensures State() == Closed
    {
      RunAppend(Open, history, Call.Close);
      history := history + [Call.Close];
    }
  }
}
