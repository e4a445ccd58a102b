# ichnaea database layer, modelled in Dafny

This project models the data-access core of ichnaea, `ichnaea/db.py`:

- the INSERT compiler hook that turns an insert carrying an `on_duplicate` keyword into a
  MySQL upsert (`ON DUPLICATE KEY UPDATE`);
- the pool checkout listener that pings each connection and turns the four MySQL
  "connection is gone" client errors into a `DisconnectionError`, which makes the pool retry;
- `Database`, with its fixed engine and session options, and its `session()` factory;
- the lazy per-request master and slave sessions cached on the request;
- the tween that cleans those sessions up once the view has produced its response;
- `db_worker_session`, the context manager that gives a background job its own session.

Modules:

- `Wrappers` and `Errors` hold `Option`, `Result` and the exceptions that cross the layer.
- `Upsert` holds the SQL suffix and its inverse.
- `Checkout` holds the ping classification.
- `Sessions` holds the session state machine, `Session` and `Database`.
- `RequestScope` holds the request, its session accessors and the tween.
- `Worker` holds the context manager.

A `Session` records the calls made on it (`commit`, `rollback`, `close`) in order. Its state
is the run of the state machine `Sessions.Run` over that history. The tween and the worker
context are methods. Each method is proved equal to a pure function of its inputs
(`TweenEffect`, `WorkerCleanup`), and the properties are proved about those functions.

Inputs stand in for what the Python code receives from outside:

- the text the dialect's own `visit_insert` compiles;
- the outcome of `ping()`;
- what the view returned or raised;
- whether the database raises on a `rollback()`.

## Behaviour kept as the code has it

- The master session is never committed by the tween. A successful response leaves the commit
  to the view. An error response (a status starting with `4` or `5`) rolls the session back.
  Either way the session is closed.
- A view that raises skips all cleanup, because `handler(request)` is not inside a `try`.
- A master rollback that raises skips the master `close()` and the whole slave cleanup, because
  there is no `try` around it. A slave rollback that raises still closes the slave session,
  because that `close()` is in a `finally`.
- When `db_master` and `db_slave` are the same object, the tween does nothing to a slave
  session. Yet `db_slave_session` always makes its own session, distinct from the master's. So
  in that configuration a slave session the request made is never rolled back or closed by the
  tween. `RequestScope.TweenEffect` states this (`c.slave` is empty unless `separateSlave`).
- `db_worker_session` catches only `Exception`. A `BaseException` such as `KeyboardInterrupt`
  (`Errors.Interrupt`) closes the session without a rollback. A rollback that raises replaces
  the block's exception with its own.
- `check_connection` is registered twice: on each `Database` engine (ichnaea/db.py:96) and on
  the `Pool` class (ichnaea/db.py:105). Read as written, every checkout from a `Database` engine
  runs the listener, and so pings, twice. The model describes one run of the listener; the
  number of runs per checkout is not modelled.
- Disconnect classification is by the first argument of `OperationalError` only. Any other
  error the ping raises is re-raised unchanged.

## Model

| member | source | states |
|---|---|---|
| `Upsert.OnDuplicate` | ichnaea/db.py:15-20 | the compiled INSERT text is always a prefix of the result; with an `on_duplicate` keyword argument it is followed by exactly ` ON DUPLICATE KEY UPDATE ` and the clause, and without one the text is returned unchanged |
| `Upsert.UpsertClause` | ichnaea/db.py:19 | a clause read back from compiled SQL is the one that follows the INSERT text and the upsert keyword |
| `Upsert.UpsertClauseRoundTrip` | ichnaea/db.py:17-20 | reading the clause back from the compiled SQL gives exactly the `on_duplicate` argument, and nothing when there was none |
| `Upsert.OnDuplicateInjective` | ichnaea/db.py:18-19 | two inserts with the same INSERT text compile to the same SQL if and only if they request the same update clause |
| `Checkout.CheckConnection` | ichnaea/db.py:105-127 | the listener returns normally iff the ping succeeded; it raises `DisconnectionError` iff the ping raised an `OperationalError` with code 2003, 2006, 2013 or 2055 (or raised `DisconnectionError` itself); every other ping error is re-raised as the same exception |
| `Checkout.DisconnectIffClientError` | ichnaea/db.py:117-125 | an `OperationalError` raised by the ping becomes a `DisconnectionError` if and only if its code is that of one of MySQL's connection-refused, server-gone-away, lost-connection-during-query and lost-connection-at-host (with system error) client errors |
| `Sessions.RunAppend` | ichnaea/db.py:64-65 | making one more call on a session moves its state by exactly one step of the state machine, whatever came before |
| `Sessions.EndsClosed` | ichnaea/db.py:51-52 | a session whose last call is `close()` is closed, whatever was called on it before |
| `Sessions.Database.constructor` | ichnaea/db.py:84-99 | the engine gets pool_recycle 3600, pool_size 10, pool_timeout 10, the given echo flag (default off), the given isolation level (default `REPEATABLE READ`), charset utf8 and autocommit off; sessions get autocommit and autoflush off |
| `Sessions.Database.NewSession` | ichnaea/db.py:101-102 | every call returns a new, open session bound to this database, on which nothing has been called yet |
| `Sessions.Session.Commit` | ichnaea/tests/test_views.py:30 | a commit is recorded after all earlier calls and moves the state by one step |
| `Sessions.Session.Rollback` | ichnaea/db.py:64 | a rollback is recorded even when the database raises on it, and what it raises is returned to the caller |
| `Sessions.Session.Close` | ichnaea/db.py:65 | a close is recorded after all earlier calls and leaves the session closed |
| `RequestScope.DbMasterSession` | ichnaea/db.py:27-32 | the first call makes one new session from the master database and caches it on the request; later calls return the cached session without making another; the slave slot is untouched and the two roles never hold the same session |
| `RequestScope.DbSlaveSession` | ichnaea/db.py:35-40 | the same for the slave role and the slave database, leaving the master slot untouched |
| `RequestScope.TweenEffect` | ichnaea/db.py:57-77 | the tween never commits; a raising view skips cleanup; the master session, if any, is rolled back iff the status starts with 4 or 5 and closed exactly once, last, unless that rollback raised; each rollback happens at most once; the slave session is rolled back then closed only when the request has one and the two databases differ (and the master rollback did not raise); the view's response is returned unless a rollback raised, and then that rollback's error is what the tween raises |
| `RequestScope.DbTween` | ichnaea/db.py:55-79 | the calls made on each cached session and the value returned or raised are exactly those `TweenEffect` gives; the request keeps its two distinct sessions |
| `RequestScope.TweenLeavesSessionsClosed` | ichnaea/db.py:59-76 | after a tween that returns normally, the master session and a slave session with its own database are closed, whatever the view called on them |
| `RequestScope.ErrorResponseRollsBackMaster` | ichnaea/db.py:62-65 | on an error response the tween's first call on the master session is a rollback, which discards the open transaction; when it succeeds the session is then closed |
| `Worker.WorkerCleanup` | ichnaea/db.py:43-52 | on leaving the block, close is called exactly once and last on every path; rollback is called first, at most once, iff the block raised an `Exception`; nothing is committed; no exception leaves a block that completed, and the block's exception propagates unless the rollback raised, whose exception replaces it |
| `Worker.WorkerEnter` | ichnaea/db.py:45-47 | entering the block yields a new session of the given database with nothing called on it |
| `Worker.WorkerExit` | ichnaea/db.py:48-52 | the calls made on the session and the exception that leaves the `with` statement are exactly those `WorkerCleanup` gives |
| `Worker.WorkerLeavesSessionClosed` | ichnaea/db.py:51-52 | whatever the block did with the session, it is closed once the `with` statement is left |

## Left out

- The SQLAlchemy engine, the pool, `sessionmaker`, event registration and the `@compiles` hook
  are foreign library code. The compiled INSERT text and the ping outcome are inputs. The pool's
  retry after a `DisconnectionError`, its size limit, checkout timeout and recycling are not
  modelled; only the configured constants are.
- Concurrency between requests and workers is not modelled. Each request and each worker
  session is handled by one thread.
- The rate limiter (`rate_limit`) is not part of this model. Its source is not shown, and only
  tests that run it against Redis exist.
- The views, the estimation logic and the HTTP layer are not modelled. The view is represented
  only by what it returns or raises. A view that makes sessions calls the accessors first.
- `Upsert.OnDuplicate`: keyword argument values are taken to be strings. A non-string
  `on_duplicate` value, which makes Python's `+` raise `TypeError`, is not modelled.
- `Sessions.Session.Close`: `close()` is taken never to raise.
- `Sessions.Database.NewSession`: `session()` is taken never to raise, so the session accessors
  and the worker context always get a session. In the source a raising `session()` propagates
  from `db_master_session` and `db_slave_session`, and leaves `session` unbound in the `except`
  and `finally` blocks of `db_worker_session`.
- `Checkout.CheckConnection`: the classification assumes that a failed `ping()` surfaces as
  SQLAlchemy's `OperationalError` with the MySQL client code as its first argument; how the
  driver's own exception is wrapped is not part of this model.
- `Sessions.Session.Rollback`: the session's state after a rollback that raised is taken to be
  the state after a rollback that succeeded.
