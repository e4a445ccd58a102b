/** The `ON DUPLICATE KEY UPDATE` suffix that the INSERT compiler hook appends (ichnaea/db.py). */
module Upsert {
  import opened Wrappers

  /** The keyword argument of an insert statement that asks for an upsert. */
  const OnDuplicateKey: string := "on_duplicate"

  /** The text placed between the compiled INSERT and the update clause. */
  const UpsertKeyword: string := " ON DUPLICATE KEY UPDATE "

  /** The compiled SQL of an insert statement. `compiled` is the output of the dialect's own
      `visit_insert`, taken as given; `kwargs` are the statement's keyword arguments. */
  function OnDuplicate(compiled: string, kwargs: map<string, string>): (sql: string)
    ensures compiled <= sql
    ensures OnDuplicateKey !in kwargs ==> sql == compiled
    ensures OnDuplicateKey in kwargs ==>
              |sql| == |compiled| + |UpsertKeyword| + |kwargs[OnDuplicateKey]| &&
              sql[|compiled|..|compiled| + |UpsertKeyword|] == UpsertKeyword &&
              sql[|compiled| + |UpsertKeyword|..] == kwargs[OnDuplicateKey]
  {
    if OnDuplicateKey in kwargs then compiled + UpsertKeyword + kwargs[OnDuplicateKey]
    else compiled
  }

  /** Reads back the update clause of `sql`, compiled from an insert whose own text is
      `compiled`: `None` when `sql` carries no upsert suffix. */
  function UpsertClause(sql: string, compiled: string): (clause: Option<string>)
    ensures clause.Some? ==> sql == compiled + UpsertKeyword + clause.value
  {
    var n := |compiled| + |UpsertKeyword|;
    if n <= |sql| && sql[..|compiled|] == compiled && sql[|compiled|..n] == UpsertKeyword then
      assert sql == sql[..|compiled|] + sql[|compiled|..n] + sql[n..];
      Some(sql[n..])
    else None
  }

  /** The clause of the `on_duplicate` keyword argument, if there is one. */
  function RequestedClause(kwargs: map<string, string>): Option<string>
  {
    if OnDuplicateKey in kwargs then Some(kwargs[OnDuplicateKey]) else None
  }

  /** The compiled SQL carries exactly the requested update clause, and none when the
      statement asked for none: reading it back recovers the keyword argument. */
  lemma {:induction false} UpsertClauseRoundTrip(compiled: string, kwargs: map<string, string>)
    ensures UpsertClause(OnDuplicate(compiled, kwargs), compiled) == RequestedClause(kwargs)
  {
    var sql := OnDuplicate(compiled, kwargs);
    if OnDuplicateKey in kwargs {
      assert sql[..|compiled|] == compiled;
    } else {
      assert sql == compiled;
      assert |compiled| < |compiled| + |UpsertKeyword|;
    }
  }

  /** Two statements compiled from the same INSERT text produce the same SQL exactly when
      they request the same update clause. */
  lemma OnDuplicateInjective(compiled: string, kw1: map<string, string>, kw2: map<string, string>)
    ensures OnDuplicate(compiled, kw1) == OnDuplicate(compiled, kw2) <==>
            RequestedClause(kw1) == RequestedClause(kw2)
  {
    UpsertClauseRoundTrip(compiled, kw1);
    UpsertClauseRoundTrip(compiled, kw2);
  }
}
