/** Validation of the sender mapping read at startup (`readConfig`). Reading
    and JSON-decoding the file are not modelled: the caller passes the
    decoded mapping, or None when the file could not be opened or decoded. */
module Config {
  import opened Wrappers
  import opened Text

  /** Placeholder that the recipient's address replaces in the query. */
  const Placeholder: char := '?'

  /** One record of the mapping (`cred`): a MySQL query and a data source name. */
  datatype Cred = Cred(sql: string, dsn: string)

  datatype ConfigError =
    | Unreadable
    | EmptyConfig
    | InvalidRecord(key: string)   // an empty `sql` or `dsn`
    | InvalidSql(key: string)      // not exactly one placeholder

  /** Both fields are filled in. */
  predicate NonEmptyFields(c: Cred) {
    c.sql != "" && c.dsn != ""
  }

  /** A record the start-up accepts. */
  predicate ValidCred(c: Cred) {
    NonEmptyFields(c) && CountChar(c.sql, Placeholder) == 1
  }

  /** A mapping the start-up accepts. */
  ghost predicate ValidConfig(m: map<string, Cred>) {
    |m| > 0 && forall k :: k in m ==> ValidCred(m[k])
  }

  /** A record is accepted exactly when its DSN is non-empty and its query
      holds the placeholder at one position and nowhere else. */
  lemma ValidCredIff(c: Cred)
    ensures ValidCred(c) <==> c.dsn != "" && exists i :: OnlyAt(c.sql, Placeholder, i)
  {
    CountOneIff(c.sql, Placeholder);
  }

  /** `readConfig`: rejects an unreadable or empty mapping, then visits the
      records in an unspecified order (Go's map iteration order) and rejects
      the first bad one it meets. Which bad record is reported is not
      determined, but it is always a bad one, with the right kind of error. */
  method ReadConfig(decoded: Option<map<string, Cred>>) returns (r: Result<map<string, Cred>, ConfigError>)
    ensures r.Success? <==> decoded.Some? && ValidConfig(decoded.value)
    ensures r.Success? ==> r.value == decoded.value
    ensures r == Failure(Unreadable) <==> decoded.None?
    ensures r == Failure(EmptyConfig) <==> decoded.Some? && |decoded.value| == 0
    ensures r.Failure? && r.error.InvalidRecord? ==>
      decoded.Some? && r.error.key in decoded.value && !NonEmptyFields(decoded.value[r.error.key])
    ensures r.Failure? && r.error.InvalidSql? ==>
      && decoded.Some? && r.error.key in decoded.value
      && NonEmptyFields(decoded.value[r.error.key])
      && CountChar(decoded.value[r.error.key].sql, Placeholder) != 1
  {
    if decoded.None? {
      return Failure(Unreadable);
    }
    var m := decoded.value;
    if |m| == 0 {
      return Failure(EmptyConfig);
    }
    var unvisited := m.Keys;
    while unvisited != {}
      invariant unvisited <= m.Keys
      invariant forall k :: k in m && k !in unvisited ==> ValidCred(m[k])
      decreases unvisited
    {
      var k :| k in unvisited;
      var c := m[k];
      if c.sql == "" || c.dsn == "" {
        return Failure(InvalidRecord(k));
      }
      if CountChar(c.sql, Placeholder) != 1 {
        return Failure(InvalidSql(k));
      }
      unvisited := unvisited - {k};
    }
    return Success(m);
  }
}
