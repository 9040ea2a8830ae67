/**
 * The administrative reset of server/resetdb.js: `--all` zeroes every row's
 * `seconds_used`, `--user <id>` zeroes every row of one user; the id is put
 * into the SQL literal with each `'` doubled. Rows are never deleted.
 */
module ResetDb {
  import opened UsageDb

  /** `id.replace(/'/g, "''")`. */
  function EscapeQuotes(s: string): (r: string)
    ensures |r| >= |s|
  {
    if |s| == 0 then ""
    else (if s[0] == '\'' then "''" else [s[0]]) + EscapeQuotes(s[1..])
  }

  /** How SQL reads the body of a `'...'` literal: each `''` stands for one `'`. */
  function UnescapeQuotes(s: string): string
  {
    if |s| >= 2 && s[0] == '\'' && s[1] == '\'' then "'" + UnescapeQuotes(s[2..])
    else if |s| == 0 then ""
    else [s[0]] + UnescapeQuotes(s[1..])
  }

  /** No single quote of the escaped id stands alone, so it cannot close the SQL literal. */
  predicate QuotesPaired(s: string)
  {
    if |s| == 0 then true
    else if s[0] == '\'' then |s| >= 2 && s[1] == '\'' && QuotesPaired(s[2..])
    else QuotesPaired(s[1..])
  }

  /** The escaped id keeps its quotes paired and SQL reads it back as the original id (server/resetdb.js:26). */
  lemma {:induction false} EscapeRoundTrip(s: string)
    ensures QuotesPaired(EscapeQuotes(s))
    ensures UnescapeQuotes(EscapeQuotes(s)) == s
  {
    if |s| > 0 {
      EscapeRoundTrip(s[1..]);
      var e := EscapeQuotes(s);
      if s[0] == '\'' {
        assert e == "''" + EscapeQuotes(s[1..]);
        assert e[2..] == EscapeQuotes(s[1..]);
      } else {
        assert e == [s[0]] + EscapeQuotes(s[1..]);
        assert e[1..] == EscapeQuotes(s[1..]);
      }
      assert [s[0]] + s[1..] == s;
    }
  }

  /** `UPDATE user_usage SET seconds_used = 0;` */
  function ZeroAll(rows: map<Key, int>): (r: map<Key, int>)
    ensures r.Keys == rows.Keys
    ensures forall k :: k in r ==> r[k] == 0
  {
    map k | k in rows :: 0
  }

  /** `UPDATE user_usage SET seconds_used = 0 WHERE user_id = '<id>';` */
  function ZeroUser(rows: map<Key, int>, user: string): (r: map<Key, int>)
    ensures r.Keys == rows.Keys
    ensures forall k :: k in r ==> r[k] == if k.0 == user then 0 else rows[k]
  {
    map k | k in rows :: if k.0 == user then 0 else rows[k]
  }

  /** After a reset of one user, `getUserUsage` reads 0 for that user on every day, and other users read as before. */
  lemma ZeroUserReads(rows: map<Key, int>, user: string, other: string, day: string)
    ensures Stored(ZeroUser(rows, user), (user, day)) == 0
    ensures other != user ==> Stored(ZeroUser(rows, user), (other, day)) == Stored(rows, (other, day))
  {
  }

  /** After `--all`, `getUserUsage` reads 0 for every user and day. */
  lemma ZeroAllReads(rows: map<Key, int>, key: Key)
    ensures Stored(ZeroAll(rows), key) == 0
  {
  }

  /**
   * `main()` over `process.argv.slice(2)`; the result is the process exit
   * code. `sqliteFails` says that the sqlite3 command rejects, which the
   * `main().catch` turns into exit code 2 with the table unchanged.
   */
  method RunReset(ledger: Ledger, args: seq<string>, sqliteFails: bool) returns (exitCode: int)
    modifies ledger
    ensures |args| == 0 ==> exitCode == 1 && ledger.rows == old(ledger.rows)
    ensures |args| > 0 && args[0] == "--all" ==>
      if sqliteFails then exitCode == 2 && ledger.rows == old(ledger.rows)
      else exitCode == 0 && ledger.rows == ZeroAll(old(ledger.rows))
    ensures |args| > 0 && args[0] == "--user" && |args| > 1 && args[1] != "" ==>
      if sqliteFails then exitCode == 2 && ledger.rows == old(ledger.rows)
      else exitCode == 0 && ledger.rows == ZeroUser(old(ledger.rows), args[1])
    ensures |args| > 0 && args[0] != "--all" && !(args[0] == "--user" && |args| > 1 && args[1] != "") ==>
      exitCode == 1 && ledger.rows == old(ledger.rows)
  {
    if |args| == 0 {
      return 1;
    }
    if args[0] == "--all" {
      if sqliteFails {
        return 2;
      }
      ledger.rows := ZeroAll(ledger.rows);
      return 0;
    }
    if args[0] == "--user" && |args| > 1 && args[1] != "" {
      var escaped := EscapeQuotes(args[1]);
      if sqliteFails {
        return 2;
      }
      // The WHERE clause compares user_id with the literal's value.
      EscapeRoundTrip(args[1]);
      ledger.rows := ZeroUser(ledger.rows, UnescapeQuotes(escaped));
      return 0;
    }
    return 1;
  }
}
