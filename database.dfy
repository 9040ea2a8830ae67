/**
 * The per-user, per-day usage ledger of server/database.js: the
 * `user_usage` table keyed by the UNIQUE pair `(user_id, day)`, the parse of
 * the sqlite3 command-line output in `getUserUsage`, and the read-add-write
 * of `addUserUsage`.
 *
 * The sqlite3 process is replaced by its effect on the table: a SELECT of
 * `seconds_used` prints the stored integer in decimal followed by a newline,
 * or nothing when there is no row; runSQLite hands back that output trimmed.
 * Whether a given sqlite3 call rejects is an input of the operation that
 * makes it.
 */
module UsageDb {
  import opened Wrappers
  import opened Text

  type Key = (string, string)

  /** The `seconds_used` column of the row for `key`, or 0 when there is no row. */
  function Stored(rows: map<Key, int>, key: Key): int
  {
    if key in rows then rows[key] else 0
  }

  // ---- parseInt ----

  predicate IsHexDigit(c: char)
  {
    IsDigit(c) || 'a' <= c <= 'f' || 'A' <= c <= 'F'
  }

  function HexDigitValue(c: char): (d: nat)
    requires IsHexDigit(c)
    ensures d < 16
  {
    if IsDigit(c) then DigitValue(c)
    else if 'a' <= c <= 'f' then c as int - 'a' as int + 10
    else c as int - 'A' as int + 10
  }

  function HexValue(ds: string): nat
    requires forall i :: 0 <= i < |ds| ==> IsHexDigit(ds[i])
  {
    if |ds| == 0 then 0 else 16 * HexValue(ds[..|ds| - 1]) + HexDigitValue(ds[|ds| - 1])
  }

  /** The longest prefix of `s` made of decimal digits. */
  function DecimalPrefix(s: string): (ds: string)
    ensures ds <= s
    ensures forall i :: 0 <= i < |ds| ==> IsDigit(ds[i])
    ensures |ds| < |s| ==> !IsDigit(s[|ds|])
  {
    if |s| > 0 && IsDigit(s[0]) then [s[0]] + DecimalPrefix(s[1..]) else ""
  }

  /** The longest prefix of `s` made of hexadecimal digits. */
  function HexPrefix(s: string): (ds: string)
    ensures ds <= s
    ensures forall i :: 0 <= i < |ds| ==> IsHexDigit(ds[i])
    ensures |ds| < |s| ==> !IsHexDigit(s[|ds|])
  {
    if |s| > 0 && IsHexDigit(s[0]) then [s[0]] + HexPrefix(s[1..]) else ""
  }

  /**
   * `parseInt(s)` with no radix: leading white space is skipped, one sign is
   * read, a `0x`/`0X` prefix selects base 16, and the longest run of digits
   * that follows is the value; `None` stands for `NaN` (no digit at all).
   * The rounding of values beyond 2^53 is not modelled.
   */
  function ParseInt(s: string): Option<int>
  {
    var t := TrimStart(s);
    var negative := |t| > 0 && t[0] == '-';
    var u := if |t| > 0 && (t[0] == '-' || t[0] == '+') then t[1..] else t;
    match Magnitude(u)
    case None => None
    case Some(v) => Some(if negative then -(v as int) else v as int)
  }

  /** The unsigned part of `parseInt`: `0x`/`0X` and hexadecimal digits, or decimal digits. */
  function Magnitude(u: string): Option<nat>
  {
    if |u| >= 2 && u[0] == '0' && (u[1] == 'x' || u[1] == 'X') then
      var ds := HexPrefix(u[2..]);
      if ds == "" then None else Some(HexValue(ds))
    else
      var ds := DecimalPrefix(u);
      if ds == "" then None else Some(DigitsValue(ds))
  }

  /** `result ? parseInt(result.split("|")[0]) || 0 : 0` (server/database.js:72). */
  function UsageFromOutput(result: string): int
  {
    if result == "" then 0
    else match ParseInt(Split(result, '|')[0])
      case None => 0
      case Some(n) => n
  }

  /** What sqlite3 prints for `SELECT seconds_used ... WHERE user_id=... AND day=...`. */
  function SelectOutput(rows: map<Key, int>, key: Key): string
  {
    if key in rows then IntToDecimal(rows[key]) + "\n" else ""
  }

  lemma {:induction false} DecimalPrefixOfDigits(s: string)
    requires forall i :: 0 <= i < |s| ==> IsDigit(s[i])
    ensures DecimalPrefix(s) == s
  {
    if |s| > 0 {
      DecimalPrefixOfDigits(s[1..]);
      assert [s[0]] + s[1..] == s;
    }
  }

  /** `parseInt` reads back every integer rendered in decimal. */
  lemma ParseDecimal(n: int)
    ensures ParseInt(IntToDecimal(n)) == Some(n)
  {
    var s := IntToDecimal(n);
    var m: nat := if n < 0 then -n else n;
    var ds := NatToDecimal(m);
    assert !IsSpace(s[0]);
    TrimStartAtNonSpace(s);
    var signed := s[0] == '-' || s[0] == '+';
    assert signed <==> n < 0 by {
      if n >= 0 { assert IsDigit(ds[0]); }
    }
    var u := if signed then s[1..] else s;
    assert u == ds;
    MagnitudeOfDigits(ds);
  }

  /** A run of decimal digits is read as its value. */
  lemma MagnitudeOfDigits(ds: string)
    requires |ds| >= 1 && forall i :: 0 <= i < |ds| ==> IsDigit(ds[i])
    ensures Magnitude(ds) == Some(DigitsValue(ds))
  {
    ParseDigits(ds);
  }

  lemma TrimStartAtNonSpace(s: string)
    requires |s| > 0 && !IsSpace(s[0])
    ensures TrimStart(s) == s
  {
    assert SpacesFrom(s, 0) == 0;
  }

  /** A run of digits, without sign or white space, is read in decimal as its value. */
  lemma ParseDigits(ds: string)
    requires |ds| >= 1 && forall i :: 0 <= i < |ds| ==> IsDigit(ds[i])
    ensures !(|ds| >= 2 && ds[0] == '0' && (ds[1] == 'x' || ds[1] == 'X'))
    ensures DecimalPrefix(ds) == ds
  {
    if |ds| >= 2 {
      assert IsDigit(ds[1]);
    }
    DecimalPrefixOfDigits(ds);
  }

  lemma DecimalShape(n: int)
    ensures Trimmed(IntToDecimal(n))
    ensures '|' !in IntToDecimal(n)
  {
    var s := IntToDecimal(n);
    var m: nat := if n < 0 then -n else n;
    var ds := NatToDecimal(m);
    assert s[|s| - 1] == ds[|ds| - 1];
    forall i | 0 <= i < |s| ensures s[i] != '|' {
      if n < 0 && i > 0 { assert s[i] == ds[i - 1]; }
    }
  }

  lemma TrimLine(s: string)
    requires Trimmed(s)
    ensures Trim(s + "\n") == s
  {
    var t := s + "\n";
    assert t[..|t| - 1] == s;
    if |s| > 0 {
      assert TrimStart(t) == t;
    }
    assert TrimEnd(t) == TrimEnd(s);
    TrimOfTrimmed(s);
  }

  /** A rendered integer, as the first and only column of the output, reads back as itself. */
  lemma UsageOfDecimal(n: int)
    ensures UsageFromOutput(IntToDecimal(n)) == n
  {
    var s := IntToDecimal(n);
    assert s != "" by { assert |NatToDecimal(if n < 0 then -n else n)| >= 1; }
    DecimalShape(n);
    SplitWithout(s, '|');
    assert Split(s, '|')[0] == s;
    ParseDecimal(n);
  }

  /**
   * The read path of `getUserUsage` gives exactly the stored `seconds_used`,
   * and 0 when no row exists (server/database.js:69-73).
   */
  lemma UsageReadBack(rows: map<Key, int>, key: Key)
    ensures UsageFromOutput(Trim(SelectOutput(rows, key))) == Stored(rows, key)
  {
    if key in rows {
      var n := rows[key];
      var s := IntToDecimal(n);
      assert SelectOutput(rows, key) == s + "\n";
      DecimalShape(n);
      TrimLine(s);
      UsageOfDecimal(n);
    } else {
      assert SelectOutput(rows, key) == "";
      assert Trim("") == "";
    }
  }

  /** The table after `addUserUsage(userId, day, seconds)`: that row holds the old value plus `seconds`. */
  function AddRow(rows: map<Key, int>, key: Key, seconds: int): map<Key, int>
  {
    rows[key := Stored(rows, key) + seconds]
  }

  /** Two additions to one key accumulate: the second does not overwrite the first (server/database.js:77-89). */
  lemma AddTwice(rows: map<Key, int>, key: Key, s1: int, s2: int)
    ensures Stored(AddRow(AddRow(rows, key, s1), key, s2), key) == Stored(rows, key) + s1 + s2
  {
  }

  /** An addition to one key leaves every other key's row as it was, and adds no other key. */
  lemma AddOtherKeys(rows: map<Key, int>, key: Key, seconds: int, other: Key)
    requires other != key
    ensures other in AddRow(rows, key, seconds) <==> other in rows
    ensures Stored(AddRow(rows, key, seconds), other) == Stored(rows, other)
  {
  }

  /**
   * Why a `runSQLite` call rejects: the sqlite3 executable is missing
   * (server/database.js:18-19), or the process exits with a non-zero code
   * after printing `stderr` (server/database.js:33).
   */
  datatype SqliteFault = ExeMissing | ExitFailure(stderr: string)

  /** The message `runSQLite` rejects with for `f`. */
  function SqliteError(f: SqliteFault): (m: string)
    ensures m != ""
    ensures f.ExitFailure? && f.stderr != "" ==> m == f.stderr
    ensures f.ExitFailure? && f.stderr == "" ==> m == "SQLite command failed"
  {
    match f
    case ExeMissing => "sqlite3.exe not found in /server/app folder."
    case ExitFailure(stderr) => if stderr != "" then stderr else "SQLite command failed"
  }

  /** The `user_usage` table. */
  class Ledger {
    var rows: map<Key, int>

    constructor ()
      ensures rows == map[]
    {
      rows := map[];
    }

    /**
     * `getUserUsage(userId, day)`. `fault` says whether its one sqlite3
     * call rejects; the rejection is passed on.
     */
    method GetUserUsage(userId: string, day: string, fault: Option<SqliteFault>) returns (used: Result<int>)
      ensures fault.None? ==> used == Ok(Stored(rows, (userId, day)))
      ensures fault.Some? ==> used == Err(SqliteError(fault.value))
    {
      if fault.Some? {
        return Err(SqliteError(fault.value));
      }
      var output := Trim(SelectOutput(rows, (userId, day)));
      used := Ok(UsageFromOutput(output));
      UsageReadBack(rows, (userId, day));
    }

    /**
     * `addUserUsage(userId, day, seconds)`: reads the current value, writes
     * back value + seconds with INSERT OR REPLACE (a new row when none
     * existed), and returns the new value. `readFault` and `writeFault` say
     * whether the SELECT or the INSERT rejects; either rejection is passed
     * on and leaves the table as it was.
     */
    method AddUserUsage(userId: string, day: string, seconds: int,
                        readFault: Option<SqliteFault>, writeFault: Option<SqliteFault>)
      returns (newValue: Result<int>)
      modifies this
      ensures readFault.Some? ==> newValue == Err(SqliteError(readFault.value)) && rows == old(rows)
      ensures readFault.None? && writeFault.Some? ==>
        newValue == Err(SqliteError(writeFault.value)) && rows == old(rows)
      ensures readFault.None? && writeFault.None? ==>
        && newValue == Ok(old(Stored(rows, (userId, day))) + seconds)
        && rows == AddRow(old(rows), (userId, day), seconds)
    {
      var existing := GetUserUsage(userId, day, readFault);
      if existing.Err? {
        return Err(existing.message);
      }
      var value := existing.value + seconds;
      if writeFault.Some? {
        return Err(SqliteError(writeFault.value));
      }
      rows := rows[(userId, day) := value];
      newValue := Ok(value);
    }
  }
}
