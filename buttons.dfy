/**
 * Key tables and the first-match lookup that both remote-control readers use.
 *
 * A table is an ordered list of rows (tButton).  It ends at a terminating row
 * whose compared column is empty; lookup scans the rows before it in order and
 * answers with the code of the FIRST row whose column equals the token, so a
 * token listed twice always resolves to its first row.  The helper bodies that
 * perform this scan are not part of this model: what is stated here is the
 * scan both readers rely on, with "not found" kept as its own outcome (None).
 */
module Buttons {
  import opened Wrappers

  /** One table row: the remote's name for the key, the protocol token, the internal key code. */
  datatype Button = Button(keyName: string, keyWord: string, keyCode: int)

  /** The column a lookup compares: the key name (LircdName) or the token (Spark). */
  datatype Column = ByName | ByWord

  function Token(b: Button, col: Column): string {
    match col
    case ByName => b.keyName
    case ByWord => b.keyWord
  }

  /** The terminating row: its compared column is the empty string. */
  predicate IsSentinel(b: Button, col: Column) {
    Token(b, col) == ""
  }

  /** No row of `rows` terminates the table. */
  predicate NoSentinel(rows: seq<Button>, col: Column) {
    forall i :: 0 <= i < |rows| ==> !IsSentinel(rows[i], col)
  }

  /** The number of rows before the first terminating row (all rows if there is none). */
  function LiveCount(table: seq<Button>, col: Column): (n: nat)
    ensures n <= |table|
    ensures NoSentinel(table[..n], col)
    ensures n < |table| ==> IsSentinel(table[n], col)
  {
    if table == [] || IsSentinel(table[0], col) then 0
    else
      var n := 1 + LiveCount(table[1..], col);
      assert table[..n] == [table[0]] + table[1..][..n - 1];
      n
  }

  /**
   * The linear first-match scan: the code of the first live row whose column
   * equals `token`, or None when no live row carries it.
   */
  function Lookup(table: seq<Button>, col: Column, token: string): (r: Option<int>)
    ensures r.None? <==> forall i :: 0 <= i < LiveCount(table, col) ==> Token(table[i], col) != token
    ensures r.Some? ==>
      exists i :: 0 <= i < LiveCount(table, col) && Token(table[i], col) == token && table[i].keyCode == r.value
  {
    if table == [] || IsSentinel(table[0], col) then None
    else if Token(table[0], col) == token then Some(table[0].keyCode)
    else
      var r := Lookup(table[1..], col, token);
      assert forall k :: 0 <= k < |table| - 1 ==> table[1..][k] == table[k + 1];
      r
  }

  /** Row i is the first live row whose column equals `token`. */
  ghost predicate IsFirstMatch(table: seq<Button>, col: Column, token: string, i: int) {
    && 0 <= i < LiveCount(table, col)
    && Token(table[i], col) == token
    && forall j :: 0 <= j < i ==> Token(table[j], col) != token
  }

  /** First match wins: the lookup answers with the code of the first row carrying the token. */
  lemma {:induction false} LookupFirstMatch(table: seq<Button>, col: Column, token: string, i: int)
    requires IsFirstMatch(table, col, token, i)
    ensures Lookup(table, col, token) == Some(table[i].keyCode)
  {
    if i > 0 {
      assert LiveCount(table, col) == 1 + LiveCount(table[1..], col);
      forall j | 0 <= j < i - 1 ensures Token(table[1..][j], col) != token {
        assert table[1..][j] == table[j + 1];
      }
      LookupFirstMatch(table[1..], col, token, i - 1);
    }
  }

  /** Whatever the lookup answers is the code of the first row carrying the token. */
  lemma {:induction false} LookupIsFirstMatch(table: seq<Button>, col: Column, token: string)
    requires Lookup(table, col, token).Some?
    ensures exists i :: IsFirstMatch(table, col, token, i) && table[i].keyCode == Lookup(table, col, token).value
  {
    if Token(table[0], col) == token {
      assert IsFirstMatch(table, col, token, 0);
    } else {
      LookupIsFirstMatch(table[1..], col, token);
      var i :| IsFirstMatch(table[1..], col, token, i) && table[1..][i].keyCode == Lookup(table, col, token).value;
      forall j | 0 <= j < i + 1 ensures Token(table[j], col) != token {
        if j > 0 { assert table[j] == table[1..][j - 1]; }
      }
      assert IsFirstMatch(table, col, token, i + 1);
    }
  }

  /** A code no row before the terminating row yields as a first match is never answered. */
  lemma LookupNeverAnswers(table: seq<Button>, col: Column, token: string, code: int)
    requires forall i :: 0 <= i < LiveCount(table, col) && table[i].keyCode == code ==>
      exists j :: 0 <= j < i && Token(table[j], col) == Token(table[i], col)
    ensures Lookup(table, col, token) != Some(code)
  {
    if Lookup(table, col, token) == Some(code) {
      LookupIsFirstMatch(table, col, token);
    }
  }

  /** A table that ends with exactly one terminating row, as both source tables do. */
  predicate Terminated(table: seq<Button>, col: Column) {
    |table| > 0 && NoSentinel(table[..|table| - 1], col) && IsSentinel(table[|table| - 1], col)
  }

  lemma TerminatedLiveCount(table: seq<Button>, col: Column)
    requires Terminated(table, col)
    ensures LiveCount(table, col) == |table| - 1
  {
  }

  /** The internal code the reader goes on with: KEY_NULL (0) when the lookup found nothing. */
  function CodeOrNull(r: Option<int>): int {
    match r
    case None => 0
    case Some(c) => c
  }
}
