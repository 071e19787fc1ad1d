/** What the instrumented code sees of Go's `database/sql`: the values a driver
    returns, result sets, single-row results, statement results, a `*sql.DB` as
    the three context-taking operations the wrappers call, and the conversions
    that `Rows.Scan` applies when it copies a column into a Go variable. */
module Sql {
  import opened Base
  import Strconv

  /** A column value as the SQLite driver returns it. */
  datatype SqlValue = SqlInt(i: int) | SqlText(s: string) | SqlNull

  /** A `*sql.Rows`: the rows that successive `Next` calls deliver, then the
      error, if any, that ended the iteration early (what `Err` reports). */
  datatype Rows = Rows(data: seq<seq<SqlValue>>, err: Option<Error>)

  /** A `*sql.Row`: any error (including "no rows") is deferred to its `Scan`. */
  datatype Row = Row(data: Result<seq<SqlValue>>)

  /** A `sql.Result`: both accessors may fail, depending on the driver. */
  datatype ExecResult = ExecResult(lastInsertId: Result<int>, rowsAffected: Result<int>)

  /** A `*sql.DB` as a record of what its three context-taking operations answer
      for a given context, query text and argument list. The answers depend on
      the database's contents, which this record fixes. */
  datatype DB = DB(
    queryContext: (Context, string, seq<SqlValue>) -> Result<Rows>,
    queryRowContext: (Context, string, seq<SqlValue>) -> Row,
    execContext: (Context, string, seq<SqlValue>) -> Result<ExecResult>)

  /** The kind of Go variable a `Scan` destination points to. */
  datatype Dest = IntDest | StringDest

  /** A value `Scan` stored into its destination. */
  datatype Scanned = IntValue(i: int) | StringValue(s: string)

  predicate Fits(v: Scanned, d: Dest) {
    v.IntValue? <==> d == IntDest
  }

  /** `convertAssign` for the two destination kinds used here: a NULL is refused,
      an integer is formatted into a string destination, and a text column is
      parsed with `ParseInt(s, 10, 64)` into an integer destination, a failure
      reporting only the `*strconv.NumError`'s reason. */
  function ConvertAssign(v: SqlValue, d: Dest): (r: Result<Scanned>)
    ensures r.Ok? ==> Fits(r.value, d)
    ensures v.SqlNull? ==> r.Err?
    ensures v.SqlText? && d == StringDest ==> r == Ok(StringValue(v.s))
  {
    match (v, d)
    case (SqlNull, IntDest) => Err(Error("converting NULL to int is unsupported"))
    case (SqlNull, StringDest) => Err(Error("converting NULL to string is unsupported"))
    case (SqlInt(i), IntDest) => Ok(IntValue(i))
    case (SqlInt(i), StringDest) => Ok(StringValue(Strconv.Itoa(i)))
    case (SqlText(s), StringDest) => Ok(StringValue(s))
    case (SqlText(s), IntDest) =>
      match Strconv.ParseInt(s)
      case Parsed(n) => Ok(IntValue(n))
      case Failed(e) => Err(Error("converting driver.Value type string (\"" + s + "\") to a int: " + e.reason))
  }

  /** `Rows.Scan`: the number of destinations must equal the number of columns;
      columns are converted left to right and the first failure is reported. */
  function Scan(cols: seq<SqlValue>, dests: seq<Dest>): (r: Result<seq<Scanned>>)
    ensures r.Ok? ==> |r.value| == |dests| == |cols|
    ensures r.Ok? ==> forall i :: 0 <= i < |dests| ==> Fits(r.value[i], dests[i])
  {
    if |cols| != |dests| then
      Err(Error("sql: expected " + Strconv.Itoa(|cols|) + " destination arguments in Scan, not "
                + Strconv.Itoa(|dests|)))
    else
      ScanColumns(cols, dests, 0)
  }

  function ScanColumns(cols: seq<SqlValue>, dests: seq<Dest>, i: nat): (r: Result<seq<Scanned>>)
    requires |cols| == |dests| && i <= |cols|
    ensures r.Ok? ==> |r.value| == |cols| - i
    ensures r.Ok? ==> forall k :: 0 <= k < |r.value| ==> Fits(r.value[k], dests[i + k])
    decreases |cols| - i
  {
    if i == |cols| then Ok([])
    else
      match ConvertAssign(cols[i], dests[i])
      case Err(e) => Err(Error("sql: Scan error on column index " + Strconv.Itoa(i) + ": " + e.message))
      case Ok(v) =>
        match ScanColumns(cols, dests, i + 1)
        case Err(e) => Err(e)
        case Ok(rest) =>
          assert Fits(v, dests[i]);
          var r := [v] + rest;
          assert forall k :: 1 <= k < |r| ==> r[k] == rest[k - 1];
          Ok(r)
  }
}
