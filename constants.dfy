/** The board's fixed configuration: the four columns, their titles and colours, and the page size. */
module Constants {
  import opened Wrappers

  /** One of the four workflow columns a task can be in. */
  datatype Column = Backlog | InProgress | Review | Done

  /** The values of the column enumeration, in declaration order (the order the board renders). */
  const AllColumns: seq<Column> := [Backlog, InProgress, Review, Done]

  /** The string identifier of a column, as stored in a task and used as a drop-target id. */
  function ColumnId(c: Column): (r: string)
    ensures |r| > 0 && forall i :: 0 <= i < |r| ==> 'a' <= r[i] <= 'z' || r[i] == '_'
  {
    match c
    case Backlog => "backlog"
    case InProgress => "in_progress"
    case Review => "review"
    case Done => "done"
  }

  /** `Object.values(COLUMNS).includes(s)`, returning the column whose identifier is `s`. */
  function ParseColumn(s: string): (r: Option<Column>)
    ensures r.Some? ==> ColumnId(r.value) == s
    ensures r.None? <==> forall c: Column :: ColumnId(c) != s
  {
    if s == "backlog" then Some(Backlog)
    else if s == "in_progress" then Some(InProgress)
    else if s == "review" then Some(Review)
    else if s == "done" then Some(Done)
    else None
  }

  /** The heading shown at the top of a column. */
  function ColumnTitle(c: Column): (r: string)
    ensures |r| > 0
  {
    match c
    case Backlog => "Backlog"
    case InProgress => "In Progress"
    case Review => "Review"
    case Done => "Done"
  }

  predicate IsHexDigit(c: char) {
    '0' <= c <= '9' || 'a' <= c <= 'f'
  }

  /** A CSS colour written `#rrggbb`. */
  predicate IsHexColour(s: string) {
    |s| == 7 && s[0] == '#' && forall i :: 1 <= i < 7 ==> IsHexDigit(s[i])
  }

  /** The background colour of a column. */
  function ColumnColour(c: Column): (r: string)
    ensures IsHexColour(r)
  {
    match c
    case Backlog => "#f5f5f5"
    case InProgress => "#e3f2fd"
    case Review => "#fff3e0"
    case Done => "#e8f5e8"
  }

  /** How many tasks one page of a column shows. */
  const TasksPerPage: nat := 3

  /** The enumeration has exactly four values, each listed once, and lists every column. */
  lemma ColumnsEnumerated()
    ensures |AllColumns| == 4
    ensures forall i, j :: 0 <= i < j < |AllColumns| ==> AllColumns[i] != AllColumns[j]
    ensures forall c: Column :: c in AllColumns
  {
    forall c: Column ensures c in AllColumns {
      match c
      case Backlog => assert AllColumns[0] == c;
      case InProgress => assert AllColumns[1] == c;
      case Review => assert AllColumns[2] == c;
      case Done => assert AllColumns[3] == c;
    }
  }

  /** The four identifiers are pairwise distinct, so an identifier names one column. */
  lemma ColumnIdInjective(a: Column, b: Column)
    ensures ColumnId(a) == ColumnId(b) ==> a == b
  {
  }

  /** Every column's identifier is recognised as that column. */
  lemma ParseColumnId(c: Column)
    ensures ParseColumn(ColumnId(c)) == Some(c)
  {
  }

  /** The four titles are pairwise distinct. */
  lemma ColumnTitlesDistinct(a: Column, b: Column)
    ensures ColumnTitle(a) == ColumnTitle(b) ==> a == b
  {
  }

  /** The page size is positive, so the page count `ceil(n / TasksPerPage)` is well defined. */
  lemma PageSizePositive()
    ensures TasksPerPage > 0
  {
  }
}
