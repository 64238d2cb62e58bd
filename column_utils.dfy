/**
 * The column helpers of the board: reordering the column list, the two
 * work-in-progress limit predicates and the status colour lookup.
 */
module ColumnUtils {
  import opened KanbanTypes
  import opened ArraySplice
  import opened Store
  import opened TaskUtils

  /**
   * `reorderColumns(columns, startIndex, endIndex)`: the same remove-then-insert
   * on a copy as `reorderTasks`, after which every column's `order` is set to
   * its new index.
   */
  function ReorderColumns(columns: seq<Column>, startIndex: int, endIndex: int): (r: seq<Column>)
    requires 0 < |columns| && startIndex < |columns|
    ensures |r| == |columns|
    ensures DenseColumns(r)
  {
    RenumberedColumns(ReorderTasks(columns, startIndex, endIndex))
  }

  /** The columns with their `order` fields blanked out. */
  function Unordered(cols: seq<Column>): (r: seq<Column>)
    ensures |r| == |cols|
  {
    seq(|cols|, i requires 0 <= i < |cols| => cols[i].(order := 0))
  }

  /**
   * Column `j` of the result is the column the move puts there (see
   * `Shifted`), with `order` set to `j`.
   */
  lemma ReorderColumnsAt(columns: seq<Column>, startIndex: int, endIndex: int)
    requires 0 < |columns| && startIndex < |columns|
    ensures var i := StartIndex(startIndex, |columns|);
      var k := Landing(|columns|, endIndex);
      forall j :: 0 <= j < |columns| ==>
        ReorderColumns(columns, startIndex, endIndex)[j] == Shifted(columns, i, k, j).(order := j)
  {
    ReorderTasksAt(columns, startIndex, endIndex);
  }

  /** Apart from `order`, `reorderColumns` moves the columns exactly as `reorderTasks` moves tasks. */
  lemma UnorderedReorder(columns: seq<Column>, startIndex: int, endIndex: int)
    requires 0 < |columns| && startIndex < |columns|
    ensures Unordered(ReorderColumns(columns, startIndex, endIndex))
         == ReorderTasks(Unordered(columns), startIndex, endIndex)
  {
    var i := StartIndex(startIndex, |columns|);
    var k := Landing(|columns|, endIndex);
    var a := Unordered(ReorderColumns(columns, startIndex, endIndex));
    var b := ReorderTasks(Unordered(columns), startIndex, endIndex);
    ReorderColumnsAt(columns, startIndex, endIndex);
    ReorderTasksAt(Unordered(columns), startIndex, endIndex);
    forall j | 0 <= j < |columns|
      ensures a[j] == b[j]
    {
      assert b[j] == Shifted(Unordered(columns), i, k, j);
    }
  }

  /** Apart from `order`, the result is a permutation of the input columns. */
  lemma ReorderColumnsPermutes(columns: seq<Column>, startIndex: int, endIndex: int)
    requires 0 < |columns| && startIndex < |columns|
    ensures multiset(Unordered(ReorderColumns(columns, startIndex, endIndex))) == multiset(Unordered(columns))
  {
    UnorderedReorder(columns, startIndex, endIndex);
    ReorderTasksPermutes(Unordered(columns), startIndex, endIndex);
  }

  /**
   * The moved column ends at `endIndex` clamped to `n - 1`, carrying that
   * index as its `order`; the other columns keep their relative order.
   */
  lemma ReorderColumnsMovesOne(columns: seq<Column>, startIndex: int, endIndex: int)
    requires 0 < |columns| && startIndex < |columns|
    ensures var r := ReorderColumns(columns, startIndex, endIndex);
      var i := StartIndex(startIndex, |columns|);
      var k := Landing(|columns|, endIndex);
      && r[k] == columns[i].(order := k)
      && Removed(Unordered(r), k) == Removed(Unordered(columns), i)
  {
    ReorderColumnsAt(columns, startIndex, endIndex);
    UnorderedReorder(columns, startIndex, endIndex);
    ReorderTasksMovesOne(Unordered(columns), startIndex, endIndex);
  }

  /** `!column.limit` fails: the limit is present and not 0. */
  predicate HasLimit(column: Column)
  {
    column.limit.Some? && column.limit.value != 0
  }

  /** `isAtWIPLimit(column)`. */
  function IsAtWIPLimit(column: Column): (r: bool)
    ensures !HasLimit(column) ==> !r
    ensures HasLimit(column) ==> (r <==> |column.cards| >= column.limit.value)
  {
    if !HasLimit(column) then false else |column.cards| >= column.limit.value
  }

  /** `isOverWIPLimit(column)`. */
  function IsOverWIPLimit(column: Column): (r: bool)
    ensures !HasLimit(column) ==> !r
    ensures HasLimit(column) ==> (r <==> |column.cards| > column.limit.value)
  {
    if !HasLimit(column) then false else |column.cards| > column.limit.value
  }

  /**
   * Being over the limit implies being at it; a column below its limit that
   * gains one card is at most at its limit, never over it.
   */
  lemma WIPLimits(column: Column, card: Card)
    ensures IsOverWIPLimit(column) ==> IsAtWIPLimit(column)
    ensures !IsAtWIPLimit(column) ==> !IsOverWIPLimit(column.(cards := column.cards + [card]))
  {
  }

  /** The status names the source uses as keys. */
  function StatusName(s: ColumnStatus): string
  {
    match s
    case Todo => "todo"
    case InProgress => "in-progress"
    case Review => "review"
    case Done => "done"
  }

  const StatusColors: map<string, string> :=
    map["todo" := "bg-kanban-todo", "in-progress" := "bg-kanban-progress",
        "review" := "bg-kanban-review", "done" := "bg-kanban-done"]

  /** `getColumnStatusColor(status)`: the table entry, or the todo class for a name not in the table. */
  function GetColumnStatusColor(status: string): string
  {
    if status in StatusColors && StatusColors[status] != "" then StatusColors[status]
    else StatusColors["todo"]
  }

  /**
   * Each of the four statuses gets its own class, different from the others';
   * every other name gets the todo class.
   */
  lemma GetColumnStatusColorSpec(status: string)
    ensures forall s, t :: GetColumnStatusColor(StatusName(s)) == GetColumnStatusColor(StatusName(t)) ==> s == t
    ensures (forall s :: status != StatusName(s)) ==> GetColumnStatusColor(status) == "bg-kanban-todo"
  {
    if forall s :: status != StatusName(s) {
      assert status != StatusName(Todo) && status != StatusName(InProgress);
      assert status != StatusName(Review) && status != StatusName(Done);
    }
  }
}
