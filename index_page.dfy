/**
 * The demo page's own board handlers: a copy-on-write move, a card creation
 * that puts the new card first, and the column creation and replacement the
 * page passes to the board component. Each handler is the updater given to
 * `setBoard`: a function from the previous board to the next one.
 */
module IndexPage {
  import opened KanbanTypes
  import opened ArraySplice
  import opened Store

  // ---------------------------------------------------------------------
  // handleCardMove
  // ---------------------------------------------------------------------

  /**
   * `handleCardMove`: copies the column arrays, splices the card out of the
   * source copy and into the target copy, refreshes its `columnId` and
   * `updatedAt`, renumbers both copies, and returns the previous board
   * itself when a column or the card is missing. The result is the store's
   * `moveCard` result: the two implementations agree.
   */
  method HandleCardMove(prevBoard: Board, cardId: string, sourceColumnId: string, targetColumnId: string,
                        newIndex: int, now: Timestamp)
    returns (next: Board)
    ensures next == prevBoard.(columns := Moved(prevBoard.columns, cardId, sourceColumnId, targetColumnId, newIndex, now))
  {
    var newColumns := prevBoard.columns;
    var si := ColumnIndex(newColumns, sourceColumnId);
    var ti := ColumnIndex(newColumns, targetColumnId);
    if si.None? || ti.None? {
      return prevBoard;
    }
    var s, t := si.value, ti.value;
    var ci := CardIndex(newColumns[s].cards, cardId);
    if ci.None? {
      return prevBoard;
    }
    var c := ci.value;
    var card := newColumns[s].cards[c];
    newColumns := newColumns[s := newColumns[s].(cards := Removed(newColumns[s].cards, c))];
    card := card.(columnId := targetColumnId, updatedAt := now);
    newColumns := newColumns[t := newColumns[t].(cards := Inserted(newColumns[t].cards, newIndex, card))];
    var renumbered := RenumberCards(newColumns[s].cards);
    newColumns := newColumns[s := newColumns[s].(cards := renumbered)];
    renumbered := RenumberCards(newColumns[t].cards);
    newColumns := newColumns[t := newColumns[t].(cards := renumbered)];
    if s == t {
      RenumberedTwice(Inserted(Removed(prevBoard.columns[s].cards, c), newIndex, card));
    }
    next := prevBoard.(columns := newColumns);
  }

  /**
   * The page's move keeps the column list as it was: same length, same ids,
   * same `order` values; only cards change. With a column or the card
   * missing, the board comes back unchanged.
   */
  lemma CardMoveKeepsColumns(prevBoard: Board, cardId: string, sourceColumnId: string, targetColumnId: string,
                             newIndex: int, now: Timestamp)
    ensures var next := prevBoard.(columns := Moved(prevBoard.columns, cardId, sourceColumnId, targetColumnId, newIndex, now));
      && next.id == prevBoard.id && next.title == prevBoard.title
      && |next.columns| == |prevBoard.columns|
      && ColumnIds(next.columns) == ColumnIds(prevBoard.columns)
      && (forall k :: 0 <= k < |next.columns| ==> next.columns[k].order == prevBoard.columns[k].order)
      && (Plan(prevBoard.columns, cardId, sourceColumnId, targetColumnId).None? ==> next == prevBoard)
  {
    var r := Moved(prevBoard.columns, cardId, sourceColumnId, targetColumnId, newIndex, now);
    MoveFrame(prevBoard.columns, cardId, sourceColumnId, targetColumnId, newIndex, now);
    assert forall k :: 0 <= k < |r| ==> r[k].id == prevBoard.columns[k].id && r[k].order == prevBoard.columns[k].order;
  }

  // ---------------------------------------------------------------------
  // handleCardCreate
  // ---------------------------------------------------------------------

  /** The page's new card: "New Task", empty description, medium priority, no labels or assignees, no due date. */
  function PageNewCard(id: string, columnId: string, now: Timestamp): Card
  {
    Card(id, "New Task", Some(""), columnId, Medium, [], [], None, now, now, 0)
  }

  /** `[{ ...newCard, order: 0 }, ...cards.map((c, i) => ({ ...c, order: i + 1 }))]`. */
  function Prepended(cards: seq<Card>, newCard: Card): (r: seq<Card>)
    ensures |r| == |cards| + 1
  {
    [newCard.(order := 0)] + seq(|cards|, i requires 0 <= i < |cards| => cards[i].(order := i + 1))
  }

  /** The board's columns after `handleCardCreate(columnId)` with fresh id `id` at time `now`. */
  function CardCreated(cols: seq<Column>, columnId: string, id: string, now: Timestamp): (r: seq<Column>)
    ensures |r| == |cols|
  {
    seq(|cols|, k requires 0 <= k < |cols| =>
      if cols[k].id == columnId then cols[k].(cards := Prepended(cols[k].cards, PageNewCard(id, columnId, now)))
      else cols[k])
  }

  /**
   * Every column with that id (not just the first) gets the new card in
   * front, with order 0, and its old cards after it, in their order and
   * numbered from 1, so its orders stay dense. Other columns, and the
   * other fields of the matching ones, are unchanged; with no match the
   * columns are as they were.
   */
  lemma CardCreatedSpec(cols: seq<Column>, columnId: string, id: string, now: Timestamp)
    ensures var r := CardCreated(cols, columnId, id, now);
      && (forall k :: 0 <= k < |cols| && cols[k].id != columnId ==> r[k] == cols[k])
      && (forall k :: 0 <= k < |cols| && cols[k].id == columnId ==>
            && r[k].(cards := cols[k].cards) == cols[k]
            && r[k].cards[0] == PageNewCard(id, columnId, now)
            && WithoutOrder(r[k].cards[1..]) == WithoutOrder(cols[k].cards)
            && Dense(r[k].cards))
      && ((forall k :: 0 <= k < |cols| ==> cols[k].id != columnId) ==> r == cols)
  {
    var r := CardCreated(cols, columnId, id, now);
    forall k | 0 <= k < |cols| && cols[k].id == columnId
      ensures WithoutOrder(r[k].cards[1..]) == WithoutOrder(cols[k].cards)
    {
      assert forall i :: 0 <= i < |cols[k].cards| ==> r[k].cards[1..][i] == cols[k].cards[i].(order := i + 1);
    }
  }

  /** Prepending to a well-formed board keeps it well formed, as the store's appending does. */
  lemma CardCreatedPreservesWellFormed(cols: seq<Column>, columnId: string, id: string, now: Timestamp)
    requires WellFormed(cols)
    ensures WellFormed(CardCreated(cols, columnId, id, now))
  {
    var r := CardCreated(cols, columnId, id, now);
    CardCreatedSpec(cols, columnId, id, now);
    forall k | 0 <= k < |r|
      ensures ColumnWellFormed(r[k])
    {
      assert ColumnWellFormed(cols[k]);
      if cols[k].id == columnId {
        var c := cols[k].cards;
        assert forall i :: 1 <= i < |r[k].cards| ==> r[k].cards[i] == c[i - 1].(order := i);
      }
    }
  }

  // ---------------------------------------------------------------------
  // handleColumnCreate, handleColumnUpdate
  // ---------------------------------------------------------------------

  /**
   * The board's columns after `handleColumnCreate()` with fresh id `id`: one
   * empty "New Column" appended. Its `order` is the column count of the
   * board the page last rendered, `renderedCount`, which the handler
   * captured; the updater appends to the previous board it is given.
   */
  function ColumnCreated(cols: seq<Column>, renderedCount: nat, id: string): (r: seq<Column>)
    ensures |r| == |cols| + 1 && r[..|cols|] == cols
    ensures r[|cols|] == Column(id, "New Column", Todo, [], renderedCount, None)
  {
    cols + [Column(id, "New Column", Todo, [], renderedCount, None)]
  }

  /**
   * When the render the handler comes from is the latest, the page appends
   * what the store's `addColumn` appends, with `order` equal to the old
   * column count, and dense column orders stay dense.
   */
  lemma ColumnCreatedAsStore(cols: seq<Column>, id: string)
    ensures ColumnCreated(cols, |cols|, id) == ColumnAdded(cols, ColumnData("New Column", Todo, None), id)
    ensures DenseColumns(cols) ==> DenseColumns(ColumnCreated(cols, |cols|, id))
  {
  }

  /** The board's columns after `handleColumnUpdate(updatedColumn)`. */
  function ColumnReplaced(cols: seq<Column>, updatedColumn: Column): (r: seq<Column>)
    ensures |r| == |cols|
  {
    seq(|cols|, k requires 0 <= k < |cols| => if cols[k].id == updatedColumn.id then updatedColumn else cols[k])
  }

  /**
   * Every column with the updated column's id becomes the updated column;
   * all others stay identical, and with no match the columns are unchanged.
   */
  lemma ColumnReplacedSpec(cols: seq<Column>, updatedColumn: Column)
    ensures var r := ColumnReplaced(cols, updatedColumn);
      && (forall k :: 0 <= k < |cols| ==> r[k] == if cols[k].id == updatedColumn.id then updatedColumn else cols[k])
      && ColumnIds(r) == ColumnIds(cols)
      && ((forall k :: 0 <= k < |cols| ==> cols[k].id != updatedColumn.id) ==> r == cols)
  {
  }

  /**
   * With ids unique, replacing a column by a version of itself with a new
   * title is the store's `updateColumn` with just that title.
   */
  lemma ColumnReplacedAsStore(cols: seq<Column>, k: nat, title: string)
    requires k < |cols|
    requires forall i, j :: 0 <= i < j < |cols| ==> cols[i].id != cols[j].id
    ensures ColumnReplaced(cols, cols[k].(title := title))
         == ColumnUpdated(cols, cols[k].id, ColumnUpdate(None, Some(title), None, None, None, None))
  {
    var u := ColumnUpdate(None, Some(title), None, None, None, None);
    var i := ColumnIndex(cols, cols[k].id);
    assert i == Some(k);
    assert MergeColumn(cols[k], u) == cols[k].(title := title);
  }
}
