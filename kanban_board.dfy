/**
 * The board component's own logic: its copy of the drag state machine, the
 * move and add-card wrappers around the callbacks it is given, the
 * case-insensitive search filter and the header's task count.
 *
 * The callbacks (`onCardMove`, `onCardCreate`) are outside the component: a
 * handler here returns the call it makes, or `None` when it makes none, and
 * whether the callback was supplied is a parameter.
 */
module KanbanBoard {
  import opened KanbanTypes
  import opened JsString
  import opened Store
  import opened DragAndDrop

  // ---------------------------------------------------------------------
  // Search filter
  // ---------------------------------------------------------------------

  /**
   * The filter's test: the lower-cased title includes the lower-cased query,
   * or there is a description and its lower-cased form includes it.
   */
  predicate Matches(card: Card, query: string)
  {
    || Includes(Lower(card.title), Lower(query))
    || (card.description.Some? && Includes(Lower(card.description.value), Lower(query)))
  }

  /** `cards.filter(card => Matches(card, query))`. */
  function FilterCards(cards: seq<Card>, query: string): (r: seq<Card>)
    ensures |r| <= |cards|
    ensures forall c :: c in r <==> c in cards && Matches(c, query)
    decreases |cards|
  {
    if cards == [] then []
    else
      var rest := FilterCards(cards[1..], query);
      assert forall c :: c in cards <==> c == cards[0] || c in cards[1..];
      if Matches(cards[0], query) then [cards[0]] + rest else rest
  }

  /** The filter keeps every matching card as many times as it occurs, and no other card. */
  lemma {:induction false} FilterCounts(cards: seq<Card>, query: string)
    ensures forall c :: multiset(FilterCards(cards, query))[c] == if Matches(c, query) then multiset(cards)[c] else 0
    decreases |cards|
  {
    if cards != [] {
      FilterCounts(cards[1..], query);
      assert cards == [cards[0]] + cards[1..];
    }
  }

  /** `f` lists, in increasing order, positions of `b` holding the elements of `a`. */
  predicate Embeds(a: seq<Card>, b: seq<Card>, f: seq<nat>)
  {
    && |f| == |a|
    && (forall i :: 0 <= i < |f| ==> f[i] < |b| && a[i] == b[f[i]])
    && (forall i, j :: 0 <= i < j < |f| ==> f[i] < f[j])
  }

  /** `a` is `b` with some elements left out and the rest in their order. */
  ghost predicate SubsequenceOf(a: seq<Card>, b: seq<Card>)
  {
    exists f :: Embeds(a, b, f)
  }

  function Shift(f: seq<nat>): (g: seq<nat>)
    ensures |g| == |f|
  {
    seq(|f|, i requires 0 <= i < |f| => f[i] + 1)
  }

  /** An embedding into the tail of `b` shifts into `b`, with or without `b`'s head in front. */
  lemma EmbedsShift(a: seq<Card>, b: seq<Card>, f: seq<nat>)
    requires b != [] && Embeds(a, b[1..], f)
    ensures Embeds(a, b, Shift(f))
    ensures Embeds([b[0]] + a, b, [0] + Shift(f))
  {
    var g := [0] + Shift(f);
    var c := [b[0]] + a;
    forall i | 0 <= i < |g|
      ensures g[i] < |b| && c[i] == b[g[i]]
    {
      if i > 0 {
        assert g[i] == f[i - 1] + 1 && c[i] == a[i - 1];
      }
    }
  }

  /** The filtered cards are a subsequence of the column's cards: same order, nothing added. */
  lemma {:induction false} FilterIsSubsequence(cards: seq<Card>, query: string)
    ensures SubsequenceOf(FilterCards(cards, query), cards)
    decreases |cards|
  {
    var r := FilterCards(cards, query);
    if cards == [] {
      assert Embeds(r, cards, []);
    } else {
      var rest := FilterCards(cards[1..], query);
      FilterIsSubsequence(cards[1..], query);
      var f :| Embeds(rest, cards[1..], f);
      EmbedsShift(rest, cards, f);
      if Matches(cards[0], query) {
        assert Embeds(r, cards, [0] + Shift(f));
      } else {
        assert Embeds(r, cards, Shift(f));
      }
    }
  }

  /** Every column with its cards filtered; the other fields of the column are kept. */
  function FilterColumns(cols: seq<Column>, query: string): (r: seq<Column>)
    ensures |r| == |cols|
  {
    seq(|cols|, k requires 0 <= k < |cols| => cols[k].(cards := FilterCards(cols[k].cards, query)))
  }

  /** `filteredBoard`: the board itself for an empty query, otherwise the board with every column filtered. */
  function FilteredBoard(board: Board, searchQuery: string): Board
  {
    if searchQuery == "" then board
    else board.(columns := FilterColumns(board.columns, searchQuery))
  }

  /**
   * An empty query shows the board itself. Otherwise the board keeps its id,
   * title and columns, in order and with their other fields; each column
   * shows those of its cards that match, in their order, each as many times
   * as the column holds it.
   */
  lemma FilteredBoardSpec(board: Board, searchQuery: string)
    ensures searchQuery == "" ==> FilteredBoard(board, searchQuery) == board
    ensures var r := FilteredBoard(board, searchQuery);
      && r.id == board.id && r.title == board.title
      && |r.columns| == |board.columns|
      && (forall k :: 0 <= k < |r.columns| ==> r.columns[k].(cards := board.columns[k].cards) == board.columns[k])
      && (searchQuery != "" ==>
            forall k :: 0 <= k < |r.columns| ==>
              && SubsequenceOf(r.columns[k].cards, board.columns[k].cards)
              && (forall c :: c in r.columns[k].cards <==> c in board.columns[k].cards && Matches(c, searchQuery))
              && (forall c :: multiset(r.columns[k].cards)[c]
                               == if Matches(c, searchQuery) then multiset(board.columns[k].cards)[c] else 0))
  {
    if searchQuery != "" {
      var r := FilteredBoard(board, searchQuery);
      forall k | 0 <= k < |r.columns|
        ensures SubsequenceOf(r.columns[k].cards, board.columns[k].cards)
        ensures forall c :: multiset(r.columns[k].cards)[c]
                              == if Matches(c, searchQuery) then multiset(board.columns[k].cards)[c] else 0
      {
        FilterIsSubsequence(board.columns[k].cards, searchQuery);
        FilterCounts(board.columns[k].cards, searchQuery);
      }
    }
  }

  /** The search ignores case: two non-empty queries that lower-case alike filter alike. */
  lemma FilterIgnoresCase(board: Board, q1: string, q2: string)
    requires q1 != "" && q2 != "" && Lower(q1) == Lower(q2)
    ensures FilteredBoard(board, q1) == FilteredBoard(board, q2)
  {
    forall cards: seq<Card> ensures FilterCards(cards, q1) == FilterCards(cards, q2)
    {
      FilterSameQuery(cards, q1, q2);
    }
  }

  lemma {:induction false} FilterSameQuery(cards: seq<Card>, q1: string, q2: string)
    requires Lower(q1) == Lower(q2)
    ensures FilterCards(cards, q1) == FilterCards(cards, q2)
    decreases |cards|
  {
    if cards != [] {
      FilterSameQuery(cards[1..], q1, q2);
    }
  }

  // ---------------------------------------------------------------------
  // Task count
  // ---------------------------------------------------------------------

  /** `board.columns.reduce((acc, col) => acc + col.cards.length, 0)`: the number of cards on the board. */
  function TaskCount(cols: seq<Column>): (r: nat)
    ensures r == |AllCardIds(cols)|
    decreases |cols|
  {
    if cols == [] then 0 else |cols[0].cards| + TaskCount(cols[1..])
  }

  /** A move never changes the count of tasks; adding a card raises it by one, deleting a found card lowers it by one. */
  lemma TaskCountChanges(cols: seq<Column>, cardId: string, sourceColumnId: string, targetColumnId: string,
                         newIndex: int, now: Timestamp, columnId: string, data: CardData, id: string)
    ensures TaskCount(Moved(cols, cardId, sourceColumnId, targetColumnId, newIndex, now)) == TaskCount(cols)
    ensures ColumnIndex(cols, columnId).Some? ==> TaskCount(CardAdded(cols, columnId, data, id, now)) == TaskCount(cols) + 1
    ensures ColumnWithCard(cols, cardId).Some? ==> TaskCount(CardDeleted(cols, cardId)) + 1 == TaskCount(cols)
  {
    MoveConservesCards(cols, cardId, sourceColumnId, targetColumnId, newIndex, now);
    CardAddedConserves(cols, columnId, data, id, now);
    CardDeletedConserves(cols, cardId);
  }

  // ---------------------------------------------------------------------
  // The component's state
  // ---------------------------------------------------------------------

  /** `!!addCardColumnId`: a column id is pending and is not the empty string. */
  predicate Pending(addCardColumnId: Option<string>)
  {
    addCardColumnId.Some? && addCardColumnId.value != ""
  }

  /** The board component's three state variables and its handlers. */
  class BoardView {
    var dragState: DragState
    var searchQuery: string
    var addCardColumnId: Option<string>

    constructor()
      ensures dragState == InitialDragState && searchQuery == "" && addCardColumnId == None
    {
      dragState := InitialDragState;
      searchQuery := "";
      addCardColumnId := None;
    }

    /** The add-card modal is open exactly when a column id is pending. */
    predicate ModalOpen()
      reads this
    {
      Pending(addCardColumnId)
    }

    method HandleDragStart(cardId: string, columnId: string)
      modifies this
      ensures dragState == Step(old(dragState), Start(cardId, columnId))
      ensures searchQuery == old(searchQuery) && addCardColumnId == old(addCardColumnId)
    {
      dragState := DragState(true, Some(cardId), Some(columnId), None, None);
    }

    method HandleDragEnd()
      modifies this
      ensures dragState == Step(old(dragState), End)
      ensures searchQuery == old(searchQuery) && addCardColumnId == old(addCardColumnId)
    {
      dragState := InitialDragState;
    }

    method HandleDragOver(columnId: string, index: int)
      modifies this
      ensures dragState == Step(old(dragState), Over(columnId, index))
      ensures searchQuery == old(searchQuery) && addCardColumnId == old(addCardColumnId)
    {
      dragState := dragState.(targetColumnId := Some(columnId), targetIndex := Some(index));
    }

    /**
     * `handleCardMove`: forwards its four arguments unchanged to `onCardMove`
     * when there is one, and then resets the drag state.
     */
    method HandleCardMove(cardId: string, sourceColumnId: string, targetColumnId: string, newIndex: int,
                          hasOnCardMove: bool)
      returns (call: Option<MoveRequest>)
      modifies this
      ensures hasOnCardMove ==> call == Some(MoveRequest(cardId, sourceColumnId, targetColumnId, newIndex))
      ensures !hasOnCardMove ==> call.None?
      ensures dragState == InitialDragState
      ensures searchQuery == old(searchQuery) && addCardColumnId == old(addCardColumnId)
    {
      call := None;
      if hasOnCardMove {
        call := Some(MoveRequest(cardId, sourceColumnId, targetColumnId, newIndex));
      }
      dragState := InitialDragState;
    }

    /** `handleCardCreate`: remembers the column the modal adds to. */
    method HandleCardCreate(columnId: string)
      modifies this
      ensures addCardColumnId == Some(columnId)
      ensures dragState == old(dragState) && searchQuery == old(searchQuery)
    {
      addCardColumnId := Some(columnId);
    }

    /**
     * `handleAddCard`: the title, description and priority typed into the
     * modal are discarded; when a column id is pending and `onCardCreate` is
     * supplied, only that id is forwarded. The pending id is cleared either way.
     */
    method HandleAddCard(title: string, description: string, priority: Priority, hasOnCardCreate: bool)
      returns (call: Option<string>)
      modifies this
      ensures call.Some? <==> Pending(old(addCardColumnId)) && hasOnCardCreate
      ensures call.Some? ==> call == old(addCardColumnId)
      ensures addCardColumnId == None && !ModalOpen()
      ensures dragState == old(dragState) && searchQuery == old(searchQuery)
    {
      call := None;
      if Pending(addCardColumnId) && hasOnCardCreate {
        call := addCardColumnId;
      }
      addCardColumnId := None;
    }

    /** The modal's close button. */
    method CloseModal()
      modifies this
      ensures addCardColumnId == None
      ensures dragState == old(dragState) && searchQuery == old(searchQuery)
    {
      addCardColumnId := None;
    }

    /** The search box's change handler. */
    method SetSearchQuery(query: string)
      modifies this
      ensures searchQuery == query
      ensures dragState == old(dragState) && addCardColumnId == old(addCardColumnId)
    {
      searchQuery := query;
    }
  }
}
