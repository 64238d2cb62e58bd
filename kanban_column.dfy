/**
 * The column component's own logic: where a dragged card would be inserted,
 * what a drop asks the board to do, the limit check that disables the add
 * buttons, and the title editor.
 *
 * The DOM is abstracted: what the column finds when a drag passes over it is
 * a `ColumnLayout`, and each child of the cards container is represented by
 * the vertical midpoint of its bounding box.
 */
module KanbanColumn {
  import opened KanbanTypes
  import opened ArraySplice
  import opened JsString
  import opened Store
  import opened ColumnUtils
  import opened DragAndDrop

  // ---------------------------------------------------------------------
  // Insertion index
  // ---------------------------------------------------------------------

  /** The first position whose midpoint lies below the pointer, or the number of children if none does. */
  function InsertionPoint(mids: seq<int>, pointerY: int): (r: nat)
    ensures r <= |mids|
    ensures forall j :: 0 <= j < r ==> mids[j] <= pointerY
    ensures r < |mids| ==> pointerY < mids[r]
    decreases |mids|
  {
    if mids == [] then 0
    else if pointerY < mids[0] then 0
    else 1 + InsertionPoint(mids[1..], pointerY)
  }

  /** The `for` loop of `handleDragOver`, which stops at the first midpoint below the pointer. */
  method InsertIndex(mids: seq<int>, pointerY: int) returns (insertIndex: nat)
    ensures insertIndex == InsertionPoint(mids, pointerY)
  {
    insertIndex := |mids|;
    for i := 0 to |mids|
      invariant insertIndex == |mids|
      invariant forall j :: 0 <= j < i ==> mids[j] <= pointerY
    {
      if pointerY < mids[i] {
        insertIndex := i;
        break;
      }
    }
  }

  /** What `handleDragOver` finds: no column element yet, a column without a cards container, or the container's children. */
  datatype ColumnLayout =
    | Unmounted
    | NoCardsContainer
    | CardsContainer(midpoints: seq<int>)

  // ---------------------------------------------------------------------
  // Drop
  // ---------------------------------------------------------------------

  /** A string or `null` that is truthy: present and not empty. */
  predicate Truthy(s: Option<string>)
  {
    s.Some? && s.value != ""
  }

  /**
   * The `onCardMove` call of `handleDrop`, given the card id carried by the
   * drag data: none when that id is empty or no source column is recorded;
   * otherwise a move of that card from the recorded source into this column
   * at the recorded target index, or at the end when none is recorded.
   */
  function DropRequest(column: Column, cardId: string, drag: DragState): (r: Option<MoveRequest>)
    ensures r.None? <==> cardId == "" || !Truthy(drag.sourceColumnId)
    ensures r.Some? ==> r.value.cardId == cardId && r.value.sourceColumnId == drag.sourceColumnId.value
                        && r.value.targetColumnId == column.id
    ensures r.Some? ==> r.value.newIndex == if drag.targetIndex.Some? then drag.targetIndex.value else |column.cards|
  {
    if cardId == "" || !Truthy(drag.sourceColumnId) then None
    else
      var targetIndex := if drag.targetIndex.Some? then drag.targetIndex.value else |column.cards|;
      Some(MoveRequest(cardId, drag.sourceColumnId.value, column.id, targetIndex))
  }

  /**
   * A drop that ends a gesture of the drag hook (a start for `cardId` in
   * column `source` and then drag overs) asks to move that card from
   * `source` into this column, at the index of the last drag over, or at the
   * end when there was no drag over.
   */
  lemma DropAfterGesture(s: DragState, column: Column, cardId: string, source: string, overs: seq<DragEvent>)
    requires cardId != "" && source != "" && AllOvers(overs)
    ensures var drag := Run(s, [Start(cardId, source)] + overs);
      var index := if overs == [] then |column.cards| else overs[|overs| - 1].index;
      DropRequest(column, cardId, drag) == Some(MoveRequest(cardId, source, column.id, index))
  {
    RunAppend(s, [Start(cardId, source)], overs);
    OversKeepDrag(Started(cardId, source), overs);
  }

  // ---------------------------------------------------------------------
  // Finding: a drop below the dragged card, in its own column
  // ---------------------------------------------------------------------

  /**
   * Where a card dragged from position `p` of a column and dropped at gap
   * `g` of that same column belongs: put it in gap `g` of the column as it
   * was displayed, then take out its old copy.
   */
  function IntendedDrop<T>(cards: seq<T>, p: nat, g: nat, x: T): seq<T>
    requires p < |cards| && g <= |cards|
  {
    Removed(cards[..g] + [x] + cards[g..], if p < g then p else p + 1)
  }

  /**
   * The as-written path: the index comes from the displayed cards, with the
   * dragged card still among them, and `moveCard` applies it after taking
   * the card out. Three cards with midpoints 10, 30 and 50, the first one
   * dragged and dropped at height 40 (between the second and the third):
   * the index is 2, and the card ends after the third card instead of
   * between the second and the third.
   */
  lemma SameColumnDropOvershoots()
    ensures InsertionPoint([10, 30, 50], 40) == 2
    ensures Inserted(Removed([1, 2, 3], 0), 2, 1) == [2, 3, 1]
    ensures IntendedDrop([1, 2, 3], 0, 2, 1) == [2, 1, 3]
  {
    assert InsertionPoint([30, 50], 40) == 1 by {
      assert [30, 50][1..] == [50];
    }
    assert [10, 30, 50][1..] == [30, 50];
    assert Removed([1, 2, 3], 0) == [2, 3];
    assert [1, 2, 3][..2] + [1] + [1, 2, 3][2..] == [1, 2, 1, 3];
  }

  /**
   * The index that lands the card where it was dropped: one less when the
   * card comes from this column at a position before the index.
   */
  function CorrectedDropIndex(column: Column, cardId: string, drag: DragState, index: int): (r: int)
    ensures r == index || r == index - 1
  {
    if drag.sourceColumnId == Some(column.id) then
      match CardIndex(column.cards, cardId)
      case Some(p) => if p < index then index - 1 else index
      case None => index
    else index
  }

  /** A card taken from above gap `g` and put back one position earlier lands in gap `g`. */
  lemma DropBelowLands<T>(cards: seq<T>, p: nat, g: nat)
    requires p < g <= |cards|
    ensures Inserted(Removed(cards, p), g - 1, cards[p]) == IntendedDrop(cards, p, g, cards[p])
  {
    var x := cards[p];
    var rest := Removed(cards, p);
    var t := cards[..g] + [x] + cards[g..];
    assert rest[..g - 1] == cards[..p] + cards[p + 1..g];
    assert rest[g - 1..] == cards[g..];
    assert t[..p] == cards[..p];
    assert t[p + 1..] == cards[p + 1..g] + [x] + cards[g..];
  }

  /** A card taken from below gap `g` and put back at `g` lands in gap `g`. */
  lemma DropAboveLands<T>(cards: seq<T>, p: nat, g: nat)
    requires g <= p < |cards|
    ensures Inserted(Removed(cards, p), g, cards[p]) == IntendedDrop(cards, p, g, cards[p])
  {
    var x := cards[p];
    var rest := Removed(cards, p);
    var t := cards[..g] + [x] + cards[g..];
    assert rest[..g] == cards[..g];
    assert rest[g..] == cards[g..p] + cards[p + 1..];
    assert t[..p + 1] == cards[..g] + [x] + cards[g..p];
    assert t[p + 2..] == cards[p + 1..];
  }

  /**
   * With the corrected index, a card dragged within its own column lands at
   * the gap it was dropped at, before the card whose midpoint lies below the
   * pointer and after every other card above it.
   */
  lemma CorrectedDropLands(column: Column, cardId: string, drag: DragState, g: nat)
    requires drag.sourceColumnId == Some(column.id) && CardIndex(column.cards, cardId).Some?
    requires g <= |column.cards|
    ensures var cards := column.cards;
      var p := CardIndex(cards, cardId).value;
      Inserted(Removed(cards, p), CorrectedDropIndex(column, cardId, drag, g), cards[p])
        == IntendedDrop(cards, p, g, cards[p])
  {
    var p := CardIndex(column.cards, cardId).value;
    if p < g {
      assert CorrectedDropIndex(column, cardId, drag, g) == g - 1;
      DropBelowLands(column.cards, p, g);
    } else {
      assert CorrectedDropIndex(column, cardId, drag, g) == g;
      DropAboveLands(column.cards, p, g);
    }
  }

  /**
   * As written, dropping a card of this column at a gap `g` below it (the
   * gap before the card at `g`) lands it at gap `g + 1` instead: after the
   * card the pointer was above. That is a different place whenever that card
   * is not the dragged card itself.
   */
  lemma AsWrittenDropLandsOneGapLate(column: Column, cardId: string, drag: DragState, g: nat)
    requires drag.sourceColumnId == Some(column.id) && CardIndex(column.cards, cardId).Some?
    requires CardIndex(column.cards, cardId).value < g < |column.cards|
    ensures var cards := column.cards;
      var p := CardIndex(cards, cardId).value;
      && Inserted(Removed(cards, p), g, cards[p]) == IntendedDrop(cards, p, g + 1, cards[p])
      && (cards[g] != cards[p] ==> IntendedDrop(cards, p, g + 1, cards[p]) != IntendedDrop(cards, p, g, cards[p]))
  {
    var cards := column.cards;
    var p := CardIndex(cards, cardId).value;
    CorrectedDropLands(column, cardId, drag, g + 1);
    var a := IntendedDrop(cards, p, g + 1, cards[p]);
    var b := IntendedDrop(cards, p, g, cards[p]);
    assert a[g - 1] == cards[g] by {
      RemovedAt(cards[..g + 1] + [cards[p]] + cards[g + 1..], p, g - 1);
    }
    assert b[g - 1] == cards[p] by {
      RemovedAt(cards[..g] + [cards[p]] + cards[g..], p, g - 1);
    }
  }

  /** The corrected drop request: `DropRequest` with its index passed through `CorrectedDropIndex`. */
  function CorrectedDropRequest(column: Column, cardId: string, drag: DragState): (r: Option<MoveRequest>)
    ensures r.None? <==> DropRequest(column, cardId, drag).None?
    ensures r.Some? ==> r.value == DropRequest(column, cardId, drag).value.(newIndex :=
      CorrectedDropIndex(column, cardId, drag, DropRequest(column, cardId, drag).value.newIndex))
  {
    match DropRequest(column, cardId, drag)
    case None => None
    case Some(m) => Some(m.(newIndex := CorrectedDropIndex(column, cardId, drag, m.newIndex)))
  }

  // ---------------------------------------------------------------------
  // Limit
  // ---------------------------------------------------------------------

  /** `column.limit && column.cards.length >= column.limit`, taken as a truth value. */
  predicate IsOverLimit(column: Column)
  {
    column.limit.Some? && column.limit.value != 0 && |column.cards| >= column.limit.value
  }

  /** The column's own limit check is the shared `isAtWIPLimit`. */
  lemma IsOverLimitIsAtWIPLimit(column: Column)
    ensures IsOverLimit(column) <==> IsAtWIPLimit(column)
  {
  }

  /**
   * What a click on either add button asks for: the column's id, unless the
   * column is at its limit and the buttons are disabled.
   */
  function AddCardClick(column: Column): (r: Option<string>)
    ensures r.Some? ==> r.value == column.id
  {
    if IsOverLimit(column) then None else Some(column.id)
  }

  /**
   * The add buttons work exactly when the column is not at its limit, so a
   * card added through them never takes the column over its limit.
   */
  lemma AddCardClickRespectsLimit(column: Column, card: Card)
    ensures AddCardClick(column).Some? <==> !IsAtWIPLimit(column)
    ensures AddCardClick(column).Some? ==> !IsOverWIPLimit(column.(cards := column.cards + [card]))
  {
    WIPLimits(column, card);
  }

  // ---------------------------------------------------------------------
  // Title editor
  // ---------------------------------------------------------------------

  /** The title `handleTitleSubmit` sends to `onColumnUpdate`, or `None` when it sends nothing. */
  function SubmittedTitle(editTitle: string, title: string): Option<string>
  {
    if Trim(editTitle) != "" && editTitle != title then Some(Trim(editTitle)) else None
  }

  /**
   * A title is sent exactly when the edit is not blank and differs from the
   * current title as typed; what is sent is the edit without its surrounding
   * white space, so it is not empty and trimming it again changes nothing.
   */
  lemma SubmittedTitleSpec(editTitle: string, title: string)
    ensures SubmittedTitle(editTitle, title).Some? <==>
      (exists k :: 0 <= k < |editTitle| && !IsWhiteSpace(editTitle[k])) && editTitle != title
    ensures SubmittedTitle(editTitle, title).Some? ==>
      var t := SubmittedTitle(editTitle, title).value;
      t != "" && Trim(t) == t && !IsWhiteSpace(t[0]) && !IsWhiteSpace(t[|t| - 1])
  {
    TrimEmptyIff(editTitle);
    TrimEdges(editTitle);
    TrimIdempotent(editTitle);
  }

  /** The column component's own state: the title editor and the drop indicator. */
  class ColumnView {
    var isEditing: bool
    var editTitle: string
    var dropIndicatorIndex: Option<int>

    constructor(column: Column)
      ensures !isEditing && editTitle == column.title && dropIndicatorIndex.None?
    {
      isEditing := false;
      editTitle := column.title;
      dropIndicatorIndex := None;
    }

    /**
     * `handleDragOver`: reports nothing before the column is mounted, index 0
     * when there is no cards container, and otherwise the insertion point of
     * the pointer among the container's children; the drop indicator shows
     * the reported index.
     */
    method HandleDragOver(column: Column, layout: ColumnLayout, pointerY: int) returns (report: Option<DragEvent>)
      modifies this
      ensures layout.Unmounted? ==> report.None? && dropIndicatorIndex == old(dropIndicatorIndex)
      ensures layout.NoCardsContainer? ==> report == Some(Over(column.id, 0)) && dropIndicatorIndex == Some(0)
      ensures layout.CardsContainer? ==>
        var k := InsertionPoint(layout.midpoints, pointerY);
        report == Some(Over(column.id, k)) && dropIndicatorIndex == Some(k)
      ensures isEditing == old(isEditing) && editTitle == old(editTitle)
    {
      match layout
      case Unmounted =>
        report := None;
      case NoCardsContainer =>
        dropIndicatorIndex := Some(0);
        report := Some(Over(column.id, 0));
      case CardsContainer(mids) =>
        var insertIndex := InsertIndex(mids, pointerY);
        dropIndicatorIndex := Some(insertIndex);
        report := Some(Over(column.id, insertIndex));
    }

    /** `handleDragLeave`: the indicator goes away when the pointer leaves the column element. */
    method HandleDragLeave(stillInside: bool)
      modifies this
      ensures dropIndicatorIndex == if stillInside then old(dropIndicatorIndex) else None
      ensures isEditing == old(isEditing) && editTitle == old(editTitle)
    {
      if !stillInside {
        dropIndicatorIndex := None;
      }
    }

    /**
     * `handleDrop`: hides the indicator and, when there is an `onCardMove`,
     * makes the call of `DropRequest` with the index corrected for a card
     * that leaves this same column from above the drop point (see
     * `CorrectedDropIndex`); the index as written is the uncorrected one.
     */
    method HandleDrop(column: Column, cardId: string, drag: DragState, hasOnCardMove: bool)
      returns (call: Option<MoveRequest>)
      modifies this
      ensures call == if hasOnCardMove then CorrectedDropRequest(column, cardId, drag) else None
      ensures dropIndicatorIndex.None?
      ensures isEditing == old(isEditing) && editTitle == old(editTitle)
    {
      dropIndicatorIndex := None;
      call := None;
      if cardId == "" || !Truthy(drag.sourceColumnId) {
        return;
      }
      var targetIndex := if drag.targetIndex.Some? then drag.targetIndex.value else |column.cards|;
      targetIndex := CorrectedDropIndex(column, cardId, drag, targetIndex);
      if hasOnCardMove {
        call := Some(MoveRequest(cardId, drag.sourceColumnId.value, column.id, targetIndex));
      }
    }

    /** A click on the title opens the editor. */
    method StartEditing()
      modifies this
      ensures isEditing && editTitle == old(editTitle) && dropIndicatorIndex == old(dropIndicatorIndex)
    {
      isEditing := true;
    }

    /** The title input's change handler. */
    method SetEditTitle(value: string)
      modifies this
      ensures editTitle == value && isEditing == old(isEditing) && dropIndicatorIndex == old(dropIndicatorIndex)
    {
      editTitle := value;
    }

    /**
     * `handleTitleSubmit`: sends the column with the trimmed title when
     * `SubmittedTitle` gives one, and otherwise puts the current title back
     * into the editor; editing ends in both cases.
     */
    method HandleTitleSubmit(column: Column) returns (update: Option<Column>)
      modifies this
      ensures SubmittedTitle(old(editTitle), column.title).Some? ==>
        update == Some(column.(title := SubmittedTitle(old(editTitle), column.title).value))
        && editTitle == old(editTitle)
      ensures SubmittedTitle(old(editTitle), column.title).None? ==> update.None? && editTitle == column.title
      ensures !isEditing && dropIndicatorIndex == old(dropIndicatorIndex)
    {
      update := None;
      var trimmed := SubmittedTitle(editTitle, column.title);
      if trimmed.Some? {
        update := Some(column.(title := trimmed.value));
      } else {
        editTitle := column.title;
      }
      isEditing := false;
    }

    /** `handleTitleKeyDown`: Enter submits; Escape puts the current title back and ends editing without an update. */
    method HandleTitleKeyDown(column: Column, key: string) returns (update: Option<Column>)
      modifies this
      ensures key == "Enter" ==>
        if SubmittedTitle(old(editTitle), column.title).Some? then
          update == Some(column.(title := SubmittedTitle(old(editTitle), column.title).value)) && editTitle == old(editTitle)
        else update.None? && editTitle == column.title
      ensures key == "Enter" || key == "Escape" ==> !isEditing
      ensures key == "Escape" ==> update.None? && editTitle == column.title
      ensures key != "Enter" && key != "Escape" ==>
        update.None? && isEditing == old(isEditing) && editTitle == old(editTitle)
      ensures dropIndicatorIndex == old(dropIndicatorIndex)
    {
      update := None;
      if key == "Enter" {
        update := HandleTitleSubmit(column);
      } else if key == "Escape" {
        editTitle := column.title;
        isEditing := false;
      }
    }
  }
}
