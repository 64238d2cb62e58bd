/**
 * The drag-and-drop state machine of `useDragAndDrop`: one `DragState` value
 * that a drag start replaces, a drag over merges into, and a drag end or a
 * reset sets back to the initial state.
 */
module DragAndDrop {
  import opened KanbanTypes

  /** The state `handleDragStart(cardId, columnId)` installs, whatever came before. */
  function Started(cardId: string, columnId: string): DragState
  {
    DragState(true, Some(cardId), Some(columnId), None, None)
  }

  /** `prev` with the two target fields overwritten, as `handleDragOver` merges them. */
  function Hovered(prev: DragState, targetColumnId: string, index: int): DragState
  {
    prev.(targetColumnId := Some(targetColumnId), targetIndex := Some(index))
  }

  /** The four calls the hook offers. */
  datatype DragEvent =
    | Start(cardId: string, columnId: string)
    | Over(targetColumnId: string, index: int)
    | End
    | Reset

  function Step(s: DragState, e: DragEvent): DragState
  {
    match e
    case Start(cardId, columnId) => Started(cardId, columnId)
    case Over(targetColumnId, index) => Hovered(s, targetColumnId, index)
    case End => InitialDragState
    case Reset => InitialDragState
  }

  /** The state after the events, in order. */
  function Run(s: DragState, events: seq<DragEvent>): DragState
    decreases |events|
  {
    if events == [] then s else Run(Step(s, events[0]), events[1..])
  }

  /**
   * The fields that belong together: a drag is in progress exactly when a
   * dragged card is recorded, and exactly then a source column is recorded.
   * The target fields are set together too.
   */
  predicate Consistent(s: DragState)
  {
    && (s.isDragging <==> s.draggedCardId.Some?)
    && (s.draggedCardId.Some? <==> s.sourceColumnId.Some?)
    && (s.targetColumnId.Some? <==> s.targetIndex.Some?)
  }

  /** The initial state is idle with every field null, and consistent. */
  lemma InitialIdle()
    ensures !InitialDragState.isDragging && Consistent(InitialDragState)
    ensures InitialDragState.draggedCardId.None? && InitialDragState.sourceColumnId.None?
    ensures InitialDragState.targetColumnId.None? && InitialDragState.targetIndex.None?
  {
  }

  /** Every event keeps the state consistent. */
  lemma {:induction false} RunConsistent(s: DragState, events: seq<DragEvent>)
    requires Consistent(s)
    ensures Consistent(Run(s, events))
    decreases |events|
  {
    if events != [] {
      RunConsistent(Step(s, events[0]), events[1..]);
    }
  }

  /**
   * A drag start forgets the previous state: it records the card and the
   * source column, sets `isDragging` and clears both target fields.
   */
  lemma StartForgets(s: DragState, t: DragState, cardId: string, columnId: string)
    ensures Step(s, Start(cardId, columnId)) == Step(t, Start(cardId, columnId))
    ensures var r := Step(s, Start(cardId, columnId));
      r.isDragging && r.draggedCardId == Some(cardId) && r.sourceColumnId == Some(columnId)
      && r.targetColumnId.None? && r.targetIndex.None?
  {
  }

  /**
   * A drag over changes only the two target fields, even when no drag is in
   * progress, and the last drag over wins.
   */
  lemma OverOnlyTargets(s: DragState, c: string, i: int, d: string, j: int)
    ensures var r := Step(s, Over(c, i));
      r.isDragging == s.isDragging && r.draggedCardId == s.draggedCardId
      && r.sourceColumnId == s.sourceColumnId
      && r.targetColumnId == Some(c) && r.targetIndex == Some(i)
    ensures Step(Step(s, Over(c, i)), Over(d, j)) == Step(s, Over(d, j))
  {
  }

  /** Ending and resetting both return to the initial state, and doing it again changes nothing. */
  lemma EndIdempotent(s: DragState)
    ensures Step(s, End) == InitialDragState && Step(s, Reset) == InitialDragState
    ensures Step(Step(s, End), End) == Step(s, End)
    ensures Step(Step(s, Reset), Reset) == Step(s, Reset)
  {
  }

  lemma {:induction false} RunAppend(s: DragState, a: seq<DragEvent>, b: seq<DragEvent>)
    ensures Run(s, a + b) == Run(Run(s, a), b)
    decreases |a|
  {
    if a == [] {
      assert a + b == b;
    } else {
      assert (a + b)[0] == a[0];
      assert (a + b)[1..] == a[1..] + b;
      RunAppend(Step(s, a[0]), a[1..], b);
    }
  }

  predicate AllOvers(events: seq<DragEvent>)
  {
    forall k :: 0 <= k < |events| ==> events[k].Over?
  }

  /**
   * During a gesture, the dragged card and source column stay as the start
   * recorded them, and the target is the one of the last drag over (none
   * before the first one).
   */
  lemma {:induction false} OversKeepDrag(s: DragState, overs: seq<DragEvent>)
    requires AllOvers(overs)
    ensures var r := Run(s, overs);
      r.isDragging == s.isDragging && r.draggedCardId == s.draggedCardId
      && r.sourceColumnId == s.sourceColumnId
    ensures overs == [] ==> Run(s, overs) == s
    ensures overs != [] ==>
      && Run(s, overs).targetColumnId == Some(overs[|overs| - 1].targetColumnId)
      && Run(s, overs).targetIndex == Some(overs[|overs| - 1].index)
    decreases |overs|
  {
    if overs != [] {
      var last := overs[|overs| - 1];
      var init := overs[..|overs| - 1];
      assert overs == init + [last];
      assert AllOvers(init);
      RunAppend(s, init, [last]);
      OversKeepDrag(s, init);
    }
  }

  /** Start, any number of drag overs, then end: always back to the initial state. */
  lemma GestureEndsIdle(s: DragState, cardId: string, columnId: string, overs: seq<DragEvent>)
    requires AllOvers(overs)
    ensures var mid := Run(s, [Start(cardId, columnId)] + overs);
      && mid.isDragging && mid.draggedCardId == Some(cardId) && mid.sourceColumnId == Some(columnId)
      && (overs == [] ==> mid.targetColumnId.None? && mid.targetIndex.None?)
    ensures Run(s, [Start(cardId, columnId)] + overs + [End]) == InitialDragState
  {
    var start := [Start(cardId, columnId)];
    RunAppend(s, start, overs);
    OversKeepDrag(Started(cardId, columnId), overs);
    RunAppend(s, start + overs, [End]);
  }

  /** The hook: the current drag state and the four handlers that replace or merge it. */
  class DragAndDropHook {
    var state: DragState

    constructor()
      ensures state == InitialDragState
    {
      state := InitialDragState;
    }

    method HandleDragStart(cardId: string, columnId: string)
      modifies this
      ensures state == Step(old(state), Start(cardId, columnId))
    {
      state := DragState(true, Some(cardId), Some(columnId), None, None);
    }

    method HandleDragOver(targetColumnId: string, index: int)
      modifies this
      ensures state == Step(old(state), Over(targetColumnId, index))
    {
      state := state.(targetColumnId := Some(targetColumnId), targetIndex := Some(index));
    }

    method HandleDragEnd()
      modifies this
      ensures state == Step(old(state), End)
    {
      state := InitialDragState;
    }

    method ResetDragState()
      modifies this
      ensures state == Step(old(state), Reset)
    {
      state := InitialDragState;
    }
  }
}
