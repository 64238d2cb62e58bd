/**
 * The board data model: a Board holds Columns, a Column holds Cards, and a
 * transient DragState records a drag gesture in progress.
 *
 * Dates are opaque timestamps supplied by the caller (the model has no clock),
 * ids are plain strings supplied by the caller (the model has no random source).
 */
module KanbanTypes {

  datatype Option<T> = None | Some(value: T)

  /** A point in time, as passed in by the caller in place of `new Date()`. */
  type Timestamp = int

  datatype Priority = Low | Medium | High

  datatype ColumnStatus = Todo | InProgress | Review | Done

  datatype User = User(id: string, name: string, avatar: Option<string>, initials: string)

  datatype Label = Label(id: string, name: string, color: string)

  datatype Card = Card(
    id: string,
    title: string,
    description: Option<string>,
    columnId: string,
    priority: Priority,
    labels: seq<Label>,
    assignees: seq<User>,
    dueDate: Option<Timestamp>,
    createdAt: Timestamp,
    updatedAt: Timestamp,
    order: int)

  /** `limit` is the optional work-in-progress limit of the column. */
  datatype Column = Column(
    id: string,
    title: string,
    status: ColumnStatus,
    cards: seq<Card>,
    order: int,
    limit: Option<int>)

  datatype Board = Board(id: string, title: string, columns: seq<Column>)

  /** `null` in the source is `None` here. */
  datatype DragState = DragState(
    isDragging: bool,
    draggedCardId: Option<string>,
    sourceColumnId: Option<string>,
    targetColumnId: Option<string>,
    targetIndex: Option<int>)

  /** No drag in progress: every field false or null. */
  const InitialDragState: DragState := DragState(false, None, None, None, None)

  /** The four arguments of an `onCardMove` call. */
  datatype MoveRequest = MoveRequest(
    cardId: string,
    sourceColumnId: string,
    targetColumnId: string,
    newIndex: int)
}
