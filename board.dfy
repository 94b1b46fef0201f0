/**
 * The board's drop handler: from the drop result of one completed drag it
 * decides whether to ask for a move, and with which task identifier and column.
 * Only the column is ever sent; the position inside the column is not.
 */
module Board {
  import opened Wrappers
  import opened Constants
  import opened JsString

  /** A drop target and a position in it; `droppableId` is a column identifier string. */
  datatype DraggableLocation = DraggableLocation(droppableId: string, index: int)

  /** What the drag-and-drop library reports when a drag ends; no destination means dropped outside. */
  datatype DropResult = DropResult(
    draggableId: string,
    source: DraggableLocation,
    destination: Option<DraggableLocation>)

  /** The argument of `moveTask`; an identifier of None is the NaN that `parseInt` gives for a non-number. */
  datatype MoveRequest = MoveRequest(id: Option<int>, column: Column)

  /** Which step of the handler ends it. Only `Move` issues a request; `InvalidColumn` also logs an error. */
  datatype DragDecision =
    | DroppedOutside
    | SameSlot
    | InvalidColumn(droppableId: string)
    | Move(request: MoveRequest)

  predicate IsSameSlot(source: DraggableLocation, destination: DraggableLocation) {
    destination.droppableId == source.droppableId && destination.index == source.index
  }

  /** `handleDragEnd`: its guards in order (outside, same slot, unknown column), then the move. */
  function HandleDragEnd(r: DropResult): (d: DragDecision)
    ensures d == DroppedOutside <==> r.destination.None?
    ensures d == SameSlot <==> r.destination.Some? && IsSameSlot(r.source, r.destination.value)
    ensures d.InvalidColumn? ==>
              d.droppableId == r.destination.value.droppableId
              && forall c: Column :: ColumnId(c) != d.droppableId
  {
    match r.destination
    case None => DroppedOutside
    case Some(dest) =>
      if IsSameSlot(r.source, dest) then SameSlot
      else match ParseColumn(dest.droppableId)
        case None => InvalidColumn(dest.droppableId)
        case Some(c) => Move(MoveRequest(ParseInt(r.draggableId), c))
  }

  /**
   * The move request a drop issues, if any: exactly the drops that pass all
   * three guards issue one, with the parsed card identifier and the column the
   * card was dropped on.
   */
  function IssuedMove(r: DropResult): (m: Option<MoveRequest>)
    ensures m.Some? <==> HandleDragEnd(r).Move?
    ensures m.Some? <==>
              r.destination.Some? && !IsSameSlot(r.source, r.destination.value)
              && exists c: Column :: ColumnId(c) == r.destination.value.droppableId
    ensures m.Some? ==>
              m.value.id == ParseInt(r.draggableId)
              && ColumnId(m.value.column) == r.destination.value.droppableId
  {
    match HandleDragEnd(r)
    case Move(req) => Some(req)
    case _ => None
  }

  /** A drop outside every column issues nothing. */
  lemma NoDestinationNoMove(r: DropResult)
    requires r.destination.None?
    ensures IssuedMove(r).None? && HandleDragEnd(r) == DroppedOutside
  {
  }

  /** A drop back on the slot it came from issues nothing, whatever the target's identifier is. */
  lemma SameSlotNoMove(r: DropResult)
    requires r.destination.Some? && IsSameSlot(r.source, r.destination.value)
    ensures IssuedMove(r).None? && HandleDragEnd(r) == SameSlot
  {
  }

  /** A drop on a target that is not one of the four columns issues nothing and is logged. */
  lemma UnknownColumnNoMove(r: DropResult)
    requires r.destination.Some? && !IsSameSlot(r.source, r.destination.value)
    requires forall c: Column :: ColumnId(c) != r.destination.value.droppableId
    ensures IssuedMove(r).None?
    ensures HandleDragEnd(r) == InvalidColumn(r.destination.value.droppableId)
  {
  }

  /** A card's draggable id is its task identifier as text, so the request carries that identifier. */
  lemma MoveCarriesCardId(r: DropResult, id: int, c: Column)
    requires r.draggableId == IntToString(id)
    requires r.destination.Some? && r.destination.value.droppableId == ColumnId(c)
    requires !IsSameSlot(r.source, r.destination.value)
    ensures IssuedMove(r) == Some(MoveRequest(Some(id), c))
  {
    ParseIntToString(id);
    ParseColumnId(c);
  }

  /** Moving a card inside its own column still requests a move, to the same column; the index is dropped. */
  lemma ReorderInColumnSendsSameColumn(r: DropResult, c: Column)
    requires r.source.droppableId == ColumnId(c)
    requires r.destination.Some? && r.destination.value.droppableId == ColumnId(c)
    requires r.destination.value.index != r.source.index
    ensures IssuedMove(r) == Some(MoveRequest(ParseInt(r.draggableId), c))
  {
    ParseColumnId(c);
  }

  /** The guards are tried in order: being the same slot wins over an unknown column. */
  lemma SameSlotCheckedBeforeColumn(r: DropResult)
    requires r.destination.Some? && IsSameSlot(r.source, r.destination.value)
    requires ParseColumn(r.destination.value.droppableId).None?
    ensures HandleDragEnd(r) == SameSlot
  {
  }

  /** Dragging task 7 from the backlog's first slot to third place in review asks to move task 7 to review. */
  lemma DropSevenOnReview()
    ensures IssuedMove(DropResult("7", DraggableLocation("backlog", 0), Some(DraggableLocation("review", 2))))
            == Some(MoveRequest(Some(7), Review))
  {
    MoveCarriesCardId(DropResult("7", DraggableLocation("backlog", 0), Some(DraggableLocation("review", 2))), 7, Review);
  }
}
