/**
 * The editor's drawing surface (`EditorCanvas`): dragging elements with the
 * mouse, deselecting by clicking the background, and the page buttons.
 * Mouse points arrive as client coordinates; the canvas's bounding box, when
 * the canvas is mounted, is given by its top-left corner.
 */
module EditorCanvas {
  import opened Wrappers
  import opened Schema
  import TemplateEditor

  /** `clientX - rect.left`, `clientY - rect.top`. */
  function Relative(client: Position, corner: Position): (r: Position)
    ensures r.x + corner.x == client.x && r.y + corner.y == client.y
  {
    Position(client.x - corner.x, client.y - corner.y)
  }

  /** The page "Précédent" asks for: `Math.max(1, currentPage - 1)`. */
  function PreviousRequest(page: int): (r: int)
    ensures r >= 1 && (page > 1 ==> r == page - 1) && (page <= 1 ==> r == 1)
  {
    TemplateEditor.PreviousPage(page)
  }

  /** The page "Suivant" asks for: `Math.min(totalPages, currentPage + 1)`. */
  function NextRequest(page: int, totalPages: int): (r: int)
    ensures r <= totalPages
    ensures page < totalPages ==> r == page + 1
    ensures page >= totalPages ==> r == totalPages
  {
    if totalPages < page + 1 then totalPages else page + 1
  }

  /** From a page in range, both buttons ask for a page in range. */
  lemma RequestsStayInRange(page: int, totalPages: int)
    requires 1 <= page <= totalPages
    ensures 1 <= PreviousRequest(page) <= totalPages
    ensures 1 <= NextRequest(page, totalPages) <= totalPages
  {
  }

  class Canvas {
    var isDragging: bool
    var dragOffset: Position

    constructor ()
      ensures !isDragging && dragOffset == Position(0.0, 0.0)
    {
      isDragging := false;
      dragOffset := Position(0.0, 0.0);
    }

    /**
     * `handleMouseDown` on element `index`: when the canvas is mounted, the
     * offset from the element's corner to the mouse is kept, dragging starts
     * and the element is selected (the returned index); otherwise nothing.
     */
    method HandleMouseDown(elements: seq<Element>, index: nat, client: Position, corner: Option<Position>)
      returns (select: Option<nat>)
      requires index < |elements|
      modifies this
      ensures corner.None? ==> select == None && isDragging == old(isDragging) && dragOffset == old(dragOffset)
      ensures corner.Some? ==> select == Some(index) && isDragging
      ensures corner.Some? ==>
        dragOffset == TemplateEditor.DragOffset(Relative(client, corner.value), elements[index].position)
    {
      if corner.None? {
        return None;
      }
      var mouse := Relative(client, corner.value);
      dragOffset := TemplateEditor.DragOffset(mouse, elements[index].position);
      isDragging := true;
      select := Some(index);
    }

    /**
     * `handleMouseMove`: while dragging with a selected element and a mounted
     * canvas, the element is asked to move to the mouse point minus the
     * offset (the returned index and position); otherwise nothing is sent.
     */
    method HandleMouseMove(selected: Option<int>, client: Position, corner: Option<Position>)
      returns (move: Option<(int, Position)>)
      ensures move.Some? <==> isDragging && selected.Some? && corner.Some?
      ensures move.Some? ==>
        move.value == (selected.value, TemplateEditor.DraggedPosition(Relative(client, corner.value), dragOffset))
    {
      if !isDragging || selected.None? {
        return None;
      }
      if corner.None? {
        return None;
      }
      var mouse := Relative(client, corner.value);
      move := Some((selected.value, TemplateEditor.DraggedPosition(mouse, dragOffset)));
    }

    /** `handleMouseUp`, also bound to the mouse leaving the canvas: dragging stops. */
    method HandleMouseUp()
      modifies this
      ensures !isDragging && dragOffset == old(dragOffset)
    {
      isDragging := false;
    }

    /** `handleCanvasClick`: a click on the background itself asks to deselect with -1. */
    method HandleCanvasClick(onBackground: bool) returns (select: Option<int>)
      ensures onBackground ==> select == Some(-1)
      ensures !onBackground ==> select == None
    {
      select := if onBackground then Some(-1) else None;
    }
  }

  /**
   * A move at the point where the element was grabbed, with the canvas where
   * it was, asks for the element's own position.
   */
  lemma GrabAndHoldKeepsPosition(e: Element, client: Position, corner: Position)
    ensures TemplateEditor.DraggedPosition(Relative(client, corner),
      TemplateEditor.DragOffset(Relative(client, corner), e.position)) == e.position
  {
    TemplateEditor.DragRoundTrip(Relative(client, corner), e.position);
  }
}
