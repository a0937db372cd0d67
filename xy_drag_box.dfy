/**
 * The drag box of an XY plot (class `Plottable.Interaction.XYDragBox`): a
 * rectangle drawn between the drag origin and the pointer, whose edges can be
 * grabbed to resize it along one dimension or both.
 *
 * The rectangle's DOM attributes are four integers. The base-class tests
 * `_isCloseEnough` (is a coordinate near an edge) and `_isResizeStartAttr` (did
 * the drag start on an edge of a dimension) are outside this model: the first
 * is the arrow-typed field `isCloseEnough`, the second arrives as the boolean
 * arguments of `IsResizeStart`.
 */
module XYDragBoxInteraction {
  import opened Wrappers
  import opened Numeric

  /** The `x`, `y`, `width` and `height` attributes of the box. */
  datatype Rect = Rect(x: int, y: int, width: int, height: int)

  /** The start and the extent of the segment between two coordinates of one dimension. */
  datatype Extent = Extent(start: int, size: int)

  /** `start = min(a, b)` and `size = |a - b|`: the segment `[start, start + size]` spans `a` and `b`. */
  function Span(a: int, b: int): (e: Extent)
    ensures e.size >= 0
    ensures e.start <= a && e.start <= b && a <= e.start + e.size && b <= e.start + e.size
    ensures (e.start == a && e.start + e.size == b) || (e.start == b && e.start + e.size == a)
    ensures e.size > 0 <==> a != b
  {
    Extent(Min(a, b), Abs(a - b))
  }

  /** Whether `setBox` updates the x dimension. */
  predicate UpdatesX(resizeEnabled: bool, isResizingX: bool, isResizingY: bool)
  {
    !resizeEnabled || isResizingX || !isResizingY
  }

  /** Whether `setBox` updates the y dimension. */
  predicate UpdatesY(resizeEnabled: bool, isResizingX: bool, isResizingY: bool)
  {
    !resizeEnabled || isResizingY || !isResizingX
  }

  /**
   * Every flag combination updates some dimension; with resizing disabled or
   * no edge grabbed both are updated, and a dimension is skipped only while
   * the other one alone is being resized.
   */
  lemma UpdatedDimensions(resizeEnabled: bool, isResizingX: bool, isResizingY: bool)
    ensures UpdatesX(resizeEnabled, isResizingX, isResizingY) || UpdatesY(resizeEnabled, isResizingX, isResizingY)
    ensures !resizeEnabled || (!isResizingX && !isResizingY) ==>
      UpdatesX(resizeEnabled, isResizingX, isResizingY) && UpdatesY(resizeEnabled, isResizingX, isResizingY)
    ensures !UpdatesX(resizeEnabled, isResizingX, isResizingY) <==> resizeEnabled && isResizingY && !isResizingX
    ensures !UpdatesY(resizeEnabled, isResizingX, isResizingY) <==> resizeEnabled && isResizingX && !isResizingY
  {
  }

  /** Which edges of the box a point is close to. */
  datatype Edges = Edges(left: bool, top: bool, right: bool, bottom: bool)

  const CursorStyles: set<string> := {"", "nwse-resize", "nesw-resize", "ew-resize", "ns-resize"}

  /**
   * The cursor for a point: nothing outside the padded box, a diagonal resize
   * on a corner, a horizontal resize on the left or right edge alone, a
   * vertical one on the top or bottom edge alone, and nothing inside.
   */
  function CursorFor(hovering: bool, e: Edges): (s: string)
    ensures s in CursorStyles
    ensures s == "nwse-resize" <==> hovering && ((e.left && e.top) || (e.bottom && e.right))
    ensures s == "nesw-resize" <==>
      hovering && !((e.left && e.top) || (e.bottom && e.right)) && ((e.top && e.right) || (e.bottom && e.left))
    ensures s == "ew-resize" <==> hovering && (e.left || e.right) && !e.top && !e.bottom
    ensures s == "ns-resize" <==> hovering && (e.top || e.bottom) && !e.left && !e.right
    ensures s == "" <==> !hovering || !(e.left || e.top || e.right || e.bottom)
  {
    if !hovering then ""
    else if (e.left && e.top) || (e.bottom && e.right) then "nwse-resize"
    else if (e.top && e.right) || (e.bottom && e.left) then "nesw-resize"
    else if e.left || e.right then "ew-resize"
    else if e.top || e.bottom then "ns-resize"
    else ""
  }

  class XYDragBox {
    var isResizingX: bool
    var isResizingY: bool
    var resizeEnabled: bool
    var resizePadding: int
    var dragBox: Option<Rect>
    var boxIsDrawn: bool
    /** The base class's `_isCloseEnough(value, edge)`. */
    const isCloseEnough: (int, int) -> bool

    constructor (resizeEnabled: bool, resizePadding: int, dragBox: Option<Rect>, isCloseEnough: (int, int) -> bool)
      ensures !isResizingX && !isResizingY && !boxIsDrawn
      ensures this.resizeEnabled == resizeEnabled && this.resizePadding == resizePadding
      ensures this.dragBox == dragBox && this.isCloseEnough == isCloseEnough
    {
      isResizingX := false;
      isResizingY := false;
      this.resizeEnabled := resizeEnabled;
      this.resizePadding := resizePadding;
      this.dragBox := dragBox;
      boxIsDrawn := false;
      this.isCloseEnough := isCloseEnough;
    }

    /**
     * `setBox(x0, x1, y0, y1)`: stretches the box between the two corners in
     * the dimensions the resize flags allow, keeps the other attributes, and
     * records whether the box has positive extent in every updated dimension.
     * Without a box nothing happens.
     */
    method SetBox(x0: int, x1: int, y0: int, y1: int)
      modifies this`dragBox, this`boxIsDrawn
      ensures old(dragBox).None? ==> dragBox == old(dragBox) && boxIsDrawn == old(boxIsDrawn)
      ensures old(dragBox).Some? ==> (
        var updX := UpdatesX(resizeEnabled, isResizingX, isResizingY);
        var updY := UpdatesY(resizeEnabled, isResizingX, isResizingY);
        dragBox.Some? &&
        var b, b0 := dragBox.value, old(dragBox).value;
        (updX ==> Extent(b.x, b.width) == Span(x0, x1)) &&
        (!updX ==> b.x == b0.x && b.width == b0.width) &&
        (updY ==> Extent(b.y, b.height) == Span(y0, y1)) &&
        (!updY ==> b.y == b0.y && b.height == b0.height) &&
        (boxIsDrawn <==> (updX ==> x0 != x1) && (updY ==> y0 != y1)))
    {
      if dragBox.None? {
        return;
      }
      var box := dragBox.value;
      var drawnX := true;
      var drawnY := true;
      if !resizeEnabled || isResizingX || !isResizingY {
        box := box.(width := Abs(x0 - x1), x := Min(x0, x1));
        drawnX := box.width > 0;
      }
      if !resizeEnabled || isResizingY || !isResizingX {
        box := box.(height := Abs(y0 - y1), y := Min(y0, y1));
        drawnY := box.height > 0;
      }
      dragBox := Some(box);
      boxIsDrawn := drawnX && drawnY;
    }

    /** `_doDragend`: the resize ends in both dimensions. */
    method DoDragend()
      modifies this`isResizingX, this`isResizingY
      ensures !isResizingX && !isResizingY
    {
      isResizingX := false;
      isResizingY := false;
    }

    /**
     * `_isResizeStart`: `onXEdge` and `onYEdge` are the base class's edge tests
     * for the two dimensions; a resize starts when either holds.
     */
    method IsResizeStart(onXEdge: bool, onYEdge: bool) returns (r: bool)
      modifies this`isResizingX, this`isResizingY
      ensures isResizingX == onXEdge && isResizingY == onYEdge
      ensures r <==> isResizingX || isResizingY
    {
      isResizingX := onXEdge;
      isResizingY := onYEdge;
      r := isResizingX || isResizingY;
    }

    /** Whether `(x, y)` lies in the box grown by `resizePadding` on every side. */
    predicate Hovering(x: int, y: int)
      reads this
      requires dragBox.Some?
    {
      var b := dragBox.value;
      b.y - resizePadding <= y <= b.y + b.height + resizePadding &&
      b.x - resizePadding <= x <= b.x + b.width + resizePadding
    }

    /** The edges of the box that `(x, y)` is close to. */
    function NearEdges(x: int, y: int): Edges
      reads this
      requires dragBox.Some?
    {
      var b := dragBox.value;
      Edges(isCloseEnough(x, b.x), isCloseEnough(y, b.y),
            isCloseEnough(x, b.x + b.width), isCloseEnough(y, b.y + b.height))
    }

    /** `_cursorStyle(x, y)`: the cursor to show at a point. */
    function CursorStyle(x: int, y: int): (s: string)
      reads this
      requires dragBox.Some?
      ensures s in CursorStyles
      ensures !Hovering(x, y) ==> s == ""
      ensures var e := NearEdges(x, y);
        (s == "nwse-resize" <==> Hovering(x, y) && ((e.left && e.top) || (e.bottom && e.right))) &&
        (s == "ew-resize" <==> Hovering(x, y) && (e.left || e.right) && !e.top && !e.bottom) &&
        (s == "ns-resize" <==> Hovering(x, y) && (e.top || e.bottom) && !e.left && !e.right) &&
        (s == "" <==> !Hovering(x, y) || !(e.left || e.top || e.right || e.bottom))
    {
      if !Hovering(x, y) then "" else CursorFor(true, NearEdges(x, y))
    }
  }
}
