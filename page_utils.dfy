/**
 * The page helpers of src/common/utils.js that hold logic: `populateSelector`,
 * which rebuilds a `<select>` and picks its value, and `makeWindowDraggable`,
 * whose handlers move the result window with the mouse.
 */
module PageUtils {
  import opened Wrappers

  /**
   * `options.includes(storedValue) ? storedValue : options[0]`: the stored
   * value when it is one of the options, otherwise the first option, and
   * nothing (`undefined`) when there are no options.
   */
  function ChooseValue(options: seq<string>, stored: Option<string>): (r: Option<string>)
    ensures r.None? <==> options == []
    ensures r.Some? ==> r.value in options
    ensures stored.Some? && stored.value in options ==> r == stored
    ensures (stored.None? || stored.value !in options) && options != [] ==> r == Some(options[0])
  {
    if stored.Some? && stored.value in options then stored
    else if options == [] then None
    else Some(options[0])
  }

  /** A `<select>`: the values of its options in order, and the selected one. */
  class SelectElement {
    var options: seq<string>
    var value: Option<string>

    constructor ()
      ensures options == [] && value == None
    {
      options := [];
      value := None;
    }

    /**
     * `populateSelector(selector, options, storedValue)`: the old options are
     * dropped, one option per value is appended in order, then the value is
     * chosen.
     */
    method PopulateSelector(optionValues: seq<string>, stored: Option<string>)
      modifies this
      ensures options == optionValues
      ensures value == ChooseValue(optionValues, stored)
    {
      options := [];
      var i := 0;
      while i < |optionValues|
        invariant 0 <= i <= |optionValues|
        invariant options == optionValues[..i]
      {
        options := options + [optionValues[i]];
        i := i + 1;
      }
      value := ChooseValue(options, stored);
    }
  }

  /**
   * The state `makeWindowDraggable` keeps for one window: the closure
   * variables of its handlers, the window's `left`/`top` style in pixels and
   * whether it carries the `dragging` class.
   */
  class WindowDrag {
    var isDragging: bool
    var startX: int
    var startY: int
    var initialLeft: int
    var initialTop: int
    var left: int
    var top: int
    var draggingClass: bool

    /** The window carries the `dragging` class exactly while a drag is on. */
    ghost predicate Valid()
      reads this
    {
      draggingClass == isDragging
    }

    /** A window at `left`/`top` that is not being dragged. */
    constructor (left: int, top: int)
      ensures Valid() && !isDragging && this.left == left && this.top == top
    {
      isDragging := false;
      startX, startY, initialLeft, initialTop := 0, 0, 0, 0;
      this.left := left;
      this.top := top;
      draggingClass := false;
    }

    /**
     * `mousedown` on the header: a drag starts from the pointer position and
     * from the window's computed position (`parseInt` of its computed
     * `left`/`top`).
     */
    method MouseDown(clientX: int, clientY: int, computedLeft: int, computedTop: int)
      requires Valid()
      modifies this
      ensures Valid() && isDragging
      ensures startX == clientX && startY == clientY
      ensures initialLeft == computedLeft && initialTop == computedTop
      ensures left == old(left) && top == old(top)
    {
      isDragging := true;
      startX := clientX;
      startY := clientY;
      initialLeft := computedLeft;
      initialTop := computedTop;
      draggingClass := true;
    }

    /**
     * `mousemove` on the document: while dragging, the window is placed at
     * its starting position moved by the pointer's offset from where the drag
     * started; otherwise nothing changes.
     */
    method MouseMove(clientX: int, clientY: int)
      requires Valid()
      modifies this
      ensures Valid()
      ensures isDragging == old(isDragging)
      ensures startX == old(startX) && startY == old(startY)
      ensures initialLeft == old(initialLeft) && initialTop == old(initialTop)
      ensures isDragging ==> left == initialLeft + (clientX - startX) && top == initialTop + (clientY - startY)
      ensures !isDragging ==> left == old(left) && top == old(top)
    {
      if isDragging {
        var deltaX := clientX - startX;
        var deltaY := clientY - startY;
        left := initialLeft + deltaX;
        top := initialTop + deltaY;
      }
    }

    /** `mouseup` on the document: a drag in progress ends where the window is. */
    method MouseUp()
      requires Valid()
      modifies this
      ensures Valid() && !isDragging
      ensures left == old(left) && top == old(top)
      ensures startX == old(startX) && startY == old(startY)
      ensures initialLeft == old(initialLeft) && initialTop == old(initialTop)
    {
      if isDragging {
        isDragging := false;
        draggingClass := false;
      }
    }
  }
}
