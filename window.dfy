/** The window component (src/components/ui/Window/Window.tsx): the drag and
    resize sessions held in component state, the geometry each pointer move
    computes, the close-confirmation decision and the keyboard shortcuts.
    DOM reads (the bounding rectangle, the viewport size) arrive as
    parameters; the component's outputs are the control calls and position or
    size updates it would emit. */
module WindowComponent {
  import opened Util
  import opened WindowTypes

  /** Pixels of the window kept reachable at either horizontal extreme of a drag. */
  const DragKeepVisible: int := 100
  /** Pixels kept between the title bar and the bottom of the viewport. */
  const TitlebarReach: int := 40

  /** The props the geometry and the decisions read, with the component's defaults. */
  datatype WindowProps = WindowProps(
    minWidth: int,
    minHeight: int,
    maxWidth: Option<int>,
    maxHeight: Option<int>,
    showCloseConfirm: bool,
    skipCloseDialog: bool,
    hasPositionCallback: bool)

  function DefaultProps(): WindowProps
  {
    WindowProps(400, 300, None, None, false, false, false)
  }

  /** A position and a size: a bounding rectangle, or the inline styles of a resize frame. */
  datatype Frame = Frame(position: Position, size: Size)

  datatype Control = CloseControl | MinimizeControl | MaximizeControl

  // ------------------------------------------------------------------ drag

  /** The clamp of a drag candidate: x into [-windowWidth + 100, viewportWidth - 100],
      y into [0, viewportHeight - 40], as Math.max(min, Math.min(max, v)). */
  function DragClamp(candidate: Position, windowWidth: int, viewportWidth: int, viewportHeight: int): (p: Position)
    ensures p.x >= -windowWidth + DragKeepVisible && p.y >= 0
    ensures -windowWidth + DragKeepVisible <= viewportWidth - DragKeepVisible ==> p.x <= viewportWidth - DragKeepVisible
    ensures 0 <= viewportHeight - TitlebarReach ==> p.y <= viewportHeight - TitlebarReach
    ensures -windowWidth + DragKeepVisible <= candidate.x <= viewportWidth - DragKeepVisible ==> p.x == candidate.x
    ensures 0 <= candidate.y <= viewportHeight - TitlebarReach ==> p.y == candidate.y
  {
    Position(Max(-windowWidth + DragKeepVisible, Min(viewportWidth - DragKeepVisible, candidate.x)),
             Max(0, Min(viewportHeight - TitlebarReach, candidate.y)))
  }

  /** Outside the bounds the clamp lands exactly on the violated bound. */
  lemma DragClampAtBounds(candidate: Position, windowWidth: int, viewportWidth: int, viewportHeight: int)
    requires -windowWidth + DragKeepVisible <= viewportWidth - DragKeepVisible
    requires 0 <= viewportHeight - TitlebarReach
    ensures var p := DragClamp(candidate, windowWidth, viewportWidth, viewportHeight);
      && (candidate.x < -windowWidth + DragKeepVisible ==> p.x == -windowWidth + DragKeepVisible)
      && (candidate.x > viewportWidth - DragKeepVisible ==> p.x == viewportWidth - DragKeepVisible)
      && (candidate.y < 0 ==> p.y == 0)
      && (candidate.y > viewportHeight - TitlebarReach ==> p.y == viewportHeight - TitlebarReach)
  {
  }

  /** Viewport 1024 x 768, a 400-wide window dragged to (-1000, -500) stops at (-300, 0). */
  lemma DragClampExample()
    ensures DragClamp(Position(-1000, -500), 400, 1024, 768) == Position(-300, 0)
  {
  }

  /** With the origin captured at mouse-down, the candidate moves with the pointer:
      a pointer moved by (dx, dy) puts the window at its old position plus (dx, dy). */
  lemma DragFollowsPointer(down: Position, position: Position, dx: int, dy: int)
    ensures var origin := Position(down.x - position.x, down.y - position.y);
      Position(down.x + dx - origin.x, down.y + dy - origin.y) == Position(position.x + dx, position.y + dy)
  {
  }

  // ---------------------------------------------------------------- resize

  /** One axis of a resize. `grow` is the far edge (e or s) and keeps the
      coordinate; `fromStart` is the near edge (w or n), which caps the
      shrink at startLen - minLen and moves the coordinate by what it took.
      When both are set the near edge wins, as in the source. */
  function ResizeAxis(startLen: int, startCoord: int, delta: int, minLen: int, grow: bool, fromStart: bool): (r: (int, int))
    ensures fromStart ==> r.0 == Max(minLen, startLen - delta)
    ensures fromStart ==> r.1 + r.0 == startCoord + startLen
    ensures !fromStart && grow ==> r == (Max(minLen, startLen + delta), startCoord)
    ensures !fromStart && !grow ==> r == (startLen, startCoord)
  {
    if fromStart then
      var d := Min(delta, startLen - minLen);
      (startLen - d, startCoord + d)
    else if grow then (Max(minLen, startLen + delta), startCoord)
    else (startLen, startCoord)
  }

  /** The optional maximum: applied only when the prop is truthy (0 counts as absent). */
  function Cap(len: int, max: Option<int>): (r: int)
    ensures r <= len
    ensures max.Some? && max.value != 0 ==> r <= max.value && (r == len || r == max.value)
    ensures max.None? || max.value == 0 ==> r == len
  {
    if max.Some? && max.value != 0 then Min(max.value, len) else len
  }

  /** The optional maximum is absent or 0, so Cap leaves the length alone. */
  predicate Uncapped(max: Option<int>)
  {
    max.None? || max.value == 0
  }

  /** The frame a resize move computes, axis by axis, before the positivity
      check: an edge not in the direction leaves its axis at the start, a
      dragged edge keeps the minimum, a near edge keeps the opposite edge in
      place, and a set maximum bounds the size. */
  function ResizeFrame(direction: string, startPos: Position, startSize: Size, startPosition: Position,
                       client: Position, props: WindowProps): (f: Frame)
    ensures 'w' !in direction ==> f.position.x == startPosition.x
    ensures 'n' !in direction ==> f.position.y == startPosition.y
    ensures 'e' !in direction && 'w' !in direction ==> f.size.width == Cap(startSize.width, props.maxWidth)
    ensures 's' !in direction && 'n' !in direction ==> f.size.height == Cap(startSize.height, props.maxHeight)
    ensures ('e' in direction || 'w' in direction) && Uncapped(props.maxWidth) ==> f.size.width >= props.minWidth
    ensures ('s' in direction || 'n' in direction) && Uncapped(props.maxHeight) ==> f.size.height >= props.minHeight
    ensures 'w' in direction && Uncapped(props.maxWidth) ==> f.position.x + f.size.width == startPosition.x + startSize.width
    ensures 'n' in direction && Uncapped(props.maxHeight) ==> f.position.y + f.size.height == startPosition.y + startSize.height
    ensures !Uncapped(props.maxWidth) ==> f.size.width <= props.maxWidth.value
    ensures !Uncapped(props.maxHeight) ==> f.size.height <= props.maxHeight.value
  {
    var h := ResizeAxis(startSize.width, startPosition.x, client.x - startPos.x, props.minWidth, 'e' in direction, 'w' in direction);
    var v := ResizeAxis(startSize.height, startPosition.y, client.y - startPos.y, props.minHeight, 's' in direction, 'n' in direction);
    Frame(Position(h.1, v.1), Size(Cap(h.0, props.maxWidth), Cap(v.0, props.maxHeight)))
  }

  /** Near-edge shrink never goes below the minimum when the window started at or above it. */
  lemma NearEdgeKeepsMinimum(startLen: int, startCoord: int, delta: int, minLen: int, grow: bool)
    requires startLen >= minLen
    ensures ResizeAxis(startLen, startCoord, delta, minLen, grow, true).0 >= minLen
    ensures ResizeAxis(startLen, startCoord, delta, minLen, grow, true).0 <= startLen || delta < 0
  {
  }

  /** The west-edge example: x = 100, width 300, minimum 200, pointer moved
      150 to the right gives width 200 at x = 200 (the shrink is capped at 100). */
  lemma WestEdgeExample()
    ensures ResizeAxis(300, 100, 150, 200, false, true) == (200, 200)
  {
  }

  /** The caps never move the window: only the size is capped. */
  lemma CapsKeepPosition(direction: string, startPos: Position, startSize: Size, startPosition: Position,
                         client: Position, props: WindowProps)
    ensures var f := ResizeFrame(direction, startPos, startSize, startPosition, client, props);
      var g := ResizeFrame(direction, startPos, startSize, startPosition, client, props.(maxWidth := None, maxHeight := None));
      f.position == g.position && f.size.width <= g.size.width && f.size.height <= g.size.height
  {
  }

  // -------------------------------------------------------- close and keys

  /** handleClose asks for confirmation only when it is requested and not skipped. */
  function CloseNeedsConfirm(props: WindowProps): (ask: bool)
    ensures ask ==> props.showCloseConfirm
    ensures props.skipCloseDialog ==> !ask
    ensures props.showCloseConfirm && !props.skipCloseDialog ==> ask
  {
    props.showCloseConfirm && !props.skipCloseDialog
  }

  datatype Shortcut = CloseShortcut | MinimizeShortcut | MaximizeShortcut

  /** The document-level shortcuts: Cmd/Ctrl+W closes, Cmd/Ctrl+M minimizes,
      Cmd/Ctrl+Shift+Enter maximizes; nothing while the window is closed or minimized. */
  function KeyShortcut(key: string, meta: bool, ctrl: bool, shift: bool, isClosed: bool, isMinimized: bool): (r: Option<Shortcut>)
    ensures r.Some? ==> !isClosed && !isMinimized && (meta || ctrl)
    ensures r == Some(CloseShortcut) <==> !isClosed && !isMinimized && (meta || ctrl) && key == "w"
    ensures r == Some(MinimizeShortcut) <==> !isClosed && !isMinimized && (meta || ctrl) && key == "m"
    ensures r == Some(MaximizeShortcut) <==> !isClosed && !isMinimized && (meta || ctrl) && key == "Enter" && shift
  {
    if isClosed || isMinimized then None
    else if !(meta || ctrl) then None
    else if key == "w" then Some(CloseShortcut)
    else if key == "m" then Some(MinimizeShortcut)
    else if key == "Enter" && shift then Some(MaximizeShortcut)
    else None
  }

  // --------------------------------------------------------- the component

  /** The component's own state cells: the drag session, the resize session
      and whether the close-confirmation dialog is showing. */
  class WindowSession {
    var isDragging: bool
    var dragStart: Position
    var isResizing: bool
    var direction: string
    var startPos: Position
    var startSize: Size
    var startPosition: Position
    var showCloseDialog: bool

    constructor ()
      ensures !isDragging && dragStart == Position(0, 0)
      ensures !isResizing && direction == "" && startPos == Position(0, 0)
      ensures startSize == Size(0, 0) && startPosition == Position(0, 0)
      ensures !showCloseDialog
    {
      isDragging, dragStart := false, Position(0, 0);
      isResizing, direction := false, "";
      startPos, startSize, startPosition := Position(0, 0), Size(0, 0), Position(0, 0);
      showCloseDialog := false;
    }

    /** handleMouseDown on the title bar: start a drag with origin = pointer - position. */
    method MouseDown(button: int, client: Position, isMaximized: bool, position: Position)
      modifies this`isDragging, this`dragStart
      ensures isMaximized || button != 0 ==> isDragging == old(isDragging) && dragStart == old(dragStart)
      ensures !isMaximized && button == 0 ==>
        isDragging && dragStart == Position(client.x - position.x, client.y - position.y)
    {
      if isMaximized || button != 0 {
        return;
      }
      isDragging := true;
      dragStart := Position(client.x - position.x, client.y - position.y);
    }

    /** handleMouseMove: the clamped position to report, if any. `rect` is the
        element's bounding rectangle, None once the element is gone. */
    method MouseMove(client: Position, isMaximized: bool, rect: Option<Frame>, viewportWidth: int, viewportHeight: int,
                     hasPositionCallback: bool) returns (emitted: Option<Position>)
      ensures emitted.None? <==> !isDragging || isMaximized || rect.None? || !hasPositionCallback
      ensures emitted.Some? ==>
        emitted.value == DragClamp(Position(client.x - dragStart.x, client.y - dragStart.y), rect.value.size.width, viewportWidth, viewportHeight)
      ensures emitted.Some? ==> emitted.value.y >= 0 && emitted.value.x >= -rect.value.size.width + DragKeepVisible
    {
      if !isDragging || isMaximized {
        return None;
      }
      if rect.None? {
        return None;
      }
      var newX := client.x - dragStart.x;
      var newY := client.y - dragStart.y;
      var minX := -rect.value.size.width + DragKeepVisible;
      var maxX := viewportWidth - DragKeepVisible;
      var minY := 0;
      var maxY := viewportHeight - TitlebarReach;
      newX := Max(minX, Min(maxX, newX));
      newY := Max(minY, Min(maxY, newY));
      if hasPositionCallback {
        emitted := Some(Position(newX, newY));
      } else {
        emitted := None;
      }
    }

    /** handleMouseUp: end the drag; the captured origin is kept. */
    method MouseUp()
      modifies this`isDragging
      ensures !isDragging
    {
      isDragging := false;
    }

    /** handleResizeStart: capture pointer, size (the state's, else the rectangle's) and position. */
    method ResizeStart(button: int, dir: string, client: Position, isMaximized: bool, stateSize: Option<Size>, rect: Option<Frame>)
      modifies this`isResizing, this`direction, this`startPos, this`startSize, this`startPosition
      ensures isMaximized || button != 0 || rect.None? ==>
        isResizing == old(isResizing) && direction == old(direction) && startPos == old(startPos)
        && startSize == old(startSize) && startPosition == old(startPosition)
      ensures !isMaximized && button == 0 && rect.Some? ==>
        isResizing && direction == dir && startPos == client
        && startSize == (if stateSize.Some? then stateSize.value else rect.value.size)
        && startPosition == rect.value.position
    {
      if isMaximized || button != 0 {
        return;
      }
      if rect.None? {
        return;
      }
      var currentSize := if stateSize.Some? then stateSize.value else rect.value.size;
      isResizing, direction, startPos := true, dir, client;
      startSize, startPosition := currentSize, rect.value.position;
    }

    /** One axis of handleResizeMove: the far edge follows the pointer down to
        the minimum; the near edge moves the start coordinate by the shrink,
        which is capped so the length stays at least the minimum. */
    static method MoveAxis(startLen: int, startCoord: int, delta: int, minLen: int, grow: bool, fromStart: bool)
      returns (len: int, coord: int)
      ensures (len, coord) == ResizeAxis(startLen, startCoord, delta, minLen, grow, fromStart)
    {
      len, coord := startLen, startCoord;
      if grow {
        len := Max(minLen, startLen + delta);
      }
      if fromStart {
        var shrink := Min(delta, startLen - minLen);
        len := startLen - shrink;
        coord := startCoord + shrink;
      }
    }

    /** handleResizeMove: the inline frame written, if the session is active,
        the element is still mounted and both dimensions are positive. */
    method ResizeMove(client: Position, props: WindowProps, hasElement: bool) returns (styles: Option<Frame>)
      ensures !isResizing || !hasElement ==> styles.None?
      ensures isResizing && hasElement ==>
        var f := ResizeFrame(direction, startPos, startSize, startPosition, client, props);
        styles == if f.size.width > 0 && f.size.height > 0 then Some(f) else None
      ensures styles.Some? ==> styles.value.size.width > 0 && styles.value.size.height > 0
    {
      if !isResizing {
        return None;
      }
      var newWidth, newX := MoveAxis(startSize.width, startPosition.x, client.x - startPos.x, props.minWidth, 'e' in direction, 'w' in direction);
      var newHeight, newY := MoveAxis(startSize.height, startPosition.y, client.y - startPos.y, props.minHeight, 's' in direction, 'n' in direction);
      ghost var uncappedWidth, uncappedHeight := newWidth, newHeight;
      if props.maxWidth.Some? && props.maxWidth.value != 0 {
        newWidth := Min(props.maxWidth.value, newWidth);
      }
      assert newWidth == Cap(uncappedWidth, props.maxWidth);
      if props.maxHeight.Some? && props.maxHeight.value != 0 {
        newHeight := Min(props.maxHeight.value, newHeight);
      }
      assert newHeight == Cap(uncappedHeight, props.maxHeight);
      if !hasElement {
        return None;
      }
      if newWidth > 0 && newHeight > 0 {
        styles := Some(Frame(Position(newX, newY), Size(newWidth, newHeight)));
      } else {
        styles := None;
      }
    }

    /** handleResizeEnd: commit the on-screen rectangle (position only through
        the optional callback) and reset the session. */
    method ResizeEnd(rect: Option<Frame>, hasPositionCallback: bool) returns (positionUpdate: Option<Position>, sizeUpdate: Option<Size>)
      modifies this`isResizing, this`direction, this`startPos, this`startSize, this`startPosition
      ensures !old(isResizing) ==>
        positionUpdate.None? && sizeUpdate.None? && !isResizing && direction == old(direction)
        && startPos == old(startPos) && startSize == old(startSize) && startPosition == old(startPosition)
      ensures old(isResizing) ==>
        && positionUpdate == (if rect.Some? && hasPositionCallback then Some(rect.value.position) else None)
        && sizeUpdate == (if rect.Some? then Some(rect.value.size) else None)
        && !isResizing && direction == "" && startPos == Position(0, 0)
        && startSize == Size(0, 0) && startPosition == Position(0, 0)
    {
      positionUpdate, sizeUpdate := None, None;
      if !isResizing {
        return;
      }
      if rect.Some? {
        if hasPositionCallback {
          positionUpdate := Some(rect.value.position);
        }
        sizeUpdate := Some(rect.value.size);
      }
      isResizing, direction := false, "";
      startPos, startSize, startPosition := Position(0, 0), Size(0, 0), Position(0, 0);
    }

    /** handleClose: open the confirmation dialog, or ask the manager to close. */
    method HandleClose(props: WindowProps) returns (callOnClose: bool)
      modifies this`showCloseDialog
      ensures callOnClose <==> !CloseNeedsConfirm(props)
      ensures showCloseDialog == (CloseNeedsConfirm(props) || old(showCloseDialog))
    {
      if props.showCloseConfirm && !props.skipCloseDialog {
        showCloseDialog := true;
        callOnClose := false;
      } else {
        callOnClose := true;
      }
    }

    /** confirmClose: hide the dialog and close. */
    method ConfirmClose() returns (callOnClose: bool)
      modifies this`showCloseDialog
      ensures !showCloseDialog && callOnClose
    {
      showCloseDialog := false;
      callOnClose := true;
    }

    method CancelClose()
      modifies this`showCloseDialog
      ensures !showCloseDialog
    {
      showCloseDialog := false;
    }

    /** handleKeyPress: the control the shortcut calls, going through handleClose for Cmd/Ctrl+W. */
    method KeyPress(key: string, meta: bool, ctrl: bool, shift: bool, isClosed: bool, isMinimized: bool, props: WindowProps)
      returns (control: Option<Control>)
      modifies this`showCloseDialog
      ensures isClosed || isMinimized ==> control.None? && showCloseDialog == old(showCloseDialog)
      ensures control.Some? ==> KeyShortcut(key, meta, ctrl, shift, isClosed, isMinimized).Some?
      ensures control == Some(CloseControl) <==>
        KeyShortcut(key, meta, ctrl, shift, isClosed, isMinimized) == Some(CloseShortcut) && !CloseNeedsConfirm(props)
      ensures showCloseDialog == (old(showCloseDialog)
        || (KeyShortcut(key, meta, ctrl, shift, isClosed, isMinimized) == Some(CloseShortcut) && CloseNeedsConfirm(props)))
      ensures control == Some(MinimizeControl) <==> KeyShortcut(key, meta, ctrl, shift, isClosed, isMinimized) == Some(MinimizeShortcut)
      ensures control == Some(MaximizeControl) <==> KeyShortcut(key, meta, ctrl, shift, isClosed, isMinimized) == Some(MaximizeShortcut)
    {
      var shortcut := KeyShortcut(key, meta, ctrl, shift, isClosed, isMinimized);
      match shortcut
      case None => control := None;
      case Some(CloseShortcut) =>
        var call := HandleClose(props);
        control := if call then Some(CloseControl) else None;
      case Some(MinimizeShortcut) => control := Some(MinimizeControl);
      case Some(MaximizeShortcut) => control := Some(MaximizeControl);
    }
  }
}
