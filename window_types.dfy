/** The window records shared by the window manager and the window component. */
module WindowTypes {
  import opened Util

  datatype Position = Position(x: int, y: int)

  datatype Size = Size(width: int, height: int)

  /** Presentation state of one application instance. The source types `size`
      and `zIndex` as optional; every instance the manager creates has both,
      so `zIndex` is a plain integer here. */
  datatype WindowState = WindowState(
    isMinimized: bool,
    isMaximized: bool,
    isClosed: bool,
    isClosing: bool,
    position: Position,
    size: Option<Size>,
    zIndex: int)

  /** One running copy of an application. The rendered component, its icon and
      its extra props are opaque to the manager and are not carried. */
  datatype AppInstance = AppInstance(id: string, name: string, state: WindowState)
}
