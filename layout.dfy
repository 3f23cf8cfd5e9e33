/**
 * The static window layout of the workspace switcher: for each display
 * profile, the pixel rectangle of the editor, the 1-pixel divider line, the
 * terminal and the terminal when it is widened to "fullscreen".
 */
module Layout {

  /** The display configuration a layout is chosen for. */
  datatype Profile = Internal | External

  datatype Rect = Rect(x: int, y: int, width: int, height: int)

  /** The rectangles of one profile. */
  datatype Positions = Positions(editor: Rect, line: Rect, terminal: Rect, terminalFullscreen: Rect)

  /** The x coordinate just past the right edge of `r`. */
  function Right(r: Rect): int {
    r.x + r.width
  }

  /** The `defaultPositions` table. */
  function DefaultPositions(p: Profile): Positions {
    match p
    case Internal =>
      Positions(
        editor := Rect(600, 55, 1128, 1065),
        line := Rect(600, 55, 1, 1065),
        terminal := Rect(0, 55, 600, 1065),
        terminalFullscreen := Rect(0, 55, 1920, 1065))
    case External =>
      Positions(
        editor := Rect(932, 50, 1500, 1340),
        line := Rect(932, 50, 1, 1340),
        terminal := Rect(127, 50, 805, 1340),
        terminalFullscreen := Rect(127, 50, 2305, 1340))
  }

  /**
   * In both profiles the terminal and the editor sit side by side with the
   * divider line on their common edge, the fullscreen terminal keeps the
   * terminal's left edge, and all four rectangles share one top and height.
   */
  lemma LayoutGeometry(p: Profile)
    ensures var t := DefaultPositions(p);
      && Right(t.terminal) == t.editor.x == t.line.x
      && t.line.width == 1
      && t.terminalFullscreen.x == t.terminal.x
      && t.editor.y == t.line.y == t.terminal.y == t.terminalFullscreen.y
      && t.editor.height == t.line.height == t.terminal.height == t.terminalFullscreen.height
      && t.terminal.width < t.terminalFullscreen.width
  {
  }

  /**
   * On an external display the fullscreen terminal covers exactly the span
   * of terminal plus editor; on the internal display it reaches 192 pixels
   * past the editor's right edge.
   */
  lemma FullscreenSpan()
    ensures Right(DefaultPositions(External).terminalFullscreen) == Right(DefaultPositions(External).editor)
    ensures Right(DefaultPositions(Internal).terminalFullscreen) == Right(DefaultPositions(Internal).editor) + 192
  {
  }

  /** The rectangle the terminal is moved to for a given fullscreen flag: only the width changes. */
  function TerminalRequest(p: Profile, fullscreen: bool): Rect {
    var t := DefaultPositions(p);
    Rect(t.terminal.x, t.terminal.y, if fullscreen then t.terminalFullscreen.width else t.terminal.width, t.terminal.height)
  }

  /**
   * The request takes x, y and height from `terminal` and the width from
   * `terminalFullscreen` exactly when fullscreen is requested; since both
   * entries share x, y and height, the request is that table entry itself.
   */
  lemma TerminalRequestIsTableEntry(p: Profile, fullscreen: bool)
    ensures TerminalRequest(p, fullscreen) == (if fullscreen then DefaultPositions(p).terminalFullscreen else DefaultPositions(p).terminal)
  {
  }
}
