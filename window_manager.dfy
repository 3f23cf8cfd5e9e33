/**
 * The window manager of the switcher: it decides which display profile is in
 * use from the primary display's width, places the top bar along the top
 * edge of the screen (inset by a hidden edge on external displays), asks an
 * external helper to position the terminal and the editor, and toggles the
 * fullscreen flag of whichever of the two is the active window.
 */
module WindowManagement {
  import opened JsText
  import opened Layout
  import opened Tabs

  /** What the screen API reports for the primary display. */
  datatype Display = Display(width: int, height: int, scaleFactor: real)

  datatype Size = Size(width: real, height: real)

  /** The bounds given to the top-bar window. */
  datatype Bounds = Bounds(x: real, y: real, width: real, height: real)

  /** A positioning request handed to the external helper, with the profile it was issued for. */
  datatype Placement =
    | PlaceTerminal(pid: string, fullscreen: bool, display: Profile)
    | PlaceEditor(target: string, fullscreen: bool, display: Profile)

  /** The top bar's height as a fraction of the screen height. */
  const TopBarHeightFraction: real := 0.02

  /** The hidden edge of a display that has one, as a fraction of its width and height. */
  const DefaultHiddenEdge: real := 0.01

  /** The internal panel reports one of two widths; every other width is an external display. */
  function ProfileOf(width: int): Profile {
    if width == 1463 || width == 1707 then Internal else External
  }

  /** The two external displays known to have no hidden edge. */
  predicate IsEdgeless(d: Display) {
    (d.width == 2048 && d.height == 1152) || (d.width == 2560 && d.height == 1440)
  }

  /** The Apple Studio Display, which the screen API reports as one half of its width. */
  predicate IsStudioDisplay(d: Display) {
    d.width == 2048 && d.height == 1152
  }

  /** The top bar's bounds on a `width` x `height` screen for a profile and a hidden edge fraction. */
  function TopBarBounds(display: Profile, edge: real, width: real, height: real): Bounds {
    Bounds(
      if display == External then edge * width else 0.0,
      if display == External then edge * height else 0.0,
      if display == External then width - width * edge * 2.0 else width,
      height * TopBarHeightFraction)
  }

  /**
   * The top bar is always 2% of the screen high. On the internal display it
   * spans the full width from the origin; on an external one it is inset by
   * the hidden edge on the left, the right and the top, so it is centred,
   * and it stays on screen while the edge is at most half the screen.
   */
  lemma TopBarGeometry(display: Profile, edge: real, width: real, height: real)
    requires width >= 0.0 && height >= 0.0
    ensures var b := TopBarBounds(display, edge, width, height);
      && b.height == height / 50.0
      && (display == Internal ==> b.x == 0.0 && b.y == 0.0 && b.width == width)
      && (display == External ==> b.x == edge * width && b.y == edge * height && b.width == width - 2.0 * edge * width)
      && (display == External ==> b.x + b.width + b.x == width)
      && (display == External && 0.0 <= edge <= 0.5 ==> 0.0 <= b.x && 0.0 <= b.width && b.x + b.width <= width)
  {
    if display == External && 0.0 <= edge <= 0.5 {
      assert 0.0 <= edge * width;
      assert width * edge * 2.0 <= width;
    }
  }

  /** Without a hidden edge the external top bar is the internal one. */
  lemma EdgelessTopBar(width: real, height: real)
    ensures TopBarBounds(External, 0.0, width, height) == TopBarBounds(Internal, 0.0, width, height)
  {
  }

  /** Which window the active-window log names. */
  datatype FullscreenTarget = TerminalWindow | EditorWindow | OtherWindow

  /** The terminal when the name is exactly "Ubuntu", the editor when it contains "(Text Editor)". */
  function TargetOf(activeWindow: string): FullscreenTarget {
    if activeWindow == "Ubuntu" then TerminalWindow
    else if Includes(activeWindow, "(Text Editor)") then EditorWindow
    else OtherWindow
  }

  /** The tab after a toggle aimed at `target`: only the matching flag flips. */
  function ToggledFor(target: FullscreenTarget, t: Tab): Tab {
    match target
    case TerminalWindow => ToggleTerminal(t)
    case EditorWindow => ToggleEditor(t)
    case OtherWindow => t
  }

  /**
   * The two recognised names do not overlap: "Ubuntu" selects the terminal
   * only, a name selects the editor exactly when it contains "(Text
   * Editor)", and every other name selects nothing.
   */
  lemma TargetOfSpec(activeWindow: string)
    ensures TargetOf(activeWindow) == TerminalWindow <==> activeWindow == "Ubuntu"
    ensures TargetOf(activeWindow) == EditorWindow <==> IndexOf(activeWindow, "(Text Editor)") >= 0
    ensures TargetOf(activeWindow) == OtherWindow <==>
      activeWindow != "Ubuntu" && IndexOf(activeWindow, "(Text Editor)") == -1
  {
    if activeWindow == "Ubuntu" {
      assert |activeWindow| < |"(Text Editor)"|;
      assert IndexOf(activeWindow, "(Text Editor)") == -1;
    }
  }

  /** The log's name is trimmed before it is compared, so a trailing newline still selects the terminal. */
  lemma TrimmedLogSelectsTerminal()
    ensures TargetOf(Trim("Ubuntu\n")) == TerminalWindow
  {
    assert "Ubuntu\n" == [] + "Ubuntu" + "\n";
    assert NoSpace("Ubuntu") by {
      assert forall k :: 0 <= k < |"Ubuntu"| ==> !IsSpace("Ubuntu"[k]);
    }
    TrimPadding([], "Ubuntu", "\n");
  }

  /**
   * A toggle flips exactly the flag of the window it targets, and two
   * toggles for the same window restore that flag's truthiness.
   */
  lemma ToggledForSpec(target: FullscreenTarget, t: Tab)
    ensures var u := ToggledFor(target, t);
      && Truthy(u.terminalFullScreen) == (Truthy(t.terminalFullScreen) != (target == TerminalWindow))
      && Truthy(u.editorFullScreen) == (Truthy(t.editorFullScreen) != (target == EditorWindow))
      && u.(terminalFullScreen := t.terminalFullScreen, editorFullScreen := t.editorFullScreen) == t
    ensures var w := ToggledFor(target, ToggledFor(target, t));
      && Truthy(w.terminalFullScreen) == Truthy(t.terminalFullScreen)
      && Truthy(w.editorFullScreen) == Truthy(t.editorFullScreen)
  {
    ToggleTerminalTwice(t);
    ToggleEditorTwice(t);
  }

  /** A tab object the caller shares with the window manager, which updates it in place. */
  class TabCell {
    var tab: Tab

    constructor (t: Tab)
      ensures tab == t
    {
      tab := t;
    }
  }

  class WindowManager {
    var currentDisplay: Profile
    var hiddenEdgeSize: real
    var hasMainWindow: bool
    /** The bounds last given to the top-bar window, if any. */
    var topBar: Option<Bounds>
    /** The positioning requests issued so far, in order. */
    var issued: seq<Placement>

    ghost predicate Valid()
      reads this
    {
      hiddenEdgeSize == 0.0 || hiddenEdgeSize == DefaultHiddenEdge
    }

    /** Module load: internal profile, the default hidden edge, no window yet. */
    constructor ()
      ensures Valid()
      ensures currentDisplay == Internal && hiddenEdgeSize == DefaultHiddenEdge
      ensures !hasMainWindow && topBar == None && issued == []
    {
      currentDisplay := Internal;
      hiddenEdgeSize := DefaultHiddenEdge;
      hasMainWindow := false;
      topBar := None;
      issued := [];
    }

    method SetMainWindow()
      modifies this`hasMainWindow
      ensures hasMainWindow
    {
      hasMainWindow := true;
    }

    /** The profile follows the primary display's width: internal for the panel's two widths, external otherwise. */
    method DetectAndSetCurrentDisplay(primary: Display) returns (profile: Profile)
      modifies this`currentDisplay
      ensures profile == currentDisplay
      ensures profile == Internal <==> primary.width == 1463 || primary.width == 1707
    {
      currentDisplay := ProfileOf(primary.width);
      profile := currentDisplay;
    }

    /**
     * The primary display's size in points. The two edgeless displays also
     * clear the hidden edge; any other display leaves it as it was.
     */
    method GetScreenDimensionsRaw(primary: Display) returns (size: Size)
      requires Valid()
      modifies this`hiddenEdgeSize
      ensures Valid()
      ensures size == Size(primary.width as real, primary.height as real)
      ensures hiddenEdgeSize == if IsEdgeless(primary) then 0.0 else old(hiddenEdgeSize)
    {
      if primary.width == 2048 && primary.height == 1152 {
        hiddenEdgeSize := 0.0;
        return Size(primary.width as real, primary.height as real);
      }
      if primary.width == 2560 && primary.height == 1440 {
        hiddenEdgeSize := 0.0;
        return Size(primary.width as real, primary.height as real);
      }
      size := Size(primary.width as real, primary.height as real);
    }

    /**
     * The primary display's size in pixels. The Studio Display is reported
     * as half its width, so its width is doubled, and it has no hidden edge;
     * every other display gets the default hidden edge back.
     */
    method GetScreenDimensionsScaled(primary: Display) returns (size: Size)
      requires Valid()
      modifies this`hiddenEdgeSize
      ensures Valid()
      ensures IsStudioDisplay(primary) ==>
        size == Size(primary.width as real * primary.scaleFactor * 2.0, primary.height as real * primary.scaleFactor)
        && hiddenEdgeSize == 0.0
      ensures !IsStudioDisplay(primary) ==>
        size == Size(primary.width as real * primary.scaleFactor, primary.height as real * primary.scaleFactor)
        && hiddenEdgeSize == DefaultHiddenEdge
    {
      if primary.width == 2048 && primary.height == 1152 {
        hiddenEdgeSize := 0.0;
        return Size(primary.width as real * primary.scaleFactor * 2.0, primary.height as real * primary.scaleFactor);
      }
      hiddenEdgeSize := DefaultHiddenEdge;
      size := Size(primary.width as real * primary.scaleFactor, primary.height as real * primary.scaleFactor);
    }

    /**
     * With a top-bar window, re-reads the display size and gives the bar its
     * bounds for the current profile and hidden edge; without one, nothing
     * changes.
     */
    method UpdateTopBarPositionAndSize(primary: Display) returns (bounds: Option<Bounds>)
      requires Valid()
      modifies this`hiddenEdgeSize, this`topBar
      ensures Valid()
      ensures !hasMainWindow ==> bounds == None && topBar == old(topBar) && hiddenEdgeSize == old(hiddenEdgeSize)
      ensures hasMainWindow ==>
        && hiddenEdgeSize == (if IsEdgeless(primary) then 0.0 else old(hiddenEdgeSize))
        && bounds == Some(TopBarBounds(currentDisplay, hiddenEdgeSize, primary.width as real, primary.height as real))
        && topBar == bounds
    {
      if !hasMainWindow {
        return None;
      }
      var size := GetScreenDimensionsRaw(primary);
      bounds := Some(TopBarBounds(currentDisplay, hiddenEdgeSize, size.width, size.height));
      topBar := bounds;
    }

    /** Asks the helper to place the terminal for the current profile. */
    method PositionKittyWindow(pid: string, fullscreen: bool)
      modifies this`issued
      ensures issued == old(issued) + [PlaceTerminal(pid, fullscreen, currentDisplay)]
    {
      issued := issued + [PlaceTerminal(pid, fullscreen, currentDisplay)];
    }

    /** Asks the helper to place the editor window for the current profile. */
    method PositionEditorWindow(target: string, fullscreen: bool)
      modifies this`issued
      ensures issued == old(issued) + [PlaceEditor(target, fullscreen, currentDisplay)]
    {
      issued := issued + [PlaceEditor(target, fullscreen, currentDisplay)];
    }

    /**
     * Re-detects the profile, places the terminal and the editor in their
     * non-fullscreen positions for it, then updates the top bar.
     */
    method ApplyDisplayLayout(primary: Display, kittyMainPid: string, codePid: string)
      requires Valid()
      modifies this
      ensures Valid()
      ensures currentDisplay == ProfileOf(primary.width)
      ensures issued == old(issued) + [PlaceTerminal(kittyMainPid, false, currentDisplay), PlaceEditor(codePid, false, currentDisplay)]
      ensures hasMainWindow == old(hasMainWindow)
      ensures hiddenEdgeSize == if hasMainWindow && IsEdgeless(primary) then 0.0 else old(hiddenEdgeSize)
      ensures hasMainWindow ==> topBar == Some(TopBarBounds(currentDisplay, hiddenEdgeSize, primary.width as real, primary.height as real))
      ensures !hasMainWindow ==> topBar == old(topBar)
    {
      var _ := DetectAndSetCurrentDisplay(primary);
      PositionKittyWindow(kittyMainPid, false);
      PositionEditorWindow(codePid, false);
      var _ := UpdateTopBarPositionAndSize(primary);
    }

    /**
     * Reads the active window's name from the log (`None` when the read
     * fails), trims it, flips the fullscreen flag of the tab for the window
     * it names and re-places that window. Returns the same tab object, or
     * nothing when the log could not be read.
     */
    method ToggleFullscreen(cell: TabCell, log: Option<string>, kittyMainPid: string, codePid: string) returns (r: Option<TabCell>)
      modifies cell, this`issued
      ensures log.None? ==> r == None && cell.tab == old(cell.tab) && issued == old(issued)
      ensures log.Some? ==>
        var target := TargetOf(Trim(log.value));
        && r == Some(cell)
        && cell.tab == ToggledFor(target, old(cell.tab))
        && issued == old(issued) + match target
          case TerminalWindow => [PlaceTerminal(kittyMainPid, Truthy(cell.tab.terminalFullScreen), currentDisplay)]
          case EditorWindow => [PlaceEditor(codePid, Truthy(cell.tab.editorFullScreen), currentDisplay)]
          case OtherWindow => []
    {
      if log.None? {
        return None;
      }
      var activeWindow := Trim(log.value);
      if activeWindow == "Ubuntu" {
        cell.tab := ToggleTerminal(cell.tab);
        PositionKittyWindow(kittyMainPid, Truthy(cell.tab.terminalFullScreen));
      } else if Includes(activeWindow, "(Text Editor)") {
        cell.tab := ToggleEditor(cell.tab);
        PositionEditorWindow(codePid, Truthy(cell.tab.editorFullScreen));
      }
      r := Some(cell);
    }
  }
}
