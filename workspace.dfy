/**
 * The tab state machine of the switcher's main process: the ordered list of
 * tabs, the active index, the values last written to the persistent store,
 * the messages sent to the top-bar renderer, and the commands handed to
 * external programs (terminal, editor, window mover), which are recorded and
 * otherwise ignored.
 */
module Workspace {
  import opened JsText
  import opened Layout
  import opened Paths
  import opened Tabs

  datatype Theme = Light | Dark

  /** Messages sent to the top-bar renderer. */
  datatype UiMessage =
    | UpdateActiveTab(theme: Theme, index: int)
    | UpdateTabs(tabs: seq<Tab>, index: int)
    | AddNewButton(path: string)
    | ChangeTheme(theme: Theme, index: int)

  /** Commands handed to external programs; their results are not modelled. */
  datatype Effect =
    | CloseEditorTitled(title: string)
    | CloseTerminalWindows(platformWindowId: Option<string>)
    | CloseLazygitWindows(lazygitWindowId: string)
    | SetTerminalPosition(rect: Rect)
    | FocusTerminal(platformWindowId: Option<string>)
    | LaunchTerminal(cwd: string)
    | OpenEditor(path: string)
    | LaunchGitKraken(path: string)
    | OpenApps(apps: seq<string>)
    | FocusEditorTitled(editorTitle: string)
    | FocusLazygit(lazygitId: string)

  /** How a handler ends: normally, or by throwing a TypeError on a missing tab (state changed before the throw stays changed). */
  datatype Outcome = Done | TypeError

  /** The active index is a valid position, and 0 when there are no tabs. */
  predicate IndexInRange(i: int, n: nat) {
    if n == 0 then i == 0 else 0 <= i < n
  }

  // ---------------------------------------------------------------------------
  // navigation

  /** The index after a keyboard direction: right and left wrap around; any other direction keeps it. */
  function NavigatedIndex(i: int, n: nat, direction: string): int {
    if n == 0 then i
    else if direction == "ArrowRight" then (i + 1) % n
    else if direction == "ArrowLeft" then (i - 1 + n) % n
    else i
  }

  /** Navigation never leaves the list, whatever its length. */
  lemma NavigationInRange(i: int, n: nat, direction: string)
    requires IndexInRange(i, n)
    ensures IndexInRange(NavigatedIndex(i, n, direction), n)
    ensures direction != "ArrowRight" && direction != "ArrowLeft" ==> NavigatedIndex(i, n, direction) == i
  {
  }

  lemma {:induction false} MulAtLeast(d: int, n: int)
    requires d >= 1 && n > 0
    ensures d * n >= n
    decreases d
  {
    if d > 1 {
      MulAtLeast(d - 1, n);
      assert d * n == (d - 1) * n + n;
    }
  }

  /** The remainder is determined by any decomposition `a == q * n + r` with `0 <= r < n`. */
  lemma ModUnique(a: int, n: int, q: int, r: int)
    requires n > 0 && 0 <= r < n && a == q * n + r
    ensures a % n == r
  {
    var q', r' := a / n, a % n;
    assert a == q' * n + r';
    if q > q' {
      MulAtLeast(q - q', n);
    } else if q < q' {
      MulAtLeast(q' - q, n);
    }
  }

  /** The index arithmetic stays below `2 n`, where the remainder is at most one subtraction. */
  lemma ModBelowTwice(x: int, n: int)
    requires n > 0 && 0 <= x < 2 * n
    ensures x % n == if x < n then x else x - n
  {
    if x < n {
      ModUnique(x, n, 0, x);
    } else {
      ModUnique(x, n, 1, x - n);
    }
  }

  /** Right and left move to the neighbouring position, wrapping at the ends. */
  lemma NavigationSteps(i: int, n: nat)
    requires 0 <= i < n
    ensures NavigatedIndex(i, n, "ArrowRight") == if i == n - 1 then 0 else i + 1
    ensures NavigatedIndex(i, n, "ArrowLeft") == if i == 0 then n - 1 else i - 1
  {
    ModBelowTwice(i + 1, n);
    ModBelowTwice(i - 1 + n, n);
  }

  /** Right from the last tab goes to the first; left from the first goes to the last; one step each way is the identity. */
  lemma NavigationWraps(i: int, n: nat)
    requires 0 <= i < n
    ensures NavigatedIndex(n - 1, n, "ArrowRight") == 0
    ensures NavigatedIndex(0, n, "ArrowLeft") == n - 1
    ensures NavigatedIndex(NavigatedIndex(i, n, "ArrowRight"), n, "ArrowLeft") == i
    ensures NavigatedIndex(NavigatedIndex(i, n, "ArrowLeft"), n, "ArrowRight") == i
  {
    NavigationSteps(n - 1, n);
    NavigationSteps(0, n);
    NavigationSteps(i, n);
    NavigationSteps(NavigatedIndex(i, n, "ArrowRight"), n);
    NavigationSteps(NavigatedIndex(i, n, "ArrowLeft"), n);
  }

  /** `k` presses of the right arrow from `i`. */
  function RightPresses(i: int, n: nat, k: nat): int {
    if k == 0 then i else NavigatedIndex(RightPresses(i, n, k - 1), n, "ArrowRight")
  }

  /** Stepping right from `a mod n` lands on `(a + 1) mod n`. */
  lemma ModSucc(a: int, n: nat)
    requires n > 0
    ensures NavigatedIndex(a % n, n, "ArrowRight") == (a + 1) % n
  {
    var q, r := a / n, a % n;
    NavigationSteps(r, n);
    if r == n - 1 {
      ModUnique(a + 1, n, q + 1, 0);
    } else {
      ModUnique(a + 1, n, q, r + 1);
    }
  }

  /** `k` presses to the right from `i` land on `(i + k) mod n`. */
  lemma {:induction false} RightPressesCycle(i: int, n: nat, k: nat)
    requires 0 <= i < n
    ensures RightPresses(i, n, k) == (i + k) % n
  {
    if k == 0 {
      ModBelowTwice(i, n);
    } else {
      RightPressesCycle(i, n, k - 1);
      ModSucc(i + k - 1, n);
    }
  }

  /** `n` presses to the right come back to the starting tab. */
  lemma FullCycle(i: int, n: nat)
    requires 0 <= i < n
    ensures RightPresses(i, n, n) == i
  {
    RightPressesCycle(i, n, n);
    ModBelowTwice(i + n, n);
  }

  /** A JavaScript number: an integer here, or NaN. */
  datatype JsNumber = Num(value: int) | NaN

  /** JavaScript's `a % b` on integers: NaN for a zero divisor, sign of the dividend otherwise. */
  function JsRemainder(a: int, b: nat): JsNumber {
    if b == 0 then NaN
    else if a >= 0 then Num(a % b)
    else Num(-((-a) % b))
  }

  /** The index arithmetic as written, without a guard for an empty list. */
  function NavigatedIndexAsWritten(i: int, n: nat, direction: string): JsNumber {
    if direction == "ArrowRight" then JsRemainder(i + 1, n)
    else if direction == "ArrowLeft" then JsRemainder(i - 1 + n, n)
    else Num(i)
  }

  /** With no tabs, either arrow makes the active index NaN, which is then persisted and sent to the renderer. */
  lemma NavigationOnEmptyListIsNaN(i: int)
    ensures NavigatedIndexAsWritten(i, 0, "ArrowRight") == NaN
    ensures NavigatedIndexAsWritten(i, 0, "ArrowLeft") == NaN
  {
  }

  /** On a non-empty list the arithmetic as written and the guarded one agree. */
  lemma NavigationAsWrittenAgrees(i: int, n: nat, direction: string)
    requires 0 <= i < n
    ensures NavigatedIndexAsWritten(i, n, direction) == Num(NavigatedIndex(i, n, direction))
  {
  }

  // ---------------------------------------------------------------------------
  // removal

  /** `splice(i, 1)`. */
  function RemoveAt<T>(s: seq<T>, i: nat): seq<T>
    requires i < |s|
  {
    s[..i] + s[i + 1..]
  }

  /** Removal drops exactly the element at `i` and keeps the others in order. */
  lemma RemoveAtSpec<T>(s: seq<T>, i: nat)
    requires i < |s|
    ensures |RemoveAt(s, i)| == |s| - 1
    ensures forall k :: 0 <= k < i ==> RemoveAt(s, i)[k] == s[k]
    ensures forall k :: i <= k < |s| - 1 ==> RemoveAt(s, i)[k] == s[k + 1]
    ensures multiset(RemoveAt(s, i)) + multiset{s[i]} == multiset(s)
  {
    assert s == s[..i] + [s[i]] + s[i + 1..];
  }

  /** The active index after removal: moved back only when it fell off the end, then to the last tab or 0. */
  function IndexAfterRemoval(i: int, newLength: nat): int {
    if i >= newLength then (if newLength - 1 > 0 then newLength - 1 else 0) else i
  }

  /** After removal the index is in range, and it is the old index clamped to the new last position. */
  lemma IndexAfterRemovalSpec(i: int, n: nat)
    requires 0 <= i < n
    ensures IndexInRange(IndexAfterRemoval(i, n - 1), n - 1)
    ensures i < n - 1 ==> IndexAfterRemoval(i, n - 1) == i
    ensures n > 1 ==> IndexAfterRemoval(i, n - 1) == if i < n - 2 then i else n - 2
  {
  }

  // ---------------------------------------------------------------------------
  // the HTTP control surface

  /** The commands the HTTP endpoint understands; any other body is the path of a new workspace. */
  datatype Command =
    | Left | Right | Close | Duplicate | ToggleFullScreen | ToggleLazygit | ToggleGitKraken
    | ActivateDarkMode | ActivateLightMode
    | SetKittyMainFocused | SetKittyLazygitFocused | SetVscodeFocused
    | WinPos | SetDefocused
    | Create(path: string)

  /** The request body that selects a command other than `Create`. */
  function Wire(c: Command): string
    requires !c.Create?
  {
    match c
    case Left => "left"
    case Right => "right"
    case Close => "close"
    case Duplicate => "duplicate"
    case ToggleFullScreen => "toggleFullScreen"
    case ToggleLazygit => "toggleLazygit"
    case ToggleGitKraken => "toggleGitKraken"
    case ActivateDarkMode => "activateDarkMode"
    case ActivateLightMode => "activateLightMode"
    case SetKittyMainFocused => "setKittyMainFocused"
    case SetKittyLazygitFocused => "setKittyLazygitFocused"
    case SetVscodeFocused => "setVscodeFocused"
    case WinPos => "winPos"
    case SetDefocused => "setDefocused"
  }

  /** The `switch (body)` of the request handler. */
  function Classify(body: string): Command {
    if body == "left" then Left
    else if body == "right" then Right
    else if body == "close" then Close
    else if body == "duplicate" then Duplicate
    else if body == "toggleFullScreen" then ToggleFullScreen
    else if body == "toggleLazygit" then ToggleLazygit
    else if body == "toggleGitKraken" then ToggleGitKraken
    else if body == "activateDarkMode" then ActivateDarkMode
    else if body == "activateLightMode" then ActivateLightMode
    else if body == "setKittyMainFocused" then SetKittyMainFocused
    else if body == "setKittyLazygitFocused" then SetKittyLazygitFocused
    else if body == "setVscodeFocused" then SetVscodeFocused
    else if body == "winPos" then WinPos
    else if body == "setDefocused" then SetDefocused
    else Create(body)
  }

  /**
   * Every named command is recognised from its wire string, and a body that
   * names no command creates a workspace whose path is the body itself.
   */
  lemma ClassifyInvertsWire(c: Command)
    requires !c.Create?
    ensures Classify(Wire(c)) == c
  {
    if c.Left? || c.Right? || c.Close? || c.Duplicate? || c.ToggleFullScreen? {
      ClassifyTabCommand(c);
    } else if c.ToggleLazygit? || c.ToggleGitKraken? || c.ActivateDarkMode? || c.ActivateLightMode? {
      ClassifyAppCommand(c);
    } else if c.SetKittyMainFocused? || c.SetKittyLazygitFocused? || c.SetVscodeFocused? {
      ClassifyFocusCommand(c);
    } else {
      ClassifyLayoutCommand(c);
    }
  }

  lemma ClassifyTabCommand(c: Command)
    requires c.Left? || c.Right? || c.Close? || c.Duplicate? || c.ToggleFullScreen?
    ensures Classify(Wire(c)) == c
  {
    match c
    case Left =>
    case Right =>
    case Close =>
    case Duplicate =>
    case ToggleFullScreen =>
  }

  lemma ClassifyAppCommand(c: Command)
    requires c.ToggleLazygit? || c.ToggleGitKraken? || c.ActivateDarkMode? || c.ActivateLightMode?
    ensures Classify(Wire(c)) == c
  {
    match c
    case ToggleLazygit =>
    case ToggleGitKraken =>
    case ActivateDarkMode =>
    case ActivateLightMode =>
  }

  lemma ClassifyFocusCommand(c: Command)
    requires c.SetKittyMainFocused? || c.SetKittyLazygitFocused? || c.SetVscodeFocused?
    ensures Classify(Wire(c)) == c
  {
    match c
    case SetKittyMainFocused =>
    case SetKittyLazygitFocused =>
    case SetVscodeFocused =>
  }

  lemma ClassifyLayoutCommand(c: Command)
    requires c.WinPos? || c.SetDefocused?
    ensures Classify(Wire(c)) == c
  {
    match c
    case WinPos =>
    case SetDefocused =>
  }

  /** Conversely, a body is either the wire string of the command it selects or the path of the workspace it creates. */
  lemma WireInvertsClassify(body: string)
    ensures Classify(body).Create? ==> Classify(body).path == body
    ensures !Classify(body).Create? ==> Wire(Classify(body)) == body
  {
    if body == "left" {
    } else if body == "right" {
    } else if body == "close" {
    } else if body == "duplicate" {
    } else if body == "toggleFullScreen" {
    } else if body == "toggleLazygit" {
    } else if body == "toggleGitKraken" {
    } else if body == "activateDarkMode" {
    } else if body == "activateLightMode" {
    } else if body == "setKittyMainFocused" {
    } else if body == "setKittyLazygitFocused" {
    } else if body == "setVscodeFocused" {
    } else if body == "winPos" {
    } else if body == "setDefocused" {
    }
  }

  /** The effects of closing a tab: its editor window by short title, its terminal windows, its lazygit windows if it has one. */
  function CloseEffects(t: Tab, home: string): seq<Effect> {
    [CloseEditorTitled(PathShort(t.path, home)), CloseTerminalWindows(t.kittyPlatformWindowId)]
      + (if HasId(t.kittyLazygitPlatformWindowId) then [CloseLazygitWindows(t.kittyLazygitPlatformWindowId.value)] else [])
  }

  /**
   * The command `changeActiveTab` issues at once for the new active tab `t`
   * (the rest of its choreography runs in callbacks): raise the editor by its
   * short title when coming from lazygit, or from the main terminal of a tab
   * without a lazygit window; look up the lazygit window when coming from
   * the main terminal of a tab that has one; otherwise look up the terminal.
   */
  function RefocusEffects(t: Tab, home: string): seq<Effect> {
    if t.focusedApp == Some(KittyLazygit) then [FocusEditorTitled(PathShort(t.path, home))]
    else if t.focusedApp == Some(KittyMain) then
      if HasId(t.kittyLazygitPlatformWindowId) then [FocusLazygit(t.kittyLazygitPlatformWindowId.value)]
      else [FocusEditorTitled(PathShort(t.path, home))]
    else [FocusTerminal(t.kittyPlatformWindowId)]
  }

  /**
   * Switching tabs issues exactly one command at once. The editor is
   * addressed by a title that expands back to the tab's path, and the
   * lazygit window is looked up only for a tab that has one.
   */
  lemma RefocusAddressesTab(t: Tab, home: string)
    requires !StartsWith(t.path, "~/")
    ensures |RefocusEffects(t, home)| == 1
    ensures RefocusEffects(t, home)[0].FocusEditorTitled? ==> ExpandHome(RefocusEffects(t, home)[0].editorTitle, home) == t.path
    ensures RefocusEffects(t, home)[0].FocusLazygit? <==> t.focusedApp == Some(KittyMain) && HasId(t.kittyLazygitPlatformWindowId)
  {
    PathShortRoundTrip(t.path, home);
  }

  /** Whether the divider line is visible after "toggleLazygit" on tab `t`. */
  function LineAfterLazygitToggle(t: Tab, visible: bool): bool {
    if t.focusedApp == Some(KittyLazygit) then
      if t.kittyLazygitToggleTarget == Some(KittyMain) then (if !Truthy(t.terminalFullScreen) then true else visible)
      else true
    else if HasId(t.kittyLazygitPlatformWindowId) then false
    else visible
  }

  /** The `open -a` commands "toggleLazygit" issues for tab `t`, applications in launch order. */
  function LazygitToggleEffects(t: Tab): seq<Effect> {
    if t.focusedApp == Some(KittyLazygit) then
      if t.kittyLazygitToggleTarget == Some(KittyMain) then [OpenApps(["Visual Studio Code", "kitty-main"])]
      else [OpenApps(["kitty-main", "Visual Studio Code"])]
    else if HasId(t.kittyLazygitPlatformWindowId) then [OpenApps(["kitty-lazygit"])]
    else []
  }

  /**
   * The divider hides on "toggleLazygit" exactly when the lazygit window is
   * the one raised, and a toggle that raises nothing leaves the divider alone.
   */
  lemma LazygitToggleHidesLine(t: Tab, visible: bool)
    ensures !LineAfterLazygitToggle(t, true) <==> LazygitToggleEffects(t) == [OpenApps(["kitty-lazygit"])]
    ensures LazygitToggleEffects(t) == [] ==> LineAfterLazygitToggle(t, visible) == visible
    ensures LazygitToggleEffects(t) != [] ==> |LazygitToggleEffects(t)| == 1
  {
  }

  // ---------------------------------------------------------------------------
  // the state machine

  class TabManager {
    var tabs: seq<Tab>
    var activeIndex: int
    var currentDisplay: Profile
    var lineVisible: bool
    // what the store holds under "storedTabs", "activeTabIndex" and "theme"
    var savedTabs: seq<Tab>
    var savedIndex: int
    var theme: Theme
    // what has been sent to the renderer and handed to external programs
    var sent: seq<UiMessage>
    var effects: seq<Effect>

    ghost predicate Valid()
      reads this
    {
      && IndexInRange(activeIndex, |tabs|)
      && savedIndex == activeIndex
      && |savedTabs| == |tabs|
    }

    /** Start-up: the state read back from the store, with the line window showing and the internal layout. */
    constructor (stored: seq<Tab>, storedIndex: int, storedTheme: Theme)
      requires IndexInRange(storedIndex, |stored|)
      ensures Valid()
      ensures tabs == stored && savedTabs == stored && activeIndex == storedIndex && theme == storedTheme
      ensures currentDisplay == Internal && lineVisible && sent == [] && effects == []
    {
      tabs, savedTabs := stored, stored;
      activeIndex, savedIndex := storedIndex, storedIndex;
      theme := storedTheme;
      currentDisplay := Internal;
      lineVisible := true;
      sent, effects := [], [];
    }

    /**
     * `changeActiveTab(direction)`: moves the index with wrap-around; only a
     * direction that is present persists the index and notifies the renderer.
     * Returns the short path used to address the new active tab's editor
     * window, or None where the source throws because there is no tab.
     */
    method ChangeActiveTab(direction: string, home: string) returns (shortPath: Option<string>)
      requires Valid()
      modifies this
      ensures Valid()
      ensures tabs == old(tabs) && savedTabs == old(savedTabs) && theme == old(theme)
      ensures currentDisplay == old(currentDisplay) && lineVisible == old(lineVisible)
      ensures activeIndex == NavigatedIndex(old(activeIndex), |tabs|, direction)
      ensures effects == old(effects) + if tabs == [] then [] else RefocusEffects(tabs[activeIndex], home)
      ensures direction == "" ==> activeIndex == old(activeIndex) && savedIndex == old(savedIndex) && sent == old(sent)
      ensures direction != "" ==> sent == old(sent) + [UpdateActiveTab(theme, activeIndex)]
      ensures shortPath == if tabs == [] then None else Some(PathShort(tabs[activeIndex].path, home))
    {
      NavigationInRange(activeIndex, |tabs|, direction);
      activeIndex := NavigatedIndex(activeIndex, |tabs|, direction);
      if direction != "" {
        savedIndex := activeIndex;
        sent := sent + [UpdateActiveTab(theme, activeIndex)];
      }
      if tabs == [] {
        shortPath := None;
      } else {
        shortPath := Some(PathShort(tabs[activeIndex].path, home));
        effects := effects + RefocusEffects(tabs[activeIndex], home);
      }
    }

    /** "left" / "right": navigate, then show the divider line unless the new active tab's terminal is fullscreen. */
    method Navigate(direction: string, home: string) returns (outcome: Outcome)
      requires Valid()
      requires direction == "ArrowLeft" || direction == "ArrowRight"
      modifies this
      ensures Valid()
      ensures tabs == old(tabs) && savedTabs == old(savedTabs) && theme == old(theme)
      ensures currentDisplay == old(currentDisplay)
      ensures activeIndex == NavigatedIndex(old(activeIndex), |tabs|, direction)
      ensures effects == old(effects) + if tabs == [] then [] else RefocusEffects(tabs[activeIndex], home)
      ensures sent == old(sent) + [UpdateActiveTab(theme, activeIndex)]
      ensures outcome == (if tabs == [] then TypeError else Done)
      ensures lineVisible == if tabs == [] then old(lineVisible) else !Truthy(tabs[activeIndex].terminalFullScreen)
    {
      var shortPath := ChangeActiveTab(direction, home);
      if shortPath.None? {
        outcome := TypeError;
      } else {
        lineVisible := !Truthy(tabs[activeIndex].terminalFullScreen);
        outcome := Done;
      }
    }

    /**
     * `closeActiveTab`: on an empty list nothing happens. Otherwise the
     * active tab's windows are closed, the tab is spliced out, the index is
     * clamped, both are persisted, the renderer is told, and the new active
     * tab is refocused without moving the index.
     */
    method CloseActiveTab(home: string) returns (outcome: Outcome)
      requires Valid()
      modifies this
      ensures Valid()
      ensures old(tabs) == [] ==>
        && tabs == old(tabs) && activeIndex == old(activeIndex) && savedTabs == old(savedTabs)
        && sent == old(sent) && effects == old(effects) && outcome == Done
      ensures old(tabs) != [] ==>
        && tabs == RemoveAt(old(tabs), old(activeIndex))
        && activeIndex == IndexAfterRemoval(old(activeIndex), |tabs|)
        && savedTabs == tabs
        && sent == old(sent) + [UpdateTabs(tabs, activeIndex)]
        && effects == old(effects) + CloseEffects(old(tabs)[old(activeIndex)], home)
             + (if tabs == [] then [] else RefocusEffects(tabs[activeIndex], home))
        && outcome == (if tabs == [] then TypeError else Done)
      ensures theme == old(theme) && currentDisplay == old(currentDisplay) && lineVisible == old(lineVisible)
    {
      if tabs == [] {
        outcome := Done;
        return;
      }
      effects := effects + CloseEffects(tabs[activeIndex], home);
      IndexAfterRemovalSpec(activeIndex, |tabs|);
      tabs := RemoveAt(tabs, activeIndex);
      activeIndex := IndexAfterRemoval(activeIndex, |tabs|);
      savedTabs, savedIndex := tabs, activeIndex;
      sent := sent + [UpdateTabs(tabs, activeIndex)];
      var shortPath := ChangeActiveTab("", home);
      outcome := if shortPath.None? then TypeError else Done;
    }

    /**
     * Any unrecognised body: append a new workspace at `path` (the index does
     * not move yet), persist, tell the renderer, launch a terminal and open
     * the editor there.
     */
    method CreateWorkspace(path: string)
      requires Valid()
      modifies this
      ensures Valid()
      ensures tabs == old(tabs) + [NewWorkspace(path)] && savedTabs == tabs
      ensures activeIndex == old(activeIndex) && savedIndex == old(savedIndex)
      ensures sent == old(sent) + [AddNewButton(path)]
      ensures effects == old(effects) + [LaunchTerminal(path), OpenEditor(path)]
      ensures theme == old(theme) && currentDisplay == old(currentDisplay) && lineVisible == old(lineVisible)
    {
      tabs := tabs + [NewWorkspace(path)];
      savedTabs := tabs;
      sent := sent + [AddNewButton(path)];
      effects := effects + [LaunchTerminal(path), OpenEditor(path)];
    }

    /** The renderer's "new-tab" reply to an added button: the last tab becomes active. */
    method NewTab()
      requires Valid() && tabs != []
      modifies this
      ensures Valid()
      ensures activeIndex == |tabs| - 1 && savedIndex == activeIndex
      ensures sent == old(sent) + [UpdateActiveTab(theme, activeIndex)]
      ensures tabs == old(tabs) && savedTabs == old(savedTabs) && effects == old(effects)
      ensures theme == old(theme) && currentDisplay == old(currentDisplay) && lineVisible == old(lineVisible)
    {
      activeIndex := |tabs| - 1;
      savedIndex := activeIndex;
      sent := sent + [UpdateActiveTab(theme, activeIndex)];
    }

    /** "duplicate": append a tab holding only the active tab's path. */
    method DuplicateActiveTab() returns (outcome: Outcome)
      requires Valid()
      modifies this
      ensures Valid()
      ensures outcome == (if old(tabs) == [] then TypeError else Done)
      ensures old(tabs) == [] ==> tabs == old(tabs) && savedTabs == old(savedTabs) && sent == old(sent)
      ensures old(tabs) != [] ==>
        && tabs == old(tabs) + [PathOnly(old(tabs)[old(activeIndex)].path)]
        && savedTabs == tabs
        && sent == old(sent) + [AddNewButton(old(tabs)[old(activeIndex)].path)]
      ensures activeIndex == old(activeIndex) && savedIndex == old(savedIndex) && effects == old(effects)
      ensures theme == old(theme) && currentDisplay == old(currentDisplay) && lineVisible == old(lineVisible)
    {
      activeIndex := savedIndex;
      if tabs == [] {
        outcome := TypeError;
        return;
      }
      var path := tabs[activeIndex].path;
      sent := sent + [AddNewButton(path)];
      tabs := tabs + [PathOnly(path)];
      savedTabs := tabs;
      outcome := Done;
    }

    /**
     * "toggleFullScreen": flip the active tab's terminal flag, show the
     * divider exactly when the terminal is no longer fullscreen, move the
     * terminal to the matching width, refocus it and persist the tabs.
     */
    method ToggleTerminalFullScreen() returns (outcome: Outcome)
      requires Valid()
      modifies this
      ensures Valid()
      ensures outcome == (if old(tabs) == [] then TypeError else Done)
      ensures old(tabs) == [] ==> tabs == old(tabs) && savedTabs == old(savedTabs) && effects == old(effects) && lineVisible == old(lineVisible)
      ensures old(tabs) != [] ==>
        var fullscreen := Truthy(ToggleTerminal(old(tabs)[old(activeIndex)]).terminalFullScreen);
        && tabs == old(tabs)[old(activeIndex) := ToggleTerminal(old(tabs)[old(activeIndex)])]
        && savedTabs == tabs
        && fullscreen == !Truthy(old(tabs)[old(activeIndex)].terminalFullScreen)
        && lineVisible == !fullscreen
        && effects == old(effects) + [SetTerminalPosition(TerminalRequest(currentDisplay, fullscreen)), FocusTerminal(old(tabs)[old(activeIndex)].kittyPlatformWindowId)]
      ensures activeIndex == old(activeIndex) && savedIndex == old(savedIndex) && sent == old(sent)
      ensures theme == old(theme) && currentDisplay == old(currentDisplay)
    {
      activeIndex := savedIndex;
      if tabs == [] {
        outcome := TypeError;
        return;
      }
      ToggleTerminalTwice(tabs[activeIndex]);
      tabs := tabs[activeIndex := ToggleTerminal(tabs[activeIndex])];
      var fullscreen := Truthy(tabs[activeIndex].terminalFullScreen);
      lineVisible := !fullscreen;
      effects := effects + [SetTerminalPosition(TerminalRequest(currentDisplay, fullscreen)), FocusTerminal(tabs[activeIndex].kittyPlatformWindowId)];
      savedTabs := tabs;
      outcome := Done;
    }

    /**
     * "setKittyMainFocused": the active tab focuses the main terminal, which
     * also becomes its lazygit toggle target; the divider shows unless the
     * terminal is fullscreen. With no tab the handler throws before the line
     * changes. The change is not persisted.
     */
    method FocusKittyMain() returns (outcome: Outcome)
      requires Valid()
      modifies this
      ensures Valid()
      ensures outcome == (if tabs == [] then TypeError else Done)
      ensures old(tabs) == [] ==> tabs == old(tabs) && lineVisible == old(lineVisible)
      ensures old(tabs) != [] ==>
        && tabs == old(tabs)[old(activeIndex) := old(tabs)[old(activeIndex)].(focusedApp := Some(KittyMain), kittyLazygitToggleTarget := Some(KittyMain))]
        && lineVisible == !Truthy(old(tabs)[old(activeIndex)].terminalFullScreen)
      ensures activeIndex == old(activeIndex) && savedIndex == old(savedIndex) && savedTabs == old(savedTabs)
      ensures sent == old(sent) && effects == old(effects) && theme == old(theme) && currentDisplay == old(currentDisplay)
    {
      if tabs == [] {
        outcome := TypeError;
        return;
      }
      tabs := tabs[activeIndex := tabs[activeIndex].(focusedApp := Some(KittyMain), kittyLazygitToggleTarget := Some(KittyMain))];
      lineVisible := !Truthy(tabs[activeIndex].terminalFullScreen);
      outcome := Done;
    }

    /** "setKittyLazygitFocused": the active tab (if any) focuses lazygit, and the divider hides. Not persisted. */
    method FocusKittyLazygit()
      requires Valid()
      modifies this
      ensures Valid()
      ensures old(tabs) == [] ==> tabs == old(tabs)
      ensures old(tabs) != [] ==> tabs == old(tabs)[old(activeIndex) := old(tabs)[old(activeIndex)].(focusedApp := Some(KittyLazygit))]
      ensures !lineVisible
      ensures activeIndex == old(activeIndex) && savedIndex == old(savedIndex) && savedTabs == old(savedTabs)
      ensures sent == old(sent) && effects == old(effects) && theme == old(theme) && currentDisplay == old(currentDisplay)
    {
      if tabs != [] {
        tabs := tabs[activeIndex := tabs[activeIndex].(focusedApp := Some(KittyLazygit))];
      }
      lineVisible := false;
    }

    /** "setVscodeFocused": the active tab (if any) focuses the editor, which becomes its toggle target, and the divider shows. Not persisted. */
    method FocusVscode()
      requires Valid()
      modifies this
      ensures Valid()
      ensures old(tabs) == [] ==> tabs == old(tabs)
      ensures old(tabs) != [] ==> tabs == old(tabs)[old(activeIndex) := old(tabs)[old(activeIndex)].(focusedApp := Some(Vscode), kittyLazygitToggleTarget := Some(Vscode))]
      ensures lineVisible
      ensures activeIndex == old(activeIndex) && savedIndex == old(savedIndex) && savedTabs == old(savedTabs)
      ensures sent == old(sent) && effects == old(effects) && theme == old(theme) && currentDisplay == old(currentDisplay)
    {
      if tabs != [] {
        tabs := tabs[activeIndex := tabs[activeIndex].(focusedApp := Some(Vscode), kittyLazygitToggleTarget := Some(Vscode))];
      }
      lineVisible := true;
    }

    /** "toggleLazygit": raise the windows named by the active tab's focus and toggle target, and set the divider to match. */
    method ToggleLazygitWindow() returns (outcome: Outcome)
      requires Valid()
      modifies this`lineVisible, this`effects
      ensures outcome == (if tabs == [] then TypeError else Done)
      ensures lineVisible == if tabs == [] then old(lineVisible) else LineAfterLazygitToggle(tabs[activeIndex], old(lineVisible))
      ensures effects == old(effects) + if tabs == [] then [] else LazygitToggleEffects(tabs[activeIndex])
    {
      if tabs == [] {
        outcome := TypeError;
        return;
      }
      var t := tabs[activeIndex];
      if t.focusedApp == Some(KittyLazygit) {
        if t.kittyLazygitToggleTarget == Some(KittyMain) {
          effects := effects + [OpenApps(["Visual Studio Code", "kitty-main"])];
          if !Truthy(t.terminalFullScreen) {
            lineVisible := true;
          }
        } else {
          effects := effects + [OpenApps(["kitty-main", "Visual Studio Code"])];
          lineVisible := true;
        }
      } else if HasId(t.kittyLazygitPlatformWindowId) {
        effects := effects + [OpenApps(["kitty-lazygit"])];
        lineVisible := false;
      }
      outcome := Done;
    }

    /**
     * "toggleGitKraken": reload tabs and index from the store (discarding
     * unsaved focus changes), open GitKraken at the active tab's path with a
     * leading `~` expanded, mark GitKraken visible and persist.
     */
    method OpenGitKraken() returns (outcome: Outcome)
      requires Valid()
      modifies this
      ensures Valid()
      ensures outcome == (if old(savedTabs) == [] then TypeError else Done)
      ensures old(savedTabs) == [] ==> tabs == old(savedTabs) && savedTabs == old(savedTabs) && effects == old(effects)
      ensures old(savedTabs) != [] ==>
        var t := old(savedTabs)[old(savedIndex)];
        && tabs == old(savedTabs)[old(savedIndex) := t.(gitkrakenVisible := Some(true))]
        && savedTabs == tabs
        && effects == old(effects) + [LaunchGitKraken(GitKrakenPath(t.path))]
      ensures activeIndex == old(activeIndex) && savedIndex == old(savedIndex)
      ensures sent == old(sent) && theme == old(theme) && currentDisplay == old(currentDisplay) && lineVisible == old(lineVisible)
    {
      tabs := savedTabs;
      activeIndex := savedIndex;
      if tabs == [] {
        outcome := TypeError;
        return;
      }
      var t := tabs[activeIndex];
      effects := effects + [LaunchGitKraken(GitKrakenPath(t.path))];
      tabs := tabs[activeIndex := t.(gitkrakenVisible := Some(true))];
      savedTabs := tabs;
      outcome := Done;
    }

    /** "activateDarkMode" / "activateLightMode": persist the theme and tell the renderer. */
    method ActivateTheme(t: Theme)
      requires Valid()
      modifies this
      ensures Valid()
      ensures theme == t && sent == old(sent) + [ChangeTheme(t, activeIndex)]
      ensures tabs == old(tabs) && activeIndex == old(activeIndex) && savedIndex == old(savedIndex) && savedTabs == old(savedTabs)
      ensures effects == old(effects) && currentDisplay == old(currentDisplay) && lineVisible == old(lineVisible)
    {
      theme := t;
      activeIndex := savedIndex;
      sent := sent + [ChangeTheme(t, activeIndex)];
    }

    /** "winPos": the layout is external exactly when more than one display is attached. */
    method DetectAndSetCurrentDisplay(displayCount: nat)
      modifies this`currentDisplay
      ensures currentDisplay == External <==> displayCount > 1
    {
      currentDisplay := if displayCount > 1 then External else Internal;
    }

    /** "setDefocused": hide the divider. */
    method Defocus()
      modifies this`lineVisible
      ensures !lineVisible
    {
      lineVisible := false;
    }

    /**
     * The request handler: dispatches the body to the operation it names and
     * treats any other body, the empty one included, as a new workspace path.
     */
    method HandleRequest(body: string, home: string, displayCount: nat) returns (outcome: Outcome)
      requires Valid()
      modifies this
      ensures Valid()
      ensures Classify(body).Create? ==>
        && tabs == old(tabs) + [NewWorkspace(body)] && activeIndex == old(activeIndex) && outcome == Done
      ensures Classify(body) == Left ==> tabs == old(tabs) && activeIndex == NavigatedIndex(old(activeIndex), |tabs|, "ArrowLeft")
      ensures Classify(body) == Right ==> tabs == old(tabs) && activeIndex == NavigatedIndex(old(activeIndex), |tabs|, "ArrowRight")
      ensures Classify(body) == Close ==>
        if old(tabs) == [] then tabs == old(tabs) && activeIndex == old(activeIndex)
        else tabs == RemoveAt(old(tabs), old(activeIndex)) && activeIndex == IndexAfterRemoval(old(activeIndex), |tabs|)
      ensures Classify(body) !in {Left, Right, Close} ==> activeIndex == old(activeIndex)
      ensures Classify(body) == Duplicate ==>
        tabs == if old(tabs) == [] then old(tabs) else old(tabs) + [PathOnly(old(tabs)[old(activeIndex)].path)]
      ensures Classify(body) == ToggleFullScreen ==>
        tabs == if old(tabs) == [] then old(tabs) else old(tabs)[old(activeIndex) := ToggleTerminal(old(tabs)[old(activeIndex)])]
      ensures Classify(body) == SetKittyMainFocused ==>
        tabs == if old(tabs) == [] then old(tabs)
          else old(tabs)[old(activeIndex) := old(tabs)[old(activeIndex)].(focusedApp := Some(KittyMain), kittyLazygitToggleTarget := Some(KittyMain))]
      ensures Classify(body) == SetKittyLazygitFocused ==>
        tabs == if old(tabs) == [] then old(tabs)
          else old(tabs)[old(activeIndex) := old(tabs)[old(activeIndex)].(focusedApp := Some(KittyLazygit))]
      ensures Classify(body) == SetVscodeFocused ==>
        tabs == if old(tabs) == [] then old(tabs)
          else old(tabs)[old(activeIndex) := old(tabs)[old(activeIndex)].(focusedApp := Some(Vscode), kittyLazygitToggleTarget := Some(Vscode))]
      ensures Classify(body) == ToggleGitKraken ==>
        tabs == if old(savedTabs) == [] then old(savedTabs)
          else old(savedTabs)[old(activeIndex) := old(savedTabs)[old(activeIndex)].(gitkrakenVisible := Some(true))]
      ensures Classify(body) in {ToggleLazygit, ActivateDarkMode, ActivateLightMode, WinPos, SetDefocused} ==> tabs == old(tabs)
      ensures |tabs| >= |old(tabs)| - 1
    {
      outcome := Done;
      match Classify(body)
      case Left => outcome := Navigate("ArrowLeft", home);
      case Right => outcome := Navigate("ArrowRight", home);
      case Close => outcome := CloseActiveTab(home);
      case Duplicate => outcome := DuplicateActiveTab();
      case ToggleFullScreen => outcome := ToggleTerminalFullScreen();
      case ToggleLazygit => outcome := ToggleLazygitWindow();
      case ToggleGitKraken => outcome := OpenGitKraken();
      case ActivateDarkMode => ActivateTheme(Dark);
      case ActivateLightMode => ActivateTheme(Light);
      case SetKittyMainFocused => outcome := FocusKittyMain();
      case SetKittyLazygitFocused => FocusKittyLazygit();
      case SetVscodeFocused => FocusVscode();
      case WinPos => DetectAndSetCurrentDisplay(displayCount);
      case SetDefocused => Defocus();
      case Create(path) => CreateWorkspace(path);
    }
  }
}
