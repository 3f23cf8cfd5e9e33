# Workspace switcher: tab state machine and window layout

The workspace switcher keeps an ordered list of workspaces ("tabs"). Each
tab is a project directory with a terminal window, an editor window and
optionally a lazygit window. One tab is active. A top bar shows the tabs, and
a one-pixel divider line sits between the terminal and the editor.
Commands arrive as plain-text HTTP request bodies (`left`, `right`, `close`,
`duplicate`, `toggleFullScreen`, ..., or a directory path that creates a new
workspace) and as IPC messages from the top-bar renderer (`new-tab`).

This project models, in Dafny:

- **Tab state machine** (`main.js`), in module `Workspace`, class
  `TabManager`. The module-level `storedTabs` / `activeTabIndex` are fields of
  the class. So are:
  - the values last written to the persistent store (`savedTabs`,
    `savedIndex`, `theme`);
  - the divider's visibility;
  - the current display profile;
  - a log of the messages sent to the renderer;
  - a log of the commands handed to external programs.

  Each HTTP command and IPC handler is a method whose contract states the
  whole new state. Pure parts are functions with lemmas:
  - index navigation with wrap-around;
  - removal with index clamping;
  - request classification.
- **Tab record** (`Tabs`): every field except `path` is optional, because
  `duplicate` pushes a record holding only `path`. Flags are read by
  JavaScript truthiness.
- **Helpers** (`Paths`, `Layout`, `ProcessList`):
  - the `~/` shortening of paths used to address editor windows;
  - the `defaultPositions` layout table;
  - extraction of the kitty PID from `ps aux | grep` output.
- **JavaScript built-ins** (`JsText`) the above depend on: `trim`,
  `indexOf`/`includes`, `replace` of the first occurrence, `split("\n")` and
  `split(/\s+/)`.
- **Window manager** (`windowManager.js`), in module `WindowManagement`,
  class `WindowManager`:
  - the display profile, chosen by the primary display's width;
  - screen dimensions and the hidden-edge reset for known monitors;
  - the top-bar bounds, as exact reals;
  - positioning requests, as a log;
  - the flag flip of `toggleFullscreen`, on a tab object shared with the
    caller (`TabCell`).

A handler that throws a `TypeError` because the active tab does not exist
returns the `TypeError` outcome. The state it had changed before the throw
stays changed.

The model follows the code where it departs from the documented behaviour:

- A created workspace does not become active at once. The index moves only
  when the renderer answers `add-new-button` with `new-tab`.
- Any body that names no command creates a workspace, the empty body
  included.
- `toggleFullScreen` always flips the terminal flag. It does not use
  `focusedApp`.
- `focusedApp` takes the values `kitty`, `kitty-main`, `kitty-lazygit` and
  `vscode`.
- Navigation does not clear any git-GUI "initialized" flag.
- `main.js` has its own `detectAndSetCurrentDisplay`. It chooses the profile
  by display count: external when more than one display is attached. The one
  in `windowManager.js` chooses it by width. Both are modelled.
- Closing the last tab ends in a `TypeError`: `changeActiveTab()` reads the
  path of a tab that no longer exists.

## Model

| member | source | states |
|---|---|---|
| JsText.Trim | windowManager.js:256-261 | the result is a slice of the input with only white space removed at either end, and it neither starts nor ends with white space |
| JsText.TrimPadding | windowManager.js:256-261 | trimming a core without outer white space surrounded by white-space padding gives back the core |
| JsText.TrimOfTrimmed | windowManager.js:256-261 | a string that neither starts nor ends with white space is its own trim |
| JsText.TrimIdempotent | windowManager.js:256-261 | trimming twice is trimming once |
| JsText.IndexOf | windowManager.js:268 | the result is the first position where the pattern occurs, or -1 exactly when it occurs nowhere |
| JsText.Split | main.js:50 | splitting on a separator yields at least one part, and no part contains the separator |
| JsText.JoinSplit | main.js:50 | joining the parts of a split with the separator gives back the original string |
| JsText.Fields | main.js:60 | splitting on runs of white space yields at least one field, and no field contains white space |
| JsText.FieldsOfWord | main.js:60 | a string without white space is a single field, itself |
| JsText.FieldsLeadingRun | main.js:60 | a leading run of white space produces an empty first field and is otherwise dropped |
| JsText.FieldsAtRun | main.js:60 | a word followed by a run of white space is cut exactly at that run: the word is the first field and the fields of the rest follow |
| Layout.LayoutGeometry | main.js:16-29 | in both profiles the terminal ends where the editor and the 1-pixel line begin, the fullscreen terminal keeps the terminal's x, all rectangles share y and height, and fullscreen is wider |
| Layout.FullscreenSpan | main.js:16-29 | the external fullscreen terminal ends exactly at the editor's right edge; the internal one extends 192 pixels past it |
| Layout.TerminalRequestIsTableEntry | main.js:1320-1329 | the terminal placement takes x, y and height from `terminal` and the width from `terminalFullscreen` exactly when fullscreen, so it equals that table entry |
| Paths.PathShortSpec | main.js:369-376 | a path strictly below home becomes `~` followed by the rest after home; every other path is unchanged |
| Paths.PathShortOfHome | main.js:369-376 | the home directory itself is not shortened |
| Paths.PathShortRoundTrip | main.js:1030-1037 | expanding `~/` back to home recovers the original path, for paths not already starting with `~/` |
| Paths.PathShortMarksHome | main.js:1030-1037 | the short form starts with `~/` exactly when the path lies below home |
| Paths.GitKrakenPathResolved | main.js:1429-1432 | the path given to GitKraken never starts with `~`, rewriting is idempotent, and paths without a leading `~` pass unchanged |
| ProcessList.WithoutGrep | main.js:53 | a line is kept exactly when it is an input line that does not mention grep, and the result is empty exactly when every line mentions grep |
| ProcessList.WithoutGrepFirst | main.js:53-57 | the first kept line is the first input line that does not mention grep |
| ProcessList.SecondColumn | main.js:60 | the second column is never "not found", and a PID it returns has no white space |
| ProcessList.SecondColumnIsPid | main.js:58-60 | on a `ps aux` line of the form user, white space, PID, white space, rest, the second column is exactly the PID |
| ProcessList.ParsePidAsWritten | main.js:50-65 | the lookup reports "not found" exactly when every output line mentions grep |
| ProcessList.GrepOnlyOutputLeavesPidUndefined | main.js:50-65 | when the only match is grep's own line plus the trailing newline, the PID is left undefined rather than reported missing |
| ProcessList.GrepOnlyExample | main.js:50-65 | the same on the concrete output `olof 812 grep kitty\n` |
| ProcessList.ProcessLines | main.js:53 | a line is kept exactly when it is an input line that is neither blank nor mentions grep, and the result is empty exactly when there is none |
| ProcessList.ProcessLinesFirst | main.js:53-57 | the first kept line is the first input line that is neither blank nor mentions grep |
| ProcessList.ProcessLineIsNonBlank | main.js:53 | a line is a process line exactly when it does not mention grep and does not trim to the empty string |
| ProcessList.ParsePid | main.js:50-65 | the corrected lookup is never undefined, a PID it returns is non-empty and has no white space, and output without process lines is "not found" |
| ProcessList.GrepOnlyOutputIsNotFound | main.js:50-65 | with the correction, grep's own line alone is "not found" |
| ProcessList.ParsePidAgrees | main.js:50-65 | whenever the lookup as written finds a non-empty PID, the corrected lookup finds the same one |
| Tabs.FreshRecords | main.js:1518-1526 | a new workspace has `focusedApp` kitty, empty window ids, terminal not fullscreen, GitKraken hidden and no fullscreen apps; a duplicate has only the path and is falsy in every flag and id |
| Tabs.ToggleTerminalTwice | main.js:1315-1316 | the toggle flips the terminal flag's truthiness and nothing else; two toggles restore the truthiness, and the record exactly when the flag was present |
| Tabs.ToggleEditorTwice | windowManager.js:270 | the same for the editor flag |
| Workspace.NavigationInRange | main.js:350-355 | the navigated index stays a valid position (0 for an empty list); any other direction leaves it unchanged |
| Workspace.NavigationSteps | main.js:350-355 | right moves to the next tab and wraps from the last to the first; left moves to the previous tab and wraps from the first to the last |
| Workspace.NavigationWraps | main.js:350-355 | right from the last tab is the first, left from the first is the last, and right-then-left and left-then-right return to the start |
| Workspace.RightPressesCycle | main.js:350-351 | k presses of right from i land on (i + k) mod n |
| Workspace.FullCycle | main.js:350-351 | n presses of right come back to the starting tab |
| Workspace.NavigationOnEmptyListIsNaN | main.js:350-363 | with no tabs, the index arithmetic as written yields NaN for either arrow |
| Workspace.NavigationAsWrittenAgrees | main.js:350-355 | on a non-empty list the arithmetic as written (JavaScript remainder) equals the guarded navigation |
| Workspace.RemoveAtSpec | main.js:1153 | `splice(i, 1)` drops exactly the element at i, shifts the later ones down by one, keeps the order, and preserves the multiset minus that element |
| Workspace.IndexAfterRemovalSpec | main.js:1156-1158 | after removal the index is valid; it moves only when it fell off the end, and then to the new last position |
| Workspace.ClassifyInvertsWire | main.js:1289-1512 | each named command is recognised from its own request body |
| Workspace.WireInvertsClassify | main.js:1289-1513 | every body is either exactly the wire string of the command it selects or the path of the workspace it creates |
| Workspace.TabManager.constructor | main.js:1271-1272 | start-up state is the stored tabs, index and theme, with the internal layout and nothing sent yet |
| Workspace.TabManager.ChangeActiveTab | main.js:344-376 | the index moves with wrap-around; only a present direction persists it and sends `update-active-tab`; the tab list and saved tabs are untouched; the one command issued at once for the new active tab is logged; the short path of the new active tab is returned, and none when there is no tab |
| Workspace.RefocusAddressesTab | main.js:378-936 | switching tabs issues exactly one command at once; the editor is raised by a short title that expands back to the tab's path, and the lazygit window is looked up exactly when the main terminal of a tab with a lazygit window was focused |
| Workspace.TabManager.Navigate | main.js:1290-1301 | after navigating, the refocus command for the new active tab is logged and the divider is visible exactly when its terminal is not fullscreen; with no tab the handler throws |
| Workspace.TabManager.CloseActiveTab | main.js:1026-1171 | on an empty list nothing changes; otherwise the active tab is removed, its editor, terminal and (if bound) lazygit windows are closed, the index is clamped, both are persisted, `update-tabs` is sent, the refocus command for the new active tab is logged, and closing the last tab ends in a TypeError |
| Workspace.TabManager.CreateWorkspace | main.js:1513-1535 | exactly one new workspace record is appended and persisted, earlier tabs and the index are unchanged, `add-new-button` is sent, and a terminal and an editor are launched at the path |
| Workspace.TabManager.NewTab | main.js:1213-1220 | the last tab becomes active, is persisted and is announced |
| Workspace.TabManager.DuplicateActiveTab | main.js:1305-1311 | a record holding only the active tab's path is appended and persisted, and `add-new-button` is sent with that path; with no tab the handler throws |
| Workspace.TabManager.ToggleTerminalFullScreen | main.js:1313-1369 | only the active tab's terminal flag flips; the divider is visible exactly when the new flag is false; the terminal is placed at the table rectangle for the new flag and refocused; the tabs are persisted |
| Workspace.TabManager.ToggleLazygitWindow | main.js:1370-1389 | from lazygit, the editor and the main terminal are raised in the order the toggle target gives and the divider shows (unless going back to a fullscreen terminal); otherwise lazygit is raised and the divider hides when the tab has a lazygit window; with no tab the handler throws |
| Workspace.LazygitToggleHidesLine | main.js:1370-1389 | the divider hides exactly when the lazygit window is the one raised, at most one command is issued, and a toggle that raises nothing leaves the divider alone |
| Workspace.TabManager.OpenGitKraken | main.js:1390-1467 | tabs and index are reloaded from the store, GitKraken is opened at the active path with `~` expanded, the tab is marked visible and persisted |
| Workspace.TabManager.ActivateTheme | main.js:1468-1477 | the theme is stored and `change-theme` is sent with the stored index |
| Workspace.TabManager.FocusKittyMain | main.js:1478-1486 | the active tab focuses the main terminal, which also becomes its lazygit toggle target; the divider follows the terminal flag; with no tab the handler throws |
| Workspace.TabManager.FocusKittyLazygit | main.js:1487-1492 | the active tab, if any, focuses lazygit and the divider hides |
| Workspace.TabManager.FocusVscode | main.js:1493-1499 | the active tab, if any, focuses the editor, which becomes its toggle target, and the divider shows |
| Workspace.TabManager.DetectAndSetCurrentDisplay | main.js:177-181 | the profile is external exactly when more than one display is attached |
| Workspace.TabManager.Defocus | main.js:1509-1511 | the divider hides |
| Workspace.TabManager.HandleRequest | main.js:1276-1712 | for every command, the new tab list and index: arrows navigate without touching the tabs; close removes the active tab and clamps the index; duplicate, toggleFullScreen and the three focus commands change the list as their handlers do; toggleGitKraken reloads the stored tabs and marks the active one; the theme, winPos, setDefocused and toggleLazygit commands leave the tabs alone; only the arrows and close move the index; any other body appends one new workspace; no request shrinks the list by more than one tab |
| WindowManagement.TopBarGeometry | windowManager.js:170-179 | the bar is 2% of the screen high; internal: at the origin and full width; external: inset by the hidden edge on the left, right and top, so centred, and on screen while the edge is at most half |
| WindowManagement.EdgelessTopBar | windowManager.js:170-179 | with no hidden edge the external bar coincides with the internal one |
| WindowManagement.TargetOfSpec | windowManager.js:265-268 | exactly "Ubuntu" targets the terminal, a name containing "(Text Editor)" targets the editor, any other name targets nothing |
| WindowManagement.TrimmedLogSelectsTerminal | windowManager.js:256-265 | a log holding "Ubuntu" followed by a newline still targets the terminal, because the contents are trimmed |
| WindowManagement.ToggledForSpec | windowManager.js:265-272 | a toggle flips only the flag of the targeted window, and two toggles for the same name restore both flags' truthiness |
| WindowManagement.WindowManager.constructor | windowManager.js:9-15 | the initial state: internal profile, hidden edge 0.01, no top-bar window |
| WindowManagement.WindowManager.SetMainWindow | windowManager.js:146-148 | a top-bar window is registered |
| WindowManagement.WindowManager.DetectAndSetCurrentDisplay | windowManager.js:132-140 | returns and stores internal exactly when the primary width is 1463 or 1707 |
| WindowManagement.WindowManager.GetScreenDimensionsRaw | windowManager.js:53-86 | returns the display's bounds unchanged; clears the hidden edge for 2048x1152 and 2560x1440 and leaves it alone otherwise |
| WindowManagement.WindowManager.GetScreenDimensionsScaled | windowManager.js:23-48 | 2048x1152 gives twice the scaled width and the scaled height, with no hidden edge; any other display gives the scaled size, with the hidden edge reset to 0.01 |
| WindowManagement.WindowManager.UpdateTopBarPositionAndSize | windowManager.js:161-182 | with a top-bar window, its bounds become the top-bar bounds for the current profile, the freshly read size and the hidden edge after that read; without one nothing changes |
| WindowManagement.WindowManager.PositionKittyWindow | windowManager.js:202-211 | one terminal placement is issued for the current profile |
| WindowManagement.WindowManager.PositionEditorWindow | windowManager.js:216-231 | one editor placement is issued for the current profile |
| WindowManagement.WindowManager.ApplyDisplayLayout | windowManager.js:236-242 | the profile is re-detected, the terminal and then the editor are placed non-fullscreen for it, and with a top-bar window the hidden edge is cleared for an edgeless display and the bar gets the bounds for the new profile and edge; without one, edge and bar stay as they were |
| WindowManagement.WindowManager.ToggleFullscreen | windowManager.js:247-277 | when the log cannot be read nothing changes and nothing is returned; otherwise the shared tab's flag for the trimmed name's window flips, that window is re-placed with the new flag, and the same tab is returned |

## Left out

- Every `exec` call (`curl` to the window mover, `kitty @`, `jq`, `open -a`, `osascript`, `code`, the GitKraken CLI, AutoHotkey) is a foreign process. The model records each one that is issued synchronously as an entry in a log. Its output and success are not modelled.
- The output of the kitty window-listing commands is not modelled. Closing a tab's windows is one log entry per window group, not one per window id.
- `changeActiveTab` (main.js:378-1023) issues one command at once, which is logged. The focus and rebinding choreography it then runs in that command's callbacks is left out, and so are the window-id rebinding callbacks after a create (main.js:1568-1598). They are asynchronous and time-delayed, and their effect depends on racing external processes. The editor's process id in the focus request is not modelled; the request is logged by the editor's title.
- In `closeActiveTab` the splice runs inside the callback of the editor-close command. The model performs it at once, in the same step.
- `enqueueRequest` / `executeCurl` (windowManager.js:93-126) serialise asynchronous requests. That is concurrency.
- `positionWindow` (windowManager.js:187-197) is left out. Its point is floating-point rounding with `Math.floor`, and nothing calls it.
- The Electron lifecycle (window creation, display and power listeners, `setBounds`, show/hide of the line window) is left out. The line window is tracked as a single visibility flag. Its existence check in `setLineWindowVisible` is not modelled.
- main.js's own top-bar and line-window resizing is not part of this model, and neither is `onExternalDisplaysConnected`.
- The HTTP handler's check that the top-bar window exists (`Main window not available`) is not modelled. The model assumes the window exists.
- The branch of `toggleGitKraken` taken when `gitkrakenVisible` is true is dead code: the flag is the constant `false` at main.js:1286. Only the other branch is modelled.
- The persistent store is modelled as three fields holding the last values written. Its durability is not modelled.
- The renderer (`renderer.js`), `httpHandler.js`, `test.js` and `main-wrapper.js` are not part of this model.
- Workspace.TabManager.NewTab: requires a non-empty tab list. The renderer sends `new-tab` only in reply to `add-new-button`, which always follows an append. On an empty list the source would set the index to -1.
- WindowManagement.WindowManager.GetScreenDimensionsScaled: the scale factor is an exact real, not a double. Floating-point rounding of the products is not modelled.
- Workspace.TabManager.HandleRequest: states what each command does to the tab list and the index. The messages sent, the commands issued, the divider, the theme and the profile are stated by the method each branch dispatches to.
- Workspace.TabManager.ChangeActiveTab: uses the guarded index arithmetic (see Findings) instead of the arithmetic as written. The two agree on every non-empty list.

## Findings

| source | as written | input that shows it | evidently intended | confidence | as-written member | corrected member |
|---|---|---|---|---|---|---|
| main.js:350-363 | the index becomes `(i + 1) % storedTabs.length` (or the left counterpart) with no guard for an empty list, and the result is persisted and sent | no tabs, request `right`: `1 % 0` is NaN, and NaN is stored as the active index | leave the index unchanged when there are no tabs | not executed | Workspace.NavigationOnEmptyListIsNaN | Workspace.NavigationInRange |
| main.js:50-65 | the output is split on `"\n"` and grep's own line is filtered out, but the empty string after the final newline survives the filter; its second column is `undefined` | `ps aux \| grep` output `olof 812 grep kitty\n` (kitty not running) sets the PID to `undefined` instead of reporting that the process was not found | ignore blank lines and report "not found" | not executed | ProcessList.GrepOnlyExample | ProcessList.GrepOnlyOutputIsNotFound |
