/**
 * The tab record the switcher stores for each workspace. The source keeps
 * tabs as plain JavaScript objects: a tab made by "duplicate" has only a
 * `path`, so every other field may be absent (`undefined`), and the code
 * tests fields by JavaScript truthiness. Absent fields are `None` here.
 */
module Tabs {

  datatype Option<T> = None | Some(value: T)

  /** The window a tab has focused (`focusedApp`): "kitty", "kitty-main", "kitty-lazygit" or "vscode". */
  datatype App = Kitty | KittyMain | KittyLazygit | Vscode

  datatype Tab = Tab(
    path: string,
    focusedApp: Option<App>,
    fullscreenApps: Option<seq<string>>,
    gitkrakenVisible: Option<bool>,
    kittyPlatformWindowId: Option<string>,
    kittyLazygitPlatformWindowId: Option<string>,
    terminalFullScreen: Option<bool>,
    editorFullScreen: Option<bool>,
    kittyLazygitToggleTarget: Option<App>)

  /** JavaScript truthiness of an optional boolean field. */
  predicate Truthy(b: Option<bool>) {
    b == Some(true)
  }

  /** JavaScript truthiness of an optional string field: present and non-empty. */
  predicate HasId(id: Option<string>) {
    id.Some? && id.value != []
  }

  /** `!flag`: always a real boolean afterwards, even when the field was absent. */
  function Negated(b: Option<bool>): Option<bool> {
    Some(!Truthy(b))
  }

  /** The record the HTTP handler pushes for a new workspace at `path`. */
  function NewWorkspace(path: string): Tab {
    Tab(
      path := path,
      focusedApp := Some(Kitty),
      fullscreenApps := Some([]),
      gitkrakenVisible := Some(false),
      kittyPlatformWindowId := Some(""),
      kittyLazygitPlatformWindowId := Some(""),
      terminalFullScreen := Some(false),
      editorFullScreen := None,
      kittyLazygitToggleTarget := None)
  }

  /** The record "duplicate" pushes: `{ path }` and nothing else. */
  function PathOnly(path: string): Tab {
    Tab(path, None, None, None, None, None, None, None, None)
  }

  /**
   * A new workspace has the kitty terminal focused, no window bound yet, no
   * fullscreen, GitKraken hidden and no fullscreen apps; a duplicate has
   * only the path, and so is falsy in every flag and id.
   */
  lemma FreshRecords(path: string)
    ensures var t := NewWorkspace(path);
      && t.path == path && t.focusedApp == Some(Kitty)
      && !HasId(t.kittyPlatformWindowId) && !HasId(t.kittyLazygitPlatformWindowId)
      && t.terminalFullScreen == Some(false) && t.gitkrakenVisible == Some(false)
      && t.fullscreenApps == Some([])
    ensures var d := PathOnly(path);
      && d.path == path && d.focusedApp == None
      && !HasId(d.kittyPlatformWindowId) && !HasId(d.kittyLazygitPlatformWindowId)
      && !Truthy(d.terminalFullScreen) && !Truthy(d.editorFullScreen) && !Truthy(d.gitkrakenVisible)
  {
  }

  function ToggleTerminal(t: Tab): Tab {
    t.(terminalFullScreen := Negated(t.terminalFullScreen))
  }

  function ToggleEditor(t: Tab): Tab {
    t.(editorFullScreen := Negated(t.editorFullScreen))
  }

  /**
   * Toggling the terminal flag flips its truthiness and touches no other
   * field; toggling twice restores the truthiness, and restores the record
   * exactly when the flag was present.
   */
  lemma ToggleTerminalTwice(t: Tab)
    ensures Truthy(ToggleTerminal(t).terminalFullScreen) == !Truthy(t.terminalFullScreen)
    ensures ToggleTerminal(t).(terminalFullScreen := t.terminalFullScreen) == t
    ensures Truthy(ToggleTerminal(ToggleTerminal(t)).terminalFullScreen) == Truthy(t.terminalFullScreen)
    ensures ToggleTerminal(ToggleTerminal(t)) == t <==> t.terminalFullScreen.Some?
  {
    if t.terminalFullScreen.None? {
      assert ToggleTerminal(ToggleTerminal(t)).terminalFullScreen != t.terminalFullScreen;
    } else if t.terminalFullScreen.value {
      assert Negated(Negated(Some(true))) == Some(true);
    } else {
      assert Negated(Negated(Some(false))) == Some(false);
    }
  }

  /** The same for the editor flag. */
  lemma ToggleEditorTwice(t: Tab)
    ensures Truthy(ToggleEditor(t).editorFullScreen) == !Truthy(t.editorFullScreen)
    ensures ToggleEditor(t).(editorFullScreen := t.editorFullScreen) == t
    ensures Truthy(ToggleEditor(ToggleEditor(t)).editorFullScreen) == Truthy(t.editorFullScreen)
    ensures ToggleEditor(ToggleEditor(t)) == t <==> t.editorFullScreen.Some?
  {
    if t.editorFullScreen.None? {
      assert ToggleEditor(ToggleEditor(t)).editorFullScreen != t.editorFullScreen;
    } else if t.editorFullScreen.value {
      assert Negated(Negated(Some(true))) == Some(true);
    } else {
      assert Negated(Negated(Some(false))) == Some(false);
    }
  }
}
