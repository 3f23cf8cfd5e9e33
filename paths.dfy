/**
 * Path rewriting: the `~/...` form of a path under the home directory, used
 * as the editor window's title when a tab is focused or closed, and the
 * expansion of a leading `~` before a path is handed to GitKraken.
 */
module Paths {
  import opened JsText

  /**
   * The short form of `path`: when it lies strictly below `home`, its first
   * occurrence of `home` (which is its beginning) is replaced by `~`;
   * `home` itself and paths outside it are left as they are.
   */
  function PathShort(path: string, home: string): string {
    if StartsWith(path, home + "/") then ReplaceFirst(path, home, "~") else path
  }

  /** The short form is `~` followed by what comes after `home`, exactly for paths below `home`. */
  lemma PathShortSpec(path: string, home: string)
    ensures StartsWith(path, home + "/") ==> PathShort(path, home) == "~" + path[|home|..]
    ensures !StartsWith(path, home + "/") ==> PathShort(path, home) == path
  {
    if StartsWith(path, home + "/") {
      assert StartsWith(path, home);
      IndexOfPrefix(path, home);
    }
  }

  /** The home directory itself is not shortened. */
  lemma PathShortOfHome(home: string)
    ensures PathShort(home, home) == home
  {
    PathShortSpec(home, home);
  }

  /** The inverse rewrite: a leading `~/` stands for `home/`. */
  function ExpandHome(short: string, home: string): string {
    if StartsWith(short, "~/") then home + short[1..] else short
  }

  /**
   * Shortening loses nothing: expanding the short form gives back the path,
   * for every path that does not itself start with `~/`.
   */
  lemma PathShortRoundTrip(path: string, home: string)
    requires !StartsWith(path, "~/")
    ensures ExpandHome(PathShort(path, home), home) == path
  {
    PathShortSpec(path, home);
    var short := PathShort(path, home);
    if StartsWith(path, home + "/") {
      var rest := path[|home|..];
      assert short == "~" + rest;
      assert |path| > |home| && path[|home|] == (home + "/")[|home|];
      assert rest[0] == '/';
      assert StartsWith(short, "~/");
      assert short[1..] == rest;
      assert path[..|home|] == home;
      assert home + rest == path;
    } else {
      assert short == path;
    }
  }

  /** Paths below `home` shorten to something starting with `~/`, all others to themselves. */
  lemma PathShortMarksHome(path: string, home: string)
    requires !StartsWith(path, "~/")
    ensures StartsWith(PathShort(path, home), "~/") <==> StartsWith(path, home + "/")
  {
    PathShortSpec(path, home);
    if StartsWith(path, home + "/") {
      assert path[|home|] == '/';
    }
  }

  /** The GitKraken user's home directory, with the trailing slash its `~` rewrite uses. */
  const GitKrakenHome: string := "/Users/olof/"

  /** `path.replace(/^~/, "/Users/olof/")`: a leading `~` is replaced, anything else is left alone. */
  function GitKrakenPath(path: string): string {
    if StartsWith(path, "~") then GitKrakenHome + path[1..] else path
  }

  /** The path GitKraken receives never starts with `~`, and rewriting it again changes nothing. */
  lemma GitKrakenPathResolved(path: string)
    ensures !StartsWith(GitKrakenPath(path), "~")
    ensures GitKrakenPath(GitKrakenPath(path)) == GitKrakenPath(path)
    ensures !StartsWith(path, "~") ==> GitKrakenPath(path) == path
  {
    if StartsWith(path, "~") {
      assert GitKrakenPath(path)[0] == '/';
    }
  }
}
