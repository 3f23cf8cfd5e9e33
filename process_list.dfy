/**
 * Extraction of a process id from the output of
 * `ps aux | grep <application binary>`: split the output into lines, drop
 * the lines that mention `grep` (the pipeline's own grep process), and take
 * the second white-space-separated column of the first line that remains.
 */
module ProcessList {
  import opened JsText

  /** What the lookup leaves behind: a PID, JavaScript's `undefined`, or "process not found". */
  datatype PidLookup = Pid(value: string) | Undefined | NotFound

  predicate IsGrepLine(line: string) {
    Includes(line, "grep")
  }

  /** Every line mentions grep. */
  predicate AllGrep(lines: seq<string>) {
    forall k :: 0 <= k < |lines| ==> IsGrepLine(lines[k])
  }

  /** `lines.filter((line) => !line.includes("grep"))`. */
  function WithoutGrep(lines: seq<string>): (r: seq<string>)
    ensures |r| <= |lines|
    ensures forall k :: 0 <= k < |r| ==> !IsGrepLine(r[k])
    ensures r == [] <==> AllGrep(lines)
    ensures forall l :: l in r <==> l in lines && !IsGrepLine(l)
  {
    if lines == [] then []
    else if IsGrepLine(lines[0]) then WithoutGrep(lines[1..])
    else [lines[0]] + WithoutGrep(lines[1..])
  }

  /** The first kept line is the first line of the output that does not mention grep. */
  lemma {:induction false} WithoutGrepFirst(lines: seq<string>, j: nat)
    requires j < |lines| && !IsGrepLine(lines[j])
    requires forall k :: 0 <= k < j ==> IsGrepLine(lines[k])
    ensures WithoutGrep(lines) != [] && WithoutGrep(lines)[0] == lines[j]
  {
    if j > 0 {
      WithoutGrepFirst(lines[1..], j - 1);
    }
  }

  /** `line.split(/\s+/)[1]`: the second column, `undefined` when the line has only one. */
  function SecondColumn(line: string): (r: PidLookup)
    ensures r != NotFound
    ensures r.Pid? ==> NoSpace(r.value)
  {
    var columns := Fields(line);
    if |columns| > 1 then Pid(columns[1]) else Undefined
  }

  /**
   * On a `ps aux` line (user, white space, PID, white space, the rest) the
   * second column is exactly the PID.
   */
  lemma SecondColumnIsPid(user: string, w: string, pid: string, w': string, rest: string)
    requires user != [] && NoSpace(user) && pid != [] && NoSpace(pid)
    requires w != [] && AllSpace(w) && w' != [] && AllSpace(w')
    requires rest == [] || !IsSpace(rest[0])
    ensures SecondColumn(user + w + pid + w' + rest) == Pid(pid)
  {
    var tail := pid + w' + rest;
    var line := user + w + pid + w' + rest;
    assert line == user + w + tail;
    assert tail[0] == pid[0];
    FieldsAtRun(user, w, tail);
    FieldsAtRun(pid, w', rest);
    var columns := Fields(line);
    assert columns == [user] + ([pid] + Fields(rest));
    assert |columns| > 1 && columns[1] == pid;
  }

  /**
   * The lookup as written: "not found" exactly when every line of the output
   * mentions grep; otherwise the second column of the first other line.
   */
  function ParsePidAsWritten(stdout: string): (r: PidLookup)
    ensures r == NotFound <==> AllGrep(Split(stdout, '\n'))
    ensures r.Pid? ==> NoSpace(r.value)
  {
    var lines := Split(stdout, '\n');
    var processLines := WithoutGrep(lines);
    if |processLines| > 0 then
      SecondColumn(processLines[0])
    else NotFound
  }

  /**
   * When the only process that matched is grep itself, the output is grep's
   * line followed by a newline; the empty string after that newline survives
   * the filter, has no second column, and the PID ends up `undefined` instead
   * of "not found".
   */
  lemma GrepOnlyOutputLeavesPidUndefined(grepLine: string)
    requires IsGrepLine(grepLine) && '\n' !in grepLine
    ensures ParsePidAsWritten(grepLine + "\n") == Undefined
  {
    SplitAtFirst(grepLine, '\n', "");
    assert grepLine + "\n" == grepLine + ['\n'] + "";
    assert Split(grepLine + "\n", '\n') == [grepLine, ""];
    assert !IsGrepLine("");
    assert WithoutGrep([grepLine, ""]) == [""];
  }

  /** The same on a concrete `ps aux` line for the grep process. */
  lemma GrepOnlyExample()
    ensures ParsePidAsWritten("olof 812 grep kitty\n") == Undefined
  {
    var line := "olof 812 grep kitty";
    assert OccursAt(line, "grep", 9);
    assert line + "\n" == "olof 812 grep kitty\n";
    GrepOnlyOutputLeavesPidUndefined(line);
  }

  // ---------------------------------------------------------------------------
  // the lookup as evidently intended

  /** A line of `ps` output that describes a process other than grep. */
  predicate IsProcessLine(line: string) {
    !IsGrepLine(line) && !AllSpace(line)
  }

  /** No line describes a process. */
  predicate NoProcessLine(lines: seq<string>) {
    forall k :: 0 <= k < |lines| ==> !IsProcessLine(lines[k])
  }

  /** Keeps the lines that are neither grep's nor blank. */
  function ProcessLines(lines: seq<string>): (r: seq<string>)
    ensures |r| <= |lines|
    ensures forall k :: 0 <= k < |r| ==> IsProcessLine(r[k])
    ensures r == [] <==> NoProcessLine(lines)
    ensures forall l :: l in r <==> l in lines && IsProcessLine(l)
  {
    if lines == [] then []
    else if IsProcessLine(lines[0]) then [lines[0]] + ProcessLines(lines[1..])
    else ProcessLines(lines[1..])
  }

  /** The first kept line is the first line of the output that describes a process. */
  lemma {:induction false} ProcessLinesFirst(lines: seq<string>, j: nat)
    requires j < |lines| && IsProcessLine(lines[j])
    requires forall k :: 0 <= k < j ==> !IsProcessLine(lines[k])
    ensures ProcessLines(lines) != [] && ProcessLines(lines)[0] == lines[j]
  {
    if j > 0 {
      ProcessLinesFirst(lines[1..], j - 1);
    }
  }

  /** A process line is one that does not mention grep and does not trim to the empty string. */
  lemma ProcessLineIsNonBlank(line: string)
    ensures IsProcessLine(line) <==> !IsGrepLine(line) && Trim(line) != []
  {
    if Trim(line) == [] {
      TrimEmptyMeansAllSpace(line);
    }
    if AllSpace(line) {
      assert line + [] + [] == line;
      TrimPadding(line, [], []);
    }
  }

  /**
   * The lookup with blank lines ignored and a missing column reported as
   * "not found": the PID is never left `undefined`, and a PID it returns is a
   * non-empty column without white space.
   */
  function ParsePid(stdout: string): (r: PidLookup)
    ensures r != Undefined
    ensures r.Pid? ==> r.value != [] && NoSpace(r.value)
    ensures NoProcessLine(Split(stdout, '\n')) ==> r == NotFound
  {
    var lines := ProcessLines(Split(stdout, '\n'));
    if lines == [] then NotFound
    else
      var columns := Fields(lines[0]);
      if |columns| > 1 && columns[1] != [] then Pid(columns[1]) else NotFound
  }

  /** Output that holds only grep's own line is "not found". */
  lemma GrepOnlyOutputIsNotFound(grepLine: string)
    requires IsGrepLine(grepLine) && '\n' !in grepLine
    ensures ParsePid(grepLine + "\n") == NotFound
  {
    SplitAtFirst(grepLine, '\n', "");
    assert grepLine + "\n" == grepLine + ['\n'] + "";
    assert Split(grepLine + "\n", '\n') == [grepLine, ""];
    assert !IsProcessLine(grepLine) && !IsProcessLine("");
    assert ProcessLines([grepLine, ""]) == [];
  }

  lemma {:induction false} FirstLineKept(lines: seq<string>)
    requires WithoutGrep(lines) != [] && !AllSpace(WithoutGrep(lines)[0])
    ensures ProcessLines(lines) != [] && ProcessLines(lines)[0] == WithoutGrep(lines)[0]
  {
    if IsGrepLine(lines[0]) {
      FirstLineKept(lines[1..]);
    }
  }

  /** Whenever the lookup as written finds a non-empty PID, the corrected lookup finds the same one. */
  lemma ParsePidAgrees(stdout: string)
    requires ParsePidAsWritten(stdout).Pid? && ParsePidAsWritten(stdout).value != []
    ensures ParsePid(stdout) == ParsePidAsWritten(stdout)
  {
    var lines := Split(stdout, '\n');
    var first := WithoutGrep(lines)[0];
    if AllSpace(first) {
      BlankFieldsEmpty(first, 1);
    }
    FirstLineKept(lines);
  }
}
