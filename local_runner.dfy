/**
 * The helpers of the local runner: the idempotent `.gitignore` entry for
 * the log directory, the copy filter built from `.gitignore`, and the
 * splitter that cuts the main log into one log per workflow.
 *
 * File contents are values (None for a missing file). The two log
 * regexes and `fnmatch` are inputs: `start` gives the workflow name a line
 * announces ("executing NAME.json [i/n]"), `end` says whether a line
 * reports a workflow's verdict ("NAME.json [i/n] - PASS" or "- FAIL").
 */
module LocalRunner {
  import opened Base
  import opened Strings
  import opened Paths
  import opened Gitignore

  // ----- ensure_gitignore --------------------------------------------------------------

  const DefaultPattern := ".comfy-test-logs/"

  const CommentLine := "# comfy-test output"

  /**
   * The `.gitignore` after `ensure_gitignore`: a new file holding the
   * comment and the pattern, or the old text, with the two lines appended
   * unless the pattern (without its trailing '/') already occurs in it.
   */
  function GitignoreAfter(existing: Option<string>, pattern: string): string
  {
    match existing
    case None => CommentLine + "\n" + pattern + "\n"
    case Some(content) =>
      if Contains(content, RStripChar(pattern, '/')) then content
      else content + "\n" + CommentLine + "\n" + pattern + "\n"
  }

  /** `ensure_gitignore`, given the file's text when it exists; returns the text it leaves. */
  method EnsureGitignore(existing: Option<string>, pattern: string) returns (content: string)
    ensures content == GitignoreAfter(existing, pattern)
  {
    if existing.Some? {
      content := existing.value;
      if !Contains(content, RStripChar(pattern, '/')) {
        content := content + ("\n" + CommentLine + "\n" + pattern + "\n");
      }
    } else {
      content := CommentLine + "\n" + pattern + "\n";
    }
  }

  /** `sub` occurring at position `k` of `s` is found by `in`. */
  lemma {:induction false} ContainsAt(s: string, sub: string, k: nat)
    requires k + |sub| <= |s| && s[k..k + |sub|] == sub
    ensures Contains(s, sub)
    decreases k
  {
    if k > 0 {
      assert s[1..][k - 1..k - 1 + |sub|] == sub;
      ContainsAt(s[1..], sub, k - 1);
    }
  }

  /**
   * Afterwards the file holds the pattern (without its trailing '/') and
   * begins with whatever it held before.
   */
  lemma GitignoreAfterHolds(existing: Option<string>, pattern: string)
    ensures Contains(GitignoreAfter(existing, pattern), RStripChar(pattern, '/'))
    ensures existing.Some? ==> StartsWith(GitignoreAfter(existing, pattern), existing.value)
  {
    var key := RStripChar(pattern, '/');
    var r := GitignoreAfter(existing, pattern);
    if existing.None? || !Contains(existing.value, key) {
      var head := if existing.None? then CommentLine + "\n" else existing.value + "\n" + CommentLine + "\n";
      assert r == head + pattern + "\n";
      assert r[|head|..|head| + |key|] == key;
      ContainsAt(r, key, |head|);
    }
  }

  /** Calling `ensure_gitignore` twice leaves the same file as calling it once. */
  lemma GitignoreIdempotent(existing: Option<string>, pattern: string)
    ensures GitignoreAfter(Some(GitignoreAfter(existing, pattern)), pattern) == GitignoreAfter(existing, pattern)
  {
    GitignoreAfterHolds(existing, pattern);
  }

  // ----- the copy filter of _gitignore_filter ------------------------------------------

  /** Names never copied, whatever `.gitignore` says. */
  const AlwaysIgnore: set<string> := {"__pycache__", ".comfy-test", ".comfy-test-env", ".comfy-test-logs"}

  /** The path of `name` relative to the copied root; `relDir` is "." for the root itself. */
  function RelPath(relDir: Path, name: string): Path
  {
    if relDir == "." then name else JoinPath(relDir, name)
  }

  /** The tests one pattern makes on a name: the name, its relative path, and the `dir/` form. */
  predicate PatternHits(fnmatch: (string, string) -> bool, name: string, relPath: Path, p: string)
  {
    || fnmatch(name, p) || fnmatch(relPath, p)
    || (EndsWith(p, "/") && fnmatch(name, p[..|p| - 1]))
  }

  /** A name is ignored iff it is always ignored or some pattern hits it. */
  predicate IsIgnored(fnmatch: (string, string) -> bool, patterns: seq<string>, relDir: Path, name: string)
  {
    name in AlwaysIgnore || exists p <- patterns :: PatternHits(fnmatch, name, RelPath(relDir, name), p)
  }

  /** The ignored names, in the order given. */
  function IgnoredNames(fnmatch: (string, string) -> bool, patterns: seq<string>, relDir: Path, names: seq<string>): seq<string>
  {
    if names == [] then []
    else
      var init := IgnoredNames(fnmatch, patterns, relDir, names[..|names| - 1]);
      var name := names[|names| - 1];
      if IsIgnored(fnmatch, patterns, relDir, name) then init + [name] else init
  }

  /** The pattern loop for one name, which stops at the first pattern that hits. */
  method AnyPatternHits(fnmatch: (string, string) -> bool, patterns: seq<string>, name: string, relPath: Path)
    returns (hit: bool)
    ensures hit <==> exists p <- patterns :: PatternHits(fnmatch, name, relPath, p)
  {
    var i := 0;
    while i < |patterns|
      invariant i <= |patterns|
      invariant forall k :: 0 <= k < i ==> !PatternHits(fnmatch, name, relPath, patterns[k])
    {
      var pattern := patterns[i];
      if fnmatch(name, pattern) || fnmatch(relPath, pattern) {
        assert PatternHits(fnmatch, name, relPath, patterns[i]);
        return true;
      }
      if EndsWith(pattern, "/") && fnmatch(name, pattern[..|pattern| - 1]) {
        assert PatternHits(fnmatch, name, relPath, patterns[i]);
        return true;
      }
      i := i + 1;
    }
    return false;
  }

  /** `ignore_func`: the names of one directory that the copy leaves out. */
  method IgnoreFunc(fnmatch: (string, string) -> bool, patterns: seq<string>, relDir: Path, names: seq<string>)
    returns (ignored: seq<string>)
    ensures ignored == IgnoredNames(fnmatch, patterns, relDir, names)
  {
    ignored := [];
    var i := 0;
    while i < |names|
      invariant i <= |names|
      invariant ignored == IgnoredNames(fnmatch, patterns, relDir, names[..i])
    {
      assert names[..i + 1][..i] == names[..i];
      var name := names[i];
      if name in AlwaysIgnore {
        ignored := ignored + [name];
      } else {
        var hit := AnyPatternHits(fnmatch, patterns, name, RelPath(relDir, name));
        if hit {
          ignored := ignored + [name];
        }
      }
      i := i + 1;
    }
    assert names[..i] == names;
  }

  /** A name is in the result iff it was offered and is ignored; nothing else is added. */
  lemma {:induction false} IgnoredNamesSpec(fnmatch: (string, string) -> bool, patterns: seq<string>, relDir: Path, names: seq<string>)
    ensures forall n :: n in IgnoredNames(fnmatch, patterns, relDir, names) <==> n in names && IsIgnored(fnmatch, patterns, relDir, n)
    ensures |IgnoredNames(fnmatch, patterns, relDir, names)| <= |names|
  {
    if names != [] {
      var init := names[..|names| - 1];
      IgnoredNamesSpec(fnmatch, patterns, relDir, init);
      assert forall n :: n in names <==> n in init || n == names[|names| - 1];
    }
  }

  /**
   * With the patterns `.gitignore` gives, the `dir/` test never applies:
   * their trailing '/' was already removed, so a name is ignored iff it is
   * always ignored or a pattern matches its name or its relative path.
   */
  lemma FilterIgnoresIff(fnmatch: (string, string) -> bool, gitignore: Option<string>, relDir: Path, name: string)
    ensures var patterns := ParseGitignore(gitignore);
      IsIgnored(fnmatch, patterns, relDir, name) <==>
        name in AlwaysIgnore || exists p <- patterns :: fnmatch(name, p) || fnmatch(RelPath(relDir, name), p)
  {
    if gitignore.Some? {
      PatternsSpec(SplitLines(gitignore.value));
    }
  }

  // ----- split_log_by_workflow ---------------------------------------------------------

  /** The loop's variables: the open workflow, its lines, the count and the files written so far. */
  datatype SplitState = SplitState(current: Option<string>, section: seq<string>, count: nat, writes: seq<(Path, string)>)

  const Initial := SplitState(None, [], 0, [])

  /** Python truthiness of `current_workflow`. */
  predicate Open(current: Option<string>)
  {
    current.Some? && current.value != ""
  }

  /** The log file a workflow's section is written to. */
  function SectionFile(logsDir: Path, workflow: string): Path
  {
    JoinPath(logsDir, workflow + ".log")
  }

  /** One line of the loop. */
  function SplitStep(st: SplitState, line: string, logsDir: Path, start: string -> Option<string>, end: string -> bool): SplitState
  {
    match start(line)
    case Some(w) =>
      if Open(st.current) && st.section != [] then
        SplitState(Some(w), [line], st.count + 1, st.writes + [(SectionFile(logsDir, st.current.value), Join("\n", st.section))])
      else SplitState(Some(w), [line], st.count, st.writes)
    case None =>
      if !Open(st.current) then st
      else
        var section := st.section + [line];
        if end(line) then
          SplitState(None, [], st.count + 1, st.writes + [(SectionFile(logsDir, st.current.value), Join("\n", section))])
        else SplitState(st.current, section, st.count, st.writes)
  }

  function SplitRun(lines: seq<string>, logsDir: Path, start: string -> Option<string>, end: string -> bool): SplitState
  {
    if lines == [] then Initial
    else SplitStep(SplitRun(lines[..|lines| - 1], logsDir, start, end), lines[|lines| - 1], logsDir, start, end)
  }

  /** `split_log_by_workflow`: the number of sections written, and the writes in order; 0 without a log. */
  function SplitLog(log: Option<string>, logsDir: Path, start: string -> Option<string>, end: string -> bool): (nat, seq<(Path, string)>)
  {
    if log.None? then (0, [])
    else
      var st := SplitRun(SplitLines(log.value), logsDir, start, end);
      (st.count, st.writes)
  }

  /** The line loop. */
  method SplitLogLines(lines: seq<string>, logsDir: Path, start: string -> Option<string>, end: string -> bool)
    returns (count: nat, writes: seq<(Path, string)>)
    ensures SplitRun(lines, logsDir, start, end).count == count
    ensures SplitRun(lines, logsDir, start, end).writes == writes
  {
    var current: Option<string> := None;
    var section: seq<string> := [];
    count, writes := 0, [];
    var i := 0;
    while i < |lines|
      invariant i <= |lines|
      invariant SplitRun(lines[..i], logsDir, start, end) == SplitState(current, section, count, writes)
    {
      assert lines[..i + 1][..i] == lines[..i];
      var line := lines[i];
      var m := start(line);
      if m.Some? {
        if Open(current) && section != [] {
          writes := writes + [(SectionFile(logsDir, current.value), Join("\n", section))];
          count := count + 1;
        }
        current := m;
        section := [line];
      } else if Open(current) {
        section := section + [line];
        if end(line) {
          writes := writes + [(SectionFile(logsDir, current.value), Join("\n", section))];
          count := count + 1;
          current := None;
          section := [];
        }
      }
      i := i + 1;
    }
    assert lines[..i] == lines;
  }

  /** `split_log_by_workflow`, given the log's text when it exists. */
  method SplitLogByWorkflow(log: Option<string>, logsDir: Path, start: string -> Option<string>, end: string -> bool)
    returns (count: nat, writes: seq<(Path, string)>)
    ensures (count, writes) == SplitLog(log, logsDir, start, end)
  {
    if log.None? {
      return 0, [];
    }
    count, writes := SplitLogLines(SplitLines(log.value), logsDir, start, end);
  }

  /**
   * What the splitter keeps between lines: the count is the number of files
   * written; an open section is the run of lines from its start marker to
   * the current line; and every file written holds a run of lines that
   * begins with the start marker naming it.
   */
  ghost predicate SplitInv(lines: seq<string>, logsDir: Path, start: string -> Option<string>, st: SplitState)
  {
    && st.count == |st.writes|
    && (st.current.None? ==> st.section == [])
    && (Open(st.current) ==> exists i :: 0 <= i < |lines| && start(lines[i]) == st.current && st.section == lines[i..])
    && forall w <- st.writes :: WrittenSection(lines, logsDir, start, w)
  }

  /** `w` writes the run `lines[i..j]` to the file of the workflow whose start marker is `lines[i]`. */
  ghost predicate WrittenSection(lines: seq<string>, logsDir: Path, start: string -> Option<string>, w: (Path, string))
  {
    exists i, j, name :: (0 <= i < j <= |lines| && start(lines[i]) == Some(name)
      && w == (SectionFile(logsDir, name), Join("\n", lines[i..j])))
  }

  lemma WrittenSectionAt(lines: seq<string>, logsDir: Path, start: string -> Option<string>, i: nat, j: nat, name: string)
    requires i < j <= |lines| && start(lines[i]) == Some(name)
    ensures WrittenSection(lines, logsDir, start, (SectionFile(logsDir, name), Join("\n", lines[i..j])))
  {
  }

  lemma WrittenSectionGrow(lines: seq<string>, line: string, logsDir: Path, start: string -> Option<string>, w: (Path, string))
    requires WrittenSection(lines, logsDir, start, w)
    ensures WrittenSection(lines + [line], logsDir, start, w)
  {
    var i, j, name :| 0 <= i < j <= |lines| && start(lines[i]) == Some(name)
      && w == (SectionFile(logsDir, name), Join("\n", lines[i..j]));
    var full := lines + [line];
    assert full[i] == lines[i] && full[i..j] == lines[i..j];
    WrittenSectionAt(full, logsDir, start, i, j, name);
  }

  /** A line writes at most one file: the open section, without the line when it starts a new one, with it otherwise. */
  lemma StepWritesAtMostOne(st: SplitState, line: string, logsDir: Path, start: string -> Option<string>, end: string -> bool)
    ensures var st' := SplitStep(st, line, logsDir, start, end);
      || st'.writes == st.writes
      || (Open(st.current) && st'.writes == st.writes
            + [(SectionFile(logsDir, st.current.value), Join("\n", if start(line).Some? then st.section else st.section + [line]))])
  {
  }

  /** The open section, with or without the next line, is a run that began at its start marker. */
  lemma OpenSectionWritten(lines: seq<string>, line: string, logsDir: Path, start: string -> Option<string>, st: SplitState)
    requires SplitInv(lines, logsDir, start, st) && Open(st.current)
    ensures WrittenSection(lines + [line], logsDir, start, (SectionFile(logsDir, st.current.value), Join("\n", st.section)))
    ensures WrittenSection(lines + [line], logsDir, start, (SectionFile(logsDir, st.current.value), Join("\n", st.section + [line])))
  {
    var full := lines + [line];
    var i :| 0 <= i < |lines| && start(lines[i]) == st.current && st.section == lines[i..];
    assert full[i] == lines[i];
    assert lines[i..] == full[i..|lines|];
    WrittenSectionAt(full, logsDir, start, i, |lines|, st.current.value);
    assert lines[i..] + [line] == full[i..|full|];
    WrittenSectionAt(full, logsDir, start, i, |full|, st.current.value);
  }

  /** A file written at `line` holds the open section, which began at a start marker. */
  lemma StepWrites(lines: seq<string>, line: string, logsDir: Path, start: string -> Option<string>, end: string -> bool, st: SplitState)
    requires SplitInv(lines, logsDir, start, st)
    ensures forall w <- SplitStep(st, line, logsDir, start, end).writes :: WrittenSection(lines + [line], logsDir, start, w)
  {
    var st' := SplitStep(st, line, logsDir, start, end);
    StepWritesAtMostOne(st, line, logsDir, start, end);
    if Open(st.current) {
      OpenSectionWritten(lines, line, logsDir, start, st);
    }
    forall w <- st'.writes
      ensures WrittenSection(lines + [line], logsDir, start, w)
    {
      if w in st.writes {
        WrittenSectionGrow(lines, line, logsDir, start, w);
      }
    }
  }

  /** After `line`, an open section still runs from its start marker to the end. */
  lemma StepOpen(lines: seq<string>, line: string, logsDir: Path, start: string -> Option<string>, end: string -> bool, st: SplitState)
    requires SplitInv(lines, logsDir, start, st)
    ensures var st' := SplitStep(st, line, logsDir, start, end);
      Open(st'.current) ==> exists i :: 0 <= i < |lines + [line]| && start((lines + [line])[i]) == st'.current && st'.section == (lines + [line])[i..]
  {
    var st' := SplitStep(st, line, logsDir, start, end);
    var full := lines + [line];
    if Open(st'.current) {
      if start(line).Some? {
        assert full[|lines|..] == [line] && full[|lines|] == line;
      } else {
        var i :| 0 <= i < |lines| && start(lines[i]) == st.current && st.section == lines[i..];
        assert full[i] == lines[i] && lines[i..] + [line] == full[i..];
      }
    }
  }

  lemma {:induction false} SplitRunInv(lines: seq<string>, logsDir: Path, start: string -> Option<string>, end: string -> bool)
    ensures SplitInv(lines, logsDir, start, SplitRun(lines, logsDir, start, end))
  {
    if lines != [] {
      var init := lines[..|lines| - 1];
      var line := lines[|lines| - 1];
      assert lines == init + [line];
      SplitRunInv(init, logsDir, start, end);
      var st := SplitRun(init, logsDir, start, end);
      StepWrites(init, line, logsDir, start, end, st);
      StepOpen(init, line, logsDir, start, end, st);
    }
  }

  /** Every section written was counted, and each is a run of log lines opened by its workflow's start marker. */
  lemma SplitLogSections(log: Option<string>, logsDir: Path, start: string -> Option<string>, end: string -> bool)
    ensures var (count, writes) := SplitLog(log, logsDir, start, end);
      && count == |writes|
      && (log.None? ==> count == 0)
      && (log.Some? ==> var lines := SplitLines(log.value);
            forall w <- writes :: WrittenSection(lines, logsDir, start, w))
  {
    if log.Some? {
      SplitRunInv(SplitLines(log.value), logsDir, start, end);
    }
  }

  /** Lines before the first start marker change nothing. */
  lemma {:induction false} NoStartNoEffect(lines: seq<string>, logsDir: Path, start: string -> Option<string>, end: string -> bool)
    requires forall l <- lines :: start(l).None?
    ensures SplitRun(lines, logsDir, start, end) == Initial
  {
    if lines != [] {
      var init := lines[..|lines| - 1];
      assert forall l <- init :: l in lines;
      assert lines[|lines| - 1] in lines;
      NoStartNoEffect(init, logsDir, start, end);
    }
  }

  /**
   * A line that is neither a start nor an end marker writes and counts
   * nothing, so a section still open when the log ends is never written.
   */
  lemma PlainLineWritesNothing(lines: seq<string>, line: string, logsDir: Path, start: string -> Option<string>, end: string -> bool)
    requires start(line).None? && !end(line)
    ensures SplitRun(lines + [line], logsDir, start, end).count == SplitRun(lines, logsDir, start, end).count
    ensures SplitRun(lines + [line], logsDir, start, end).writes == SplitRun(lines, logsDir, start, end).writes
  {
    assert (lines + [line])[..|lines|] == lines;
  }

  /**
   * An end marker inside an open section closes it: the section, this line
   * included, is written to the workflow's file and counted once.
   */
  lemma EndMarkerClosesSection(lines: seq<string>, line: string, logsDir: Path, start: string -> Option<string>, end: string -> bool)
    requires start(line).None? && end(line)
    requires Open(SplitRun(lines, logsDir, start, end).current)
    ensures var st := SplitRun(lines, logsDir, start, end);
      var st' := SplitRun(lines + [line], logsDir, start, end);
      && st'.current.None?
      && st'.count == st.count + 1
      && st'.writes == st.writes + [(SectionFile(logsDir, st.current.value), Join("\n", st.section + [line]))]
  {
    assert (lines + [line])[..|lines|] == lines;
  }

  /**
   * A start marker opens a new section; a section still open is written
   * and counted first.
   */
  lemma StartMarkerOpensSection(lines: seq<string>, line: string, logsDir: Path, start: string -> Option<string>, end: string -> bool)
    requires start(line).Some?
    ensures var st := SplitRun(lines, logsDir, start, end);
      var st' := SplitRun(lines + [line], logsDir, start, end);
      && st'.current == start(line) && st'.section == [line]
      && (Open(st.current) && st.section != [] ==>
            st'.count == st.count + 1
            && st'.writes == st.writes + [(SectionFile(logsDir, st.current.value), Join("\n", st.section))])
      && (!(Open(st.current) && st.section != []) ==> st'.count == st.count && st'.writes == st.writes)
  {
    assert (lines + [line])[..|lines|] == lines;
  }
}
