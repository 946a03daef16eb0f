/**
 * The older, single-module test manager: the state it persists between CI
 * steps, its five-level max-level filter and early pass, its own unicode
 * scan of the node's Python files, and `run_single_level`, which runs one
 * level on its own against the state an earlier INSTALL step saved.
 *
 * Files on disk are a store from paths to JSON files; the platform provider,
 * the server and the instantiation probe are inputs, as in the level modules.
 */
module LegacyManager {
  import opened Base
  import opened Strings
  import opened Json
  import opened Paths
  import opened ConfigFile
  import opened Context
  import opened Results
  import opened SyntaxLevel
  import opened InstantiationLevel
  import opened Driver
  import InstallLevel
  import ExecutionLevel

  // ----- persisted state ------------------------------------------------------

  /**
   * `TestState`. Its fields hold whatever the state file gave for them:
   * `TestState(**data)` checks names, not types.
   */
  datatype TestState = TestState(
    comfyuiDir: Json,
    python: Json,
    customNodesDir: Json,
    cudaPackages: Json,
    platformName: Json)

  /** The JSON files on disk, by path; a path that is not a key has no file. */
  type Store = map<Path, JsonFile>

  /** The dataclass fields of `TestState`, in declaration order. */
  const StateFields: seq<string> := ["comfyui_dir", "python", "custom_nodes_dir", "cuda_packages", "platform_name"]

  function StateFile(workDir: Path): Path
  {
    JoinPath(workDir, "state.json")
  }

  /** `asdict(state)`: one entry per field, in declaration order. */
  function StateJson(s: TestState): (j: Json)
    ensures j.JObject? && KeysOf(j.fields) == StateFields && DistinctKeys(j.fields)
  {
    JObject([("comfyui_dir", s.comfyuiDir), ("python", s.python), ("custom_nodes_dir", s.customNodesDir),
             ("cuda_packages", s.cudaPackages), ("platform_name", s.platformName)])
  }

  /** `save_state`: the state file holds the state; no other file changes. */
  function SaveState(s: TestState, workDir: Path, store: Store): (r: Store)
    ensures StateFile(workDir) in r && r[StateFile(workDir)] == Document(StateJson(s))
    ensures forall p :: p != StateFile(workDir) ==> (p in r <==> p in store) && (p in store ==> r[p] == store[p])
  {
    store[StateFile(workDir) := Document(StateJson(s))]
  }

  /** The position of the first key that is not a field, or `|keys|`. */
  function FirstUnexpected(keys: seq<string>): (i: nat)
    ensures i <= |keys|
    ensures forall k :: 0 <= k < i ==> keys[k] in StateFields
    ensures i < |keys| ==> keys[i] !in StateFields
  {
    if keys == [] || keys[0] !in StateFields then 0 else 1 + FirstUnexpected(keys[1..])
  }

  /** The fields, in declaration order, that `keys` does not supply. */
  function Missing(fields: seq<string>, keys: seq<string>): (r: seq<string>)
    ensures forall f :: f in r <==> f in fields && f !in keys
  {
    if fields == [] then []
    else (if fields[0] in keys then [] else [fields[0]]) + Missing(fields[1..], keys)
  }

  /** How Python lists missing argument names: `'a'`, `'a' and 'b'`, `'a', 'b', and 'c'`. */
  function NameList(names: seq<string>): string
  {
    var qs := seq(|names|, k requires 0 <= k < |names| => "'" + names[k] + "'");
    if |qs| == 0 then ""
    else if |qs| == 1 then qs[0]
    else if |qs| == 2 then qs[0] + " and " + qs[1]
    else Join(", ", qs[..|qs| - 1]) + ", and " + qs[|qs| - 1]
  }

  /**
   * `TestState(**data)`: a mapping whose keys are exactly the fields. A key
   * that is not a field raises TypeError first (in dictionary order), then any
   * field left without a value does.
   */
  function StateFromJson(data: Json): (r: Outcome<TestState>)
    ensures r.Ok? ==> data.JObject? && forall f <- StateFields :: DictLookup(data.fields, f).Some?
    ensures r.Raised? ==> r.exc.Untyped? && r.exc.pyType == "TypeError"
  {
    if !data.JObject? then
      TypeError("comfy_test.test.manager.TestState() argument after ** must be a mapping, not " + TypeName(data))
    else
      var keys := DictKeys(data.fields);
      var i := FirstUnexpected(keys);
      if i < |keys| then
        TypeError("TestState.__init__() got an unexpected keyword argument '" + keys[i] + "'")
      else
        var missing := Missing(StateFields, keys);
        if missing != [] then
          TypeError("TestState.__init__() missing " + NatToString(|missing|) + " required positional argument"
                    + (if |missing| == 1 then "" else "s") + ": " + NameList(missing))
        else
          TestStateOf(data.fields)
  }

  /** The state whose fields are the dictionary's values, once every field is present. */
  function TestStateOf(fields: Items): (r: Outcome<TestState>)
    requires Missing(StateFields, DictKeys(fields)) == []
    ensures r.Ok? && forall f <- StateFields :: DictLookup(fields, f).Some?
  {
    FieldsPresent(fields);
    Ok(TestState(DictLookup(fields, "comfyui_dir").value, DictLookup(fields, "python").value,
                 DictLookup(fields, "custom_nodes_dir").value, DictLookup(fields, "cuda_packages").value,
                 DictLookup(fields, "platform_name").value))
  }

  /** With no field missing from the keys, looking up any field finds a value. */
  lemma FieldsPresent(fields: Items)
    requires Missing(StateFields, DictKeys(fields)) == []
    ensures forall f <- StateFields :: DictLookup(fields, f).Some?
    ensures DictLookup(fields, "comfyui_dir").Some? && DictLookup(fields, "python").Some?
    ensures DictLookup(fields, "custom_nodes_dir").Some? && DictLookup(fields, "cuda_packages").Some?
    ensures DictLookup(fields, "platform_name").Some?
  {
    assert StateFields[0] == "comfyui_dir" && StateFields[1] == "python" && StateFields[2] == "custom_nodes_dir";
    assert StateFields[3] == "cuda_packages" && StateFields[4] == "platform_name";
    forall f <- StateFields
      ensures DictLookup(fields, f).Some?
    {
      assert f !in Missing(StateFields, DictKeys(fields));
    }
  }

  /**
   * `load_state`: a missing state file raises a TestError naming it; a file
   * that is not JSON raises the decoder's error.
   */
  function LoadState(workDir: Path, store: Store): (r: Outcome<TestState>)
    ensures r.RaisedKind(TestErr) <==> StateFile(workDir) !in store || store[StateFile(workDir)].Absent?
    ensures r.RaisedKind(TestErr) ==> r.exc.message == "No state file found"
  {
    var file := StateFile(workDir);
    if file !in store || store[file].Absent? then
      Fail(TestErr, "No state file found", Text("Expected " + file + ". Run install level first with --work-dir."))
    else
      match store[file]
      case Malformed(error) => PyFail("JSONDecodeError", error)
      case Document(data) => StateFromJson(data)
  }

  /** Loading what was saved gives back every field of the state. */
  lemma SaveLoadRoundTrip(s: TestState, workDir: Path, store: Store)
    ensures LoadState(workDir, SaveState(s, workDir, store)) == Ok(s)
  {
    var saved := SaveState(s, workDir, store);
    assert saved[StateFile(workDir)] == Document(StateJson(s));
    StateFromJsonRoundTrip(s);
  }

  lemma FirstUnexpectedFields()
    ensures FirstUnexpected(StateFields) == |StateFields|
  {
  }

  /** The saved dictionary converts back to the state it came from. */
  lemma StateFromJsonRoundTrip(s: TestState)
    ensures StateFromJson(StateJson(s)) == Ok(s)
  {
    var fields := StateJson(s).fields;
    ItemsOfDistinctSelf(fields);
    assert DictKeys(fields) == StateFields;
    FirstUnexpectedFields();
    assert Missing(StateFields, StateFields) == [];
    FindAt(fields, 0);
    FindAt(fields, 1);
    FindAt(fields, 2);
    FindAt(fields, 3);
    FindAt(fields, 4);
  }

  // ----- the legacy level filter --------------------------------------------------

  /** The five levels the legacy manager knows, in order. */
  const LegacyLevels: seq<Level> := [Syntax, Install, Registration, Instantiation, Execution]

  /** `repr(level)` for a TestLevel member. */
  function LevelRepr(l: Level): string
  {
    "<TestLevel." + LevelName(l) + ": '" + LevelValue(l) + "'>"
  }

  /** `order.index(l)` on the five-level order: ValueError for a level it lacks. */
  function LegacyIndex(l: Level): (r: Outcome<nat>)
    ensures r.Ok? <==> l in LegacyLevels
    ensures r.Ok? ==> r.value < |LegacyLevels| && LegacyLevels[r.value] == l
  {
    match l
    case Syntax => Ok(0)
    case Install => Ok(1)
    case Registration => Ok(2)
    case Instantiation => Ok(3)
    case Execution => Ok(4)
    case _ => PyFail("ValueError", LevelRepr(l) + " is not in list")
  }

  /** `[l for l in levels if order.index(l) <= max_idx]`: the first level the order lacks raises. */
  function KeepUpTo(levels: seq<Level>, maxIdx: nat): (r: Outcome<seq<Level>>)
    ensures r.Ok? <==> forall l <- levels :: l in LegacyLevels
    ensures r.Raised? ==> r.exc.Untyped? && r.exc.pyType == "ValueError"
  {
    if levels == [] then Ok([])
    else
      var i :- LegacyIndex(levels[0]);
      var rest :- KeepUpTo(levels[1..], maxIdx);
      Ok((if i <= maxIdx then [levels[0]] else []) + rest)
  }

  /** The requested levels as the legacy `run_platform` computes them. */
  function LegacyRequestedAsWritten(configured: seq<Level>, max: Option<Level>): (r: Outcome<seq<Level>>)
    ensures max.None? ==> r == Ok(configured)
    ensures max.Some? ==> (r.Ok? <==> max.value in LegacyLevels && forall l <- configured :: l in LegacyLevels)
    ensures r.Raised? ==> r.exc.Untyped? && r.exc.pyType == "ValueError"
  {
    if max.None? then Ok(configured)
    else
      var maxIdx :- LegacyIndex(max.value);
      KeepUpTo(configured, maxIdx)
  }

  /**
   * A configuration that lists VALIDATION (as every configuration without a
   * `levels` key does) makes the legacy filter raise ValueError for any
   * maximum level, outside the error handling of `run_platform`; the
   * level-ordered filter keeps VALIDATION exactly when it comes no later than
   * the maximum.
   */
  lemma LegacyFilterFinding(configured: seq<Level>, max: Level)
    requires Validation in configured
    ensures LegacyRequestedAsWritten(configured, Some(max)).Raised?
    ensures LegacyRequestedAsWritten(configured, Some(max)).exc.Untyped?
    ensures LegacyRequestedAsWritten(configured, Some(max)).exc.pyType == "ValueError"
    ensures Validation in RequestedLevels(configured, Some(max)) <==> Rank(Validation) <= Rank(max)
  {
  }

  /** The legacy position and the full order's rank agree on which of two legacy levels comes first. */
  lemma LegacyIndexMonotone(l: Level, m: Level)
    requires l in LegacyLevels && m in LegacyLevels
    ensures LegacyIndex(l).value <= LegacyIndex(m).value <==> Rank(l) <= Rank(m)
  {
  }

  /**
   * Wherever the legacy filter does not raise, it keeps exactly what the
   * level-ordered filter keeps, so replacing it changes no working run.
   */
  lemma {:induction false} LegacyFilterAgrees(configured: seq<Level>, max: Option<Level>)
    requires LegacyRequestedAsWritten(configured, max).Ok?
    ensures LegacyRequestedAsWritten(configured, max).value == RequestedLevels(configured, max)
  {
    if max.Some? {
      KeepUpToAgrees(configured, max.value);
    }
  }

  lemma {:induction false} KeepUpToAgrees(levels: seq<Level>, m: Level)
    requires m in LegacyLevels && forall l <- levels :: l in LegacyLevels
    ensures KeepUpTo(levels, LegacyIndex(m).value) == Ok(UpTo(levels, m))
  {
    if levels != [] {
      assert forall l <- levels[1..] :: l in levels;
      KeepUpToAgrees(levels[1..], m);
      LegacyIndexMonotone(levels[0], m);
    }
  }

  // ----- how the legacy run_platform starts ----------------------------------------

  /** Whether any level that needs an installed ComfyUI is selected. */
  predicate NeedsInstall(levels: seq<Level>)
  {
    Install in levels || Registration in levels || Instantiation in levels || Execution in levels
  }

  /** Where the legacy `run_platform` is after its opening steps. */
  datatype Start = Finished(result: TestResult) | Continues(levels: seq<Level>)

  /**
   * The opening of the legacy `run_platform`, with the level filter
   * corrected: the levels to run, then a dry run, then SYNTAX (whose outcome
   * is given), then the early pass when nothing needs an installation and no
   * workflow is configured.
   */
  function LegacyStart(config: TestConfig, platform: string, dryRun: bool, max: Option<Level>,
                       resolve: seq<Level> -> seq<Level>, syntax: Outcome<()>): (r: Start)
    ensures r.Continues? ==> !dryRun && r.levels == resolve(RequestedLevels(config.levels, max))
    ensures r.Continues? ==> NeedsInstall(r.levels) || config.workflow.run != []
  {
    var levels := resolve(RequestedLevels(config.levels, max));
    if dryRun then Finished(TestResult(platform, true, None, Text("Dry run")))
    else if Syntax in levels && syntax.Raised? then Finished(FailureResult(platform, syntax.exc))
    else if !NeedsInstall(levels) && config.workflow.run == [] then Finished(Passed(platform))
    else Continues(levels)
  }

  /**
   * When only SYNTAX (or levels needing no installation) is selected and no
   * workflow is configured, the run passes right after SYNTAX; when SYNTAX
   * was selected and failed, the run fails with its error.
   */
  lemma LegacyEarlyPass(config: TestConfig, platform: string, max: Option<Level>,
                        resolve: seq<Level> -> seq<Level>, syntax: Outcome<()>)
    ensures var levels := resolve(RequestedLevels(config.levels, max));
      (Syntax !in levels || syntax.Ok?) && !NeedsInstall(levels) && config.workflow.run == [] ==>
        LegacyStart(config, platform, false, max, resolve, syntax) == Finished(Passed(platform))
    ensures var levels := resolve(RequestedLevels(config.levels, max));
      Syntax in levels && syntax.Raised? ==>
        LegacyStart(config, platform, false, max, resolve, syntax) == Finished(FailureResult(platform, syntax.exc))
  {
  }

  // ----- the legacy unicode scan ---------------------------------------------------

  /** A character that causes trouble on Windows, its name, and the reprs of it and of its replacement. */
  datatype Problem = Problem(c: char, name: string, charRepr: string, replacementRepr: string)

  /** The problematic characters, in the order the scan tries them. */
  const Problems: seq<Problem> := [
    Problem('\U{2018}', "left single quote", "'\U{2018}'", "\"'\""),
    Problem('\U{2019}', "right single quote", "'\U{2019}'", "\"'\""),
    Problem('\U{201C}', "left double quote", "'\U{201C}'", "'\"'"),
    Problem('\U{201D}', "right double quote", "'\U{201D}'", "'\"'"),
    Problem('\U{2013}', "en dash", "'\U{2013}'", "'-'"),
    Problem('\U{2014}', "em dash", "'\U{2014}'", "'-'"),
    Problem('\U{2026}', "ellipsis", "'\U{2026}'", "'...'")]

  /** The issue for a problematic character in a line: its first column, counted from 1. */
  function ProblemIssue(lineNum: nat, line: string, p: Problem): (issue: string)
    requires p.c in line
  {
    var col := IndexOfChar(line, p.c) + 1;
    "  Line " + NatToString(lineNum) + ", col " + NatToString(col) + ": " + p.name
      + " (" + p.charRepr + ") - use " + p.replacementRepr
  }

  /** The issues of one line: one per problematic character it contains, in table order. */
  function LineProblems(lineNum: nat, line: string, ps: seq<Problem>): seq<string>
  {
    if ps == [] then []
    else
      var p := ps[|ps| - 1];
      LineProblems(lineNum, line, ps[..|ps| - 1]) + (if p.c in line then [ProblemIssue(lineNum, line, p)] else [])
  }

  /** The issues of a file's lines for the characters `ps`, by line (lines count from 1). */
  function LinesProblems(lines: seq<string>, ps: seq<Problem>): seq<string>
  {
    if lines == [] then []
    else LinesProblems(lines[..|lines| - 1], ps) + LineProblems(|lines|, lines[|lines| - 1], ps)
  }

  /** What a file adds to the report, if anything. */
  function LegacyFileEntry(f: PyFile): Option<string>
  {
    if Skipped(f) then None
    else
      match f.content
      case Undecodable(error) => Some(RelPath(f) + ": Failed to decode as UTF-8: " + error)
      case Decoded(text) =>
        var issues := LinesProblems(SplitLines(text), Problems);
        if issues == [] then None else Some(RelPath(f) + ":\n" + Join("\n", issues))
  }

  function LegacyEntries(files: seq<PyFile>): seq<string>
  {
    if files == [] then []
    else
      var e := LegacyFileEntry(files[|files| - 1]);
      LegacyEntries(files[..|files| - 1]) + (if e.Some? then [e.value] else [])
  }

  function LegacyUnicodeFailure(entries: seq<string>): Outcome<()>
  {
    Fail(TestErr, "Problematic unicode characters found in Python files",
         Text("These characters can cause issues on Windows:\n\n" + Join("\n\n", entries)))
  }

  /** The legacy `_check_unicode_characters`. */
  function LegacyUnicodeCheck(files: seq<PyFile>): Outcome<()>
  {
    var entries := LegacyEntries(files);
    if entries == [] then Ok(()) else LegacyUnicodeFailure(entries)
  }

  /** A line holds none of the problematic characters. */
  predicate ProblemFree(line: string)
  {
    FreeOf(line, Problems)
  }

  /** None of the characters `ps` occurs in the line. */
  predicate FreeOf(line: string, ps: seq<Problem>)
  {
    forall p <- ps :: p.c !in line
  }

  /** A file passes the legacy scan: skipped, or decoded with every line problem-free. */
  predicate LegacyCleanFile(f: PyFile)
  {
    Skipped(f) || (f.content.Decoded? && forall line <- SplitLines(f.content.text) :: ProblemFree(line))
  }

  /** The column reported for a character is the first position where it occurs. */
  lemma ProblemColumnIsFirst(line: string, p: Problem)
    requires p.c in line
    ensures var col := IndexOfChar(line, p.c) + 1;
      1 <= col <= |line| && line[col - 1] == p.c && forall k :: 0 <= k < col - 1 ==> line[k] != p.c
  {
  }

  /** A line yields exactly one issue per problematic character it contains, however often it occurs. */
  lemma {:induction false} LineProblemsCount(lineNum: nat, line: string, ps: seq<Problem>)
    ensures |LineProblems(lineNum, line, ps)| == |Present(line, ps)|
    ensures LineProblems(lineNum, line, ps) == [] <==> forall p <- ps :: p.c !in line
  {
    if ps != [] {
      var init := ps[..|ps| - 1];
      LineProblemsCount(lineNum, line, init);
      assert ps == init + [ps[|ps| - 1]];
    }
  }

  /** The problems of `ps` whose character occurs in the line, in order. */
  function Present(line: string, ps: seq<Problem>): (r: seq<Problem>)
    ensures forall p :: p in r <==> p in ps && p.c in line
  {
    if ps == [] then []
    else Present(line, ps[..|ps| - 1]) + (if ps[|ps| - 1].c in line then [ps[|ps| - 1]] else [])
  }

  /** A file has no issues for the characters `ps` exactly when none of them occurs in any line. */
  lemma {:induction false} LinesProblemsEmptyIff(lines: seq<string>, ps: seq<Problem>)
    ensures LinesProblems(lines, ps) == [] <==> forall line <- lines :: FreeOf(line, ps)
  {
    LinesProblemsAllFree(lines, ps);
    AllFreeIff(lines, ps);
  }

  /** Every line is free of `ps`, stated in the scan's own line-by-line shape. */
  predicate AllFree(lines: seq<string>, ps: seq<Problem>)
  {
    lines == [] || (AllFree(lines[..|lines| - 1], ps) && FreeOf(lines[|lines| - 1], ps))
  }

  lemma {:induction false} LinesProblemsAllFree(lines: seq<string>, ps: seq<Problem>)
    ensures LinesProblems(lines, ps) == [] <==> AllFree(lines, ps)
  {
    if lines != [] {
      LinesProblemsAllFree(lines[..|lines| - 1], ps);
      LineProblemsCount(|lines|, lines[|lines| - 1], ps);
    }
  }

  lemma {:induction false} AllFreeIff(lines: seq<string>, ps: seq<Problem>)
    ensures AllFree(lines, ps) <==> forall line <- lines :: FreeOf(line, ps)
  {
    if lines != [] {
      var init := lines[..|lines| - 1];
      AllFreeIff(init, ps);
      assert lines == init + [lines[|lines| - 1]];
    }
  }

  lemma LegacyFileEntryNoneIff(f: PyFile)
    ensures LegacyFileEntry(f).None? <==> LegacyCleanFile(f)
  {
    if !Skipped(f) && f.content.Decoded? {
      LinesProblemsEmptyIff(SplitLines(f.content.text), Problems);
    }
  }

  lemma {:induction false} LegacyEntriesEmptyIff(files: seq<PyFile>)
    ensures LegacyEntries(files) == [] <==> forall f <- files :: LegacyCleanFile(f)
  {
    if files != [] {
      var init, last := files[..|files| - 1], files[|files| - 1];
      LegacyEntriesEmptyIff(init);
      LegacyFileEntryNoneIff(last);
      assert files == init + [last];
      assert (forall f <- files :: LegacyCleanFile(f)) <==> (forall f <- init :: LegacyCleanFile(f)) && LegacyCleanFile(last);
    }
  }

  /** The legacy scan passes iff every file is skipped or free of the problematic characters. */
  lemma LegacyUnicodeOkIff(files: seq<PyFile>)
    ensures LegacyUnicodeCheck(files).Ok? <==> forall f <- files :: LegacyCleanFile(f)
    ensures LegacyUnicodeCheck(files).Raised? ==> LegacyUnicodeCheck(files).RaisedKind(TestErr)
  {
    LegacyEntriesEmptyIff(files);
  }

  /** The line loop over the table of problematic characters. */
  method LegacyScanLine(lineNum: nat, line: string) returns (issues: seq<string>)
    ensures issues == LineProblems(lineNum, line, Problems)
  {
    issues := [];
    var k := 0;
    while k < |Problems|
      invariant k <= |Problems|
      invariant issues == LineProblems(lineNum, line, Problems[..k])
    {
      assert Problems[..k + 1][..k] == Problems[..k];
      var p := Problems[k];
      if p.c in line {
        issues := issues + [ProblemIssue(lineNum, line, p)];
      }
      k := k + 1;
    }
    assert Problems[..k] == Problems;
  }

  method LegacyScanFile(f: PyFile) returns (entry: Option<string>)
    ensures entry == LegacyFileEntry(f)
  {
    if exists p <- f.parts :: SkippedPart(p) {
      return None;
    }
    if f.content.Undecodable? {
      return Some(RelPath(f) + ": Failed to decode as UTF-8: " + f.content.error);
    }
    var lines := SplitLines(f.content.text);
    var issues := [];
    var n := 0;
    while n < |lines|
      invariant n <= |lines|
      invariant issues == LinesProblems(lines[..n], Problems)
    {
      assert lines[..n + 1][..n] == lines[..n];
      var li := LegacyScanLine(n + 1, lines[n]);
      issues := issues + li;
      n := n + 1;
    }
    assert lines[..n] == lines;
    if issues == [] {
      return None;
    }
    return Some(RelPath(f) + ":\n" + Join("\n", issues));
  }

  method LegacyCheckUnicode(files: seq<PyFile>) returns (r: Outcome<()>)
    ensures r == LegacyUnicodeCheck(files)
  {
    var entries := [];
    var i := 0;
    while i < |files|
      invariant i <= |files|
      invariant entries == LegacyEntries(files[..i])
    {
      assert files[..i + 1][..i] == files[..i];
      var e := LegacyScanFile(files[i]);
      if e.Some? {
        entries := entries + [e.value];
      }
      i := i + 1;
    }
    assert files[..i] == files;
    if entries == [] {
      return Ok(());
    }
    return LegacyUnicodeFailure(entries);
  }

  /** The legacy `_check_syntax`: a dependency file must exist, then the unicode scan runs. */
  function LegacySyntax(hasPyproject: bool, hasRequirements: bool, files: seq<PyFile>): (r: Outcome<()>)
    ensures r.Ok? <==> (hasPyproject || hasRequirements) && forall f <- files :: LegacyCleanFile(f)
    ensures r.Raised? ==> r.RaisedKind(TestErr)
  {
    LegacyUnicodeOkIff(files);
    var _ :- CheckProjectStructure(hasPyproject, hasRequirements);
    LegacyUnicodeCheck(files)
  }

  method LegacyCheckSyntax(hasPyproject: bool, hasRequirements: bool, files: seq<PyFile>) returns (r: Outcome<()>)
    ensures r == LegacySyntax(hasPyproject, hasRequirements, files)
  {
    var s := CheckProjectStructure(hasPyproject, hasRequirements);
    if s.Raised? {
      return Raised(s.exc);
    }
    r := LegacyCheckUnicode(files);
  }

  // ----- run_single_level ----------------------------------------------------------

  /** One call on the platform provider or on the server. */
  datatype Call =
    | SetupComfyUI(workDir: Path)
    | InstallNode(paths: TestPaths)
    | InstallFromRepo(paths: TestPaths, repo: Json, name: string)
    | StartServer(paths: TestPaths, mockPackages: Json)
    | StopServer

  /** One launch of the legacy instantiation probe: interpreter, working directory, script values, timeout. */
  datatype LegacyProbe = LegacyProbe(
    python: Path,
    cwd: Path,
    customNodesDir: string,
    nodeName: string,
    mockPackages: Json,
    timeout: nat)

  /** Everything outside the manager that a single-level run reads. */
  datatype SingleWorld = SingleWorld(
    hasPyproject: bool,                         // pyproject.toml exists in the node directory
    hasRequirements: bool,                      // requirements.txt exists in the node directory
    files: seq<PyFile>,                         // the node's `.py` files, in walk order
    getPlatform: string -> Outcome<()>,         // whether `get_platform` finds a provider
    setup: Path -> Outcome<TestPaths>,          // the provider's `setup_comfyui`
    provider: Call -> Outcome<()>,              // how every other provider or server call ends
    nodeReqs: Outcome<seq<(string, Json)>>,     // what `get_node_reqs` returns or raises
    cudaPackages: Outcome<seq<string>>,         // what `get_cuda_packages` returns or raises
    env: map<string, string>,                   // the process environment
    skipWorkflow: bool,                         // the platform's `skip_workflow`
    importErrors: seq<string>,                  // what the server's `get_import_errors` returns
    objectInfo: Outcome<seq<string>>,           // the keys of the server's object_info
    probe: LegacyProbe -> Outcome<ProcessResult>, // how the probe ends
    parse: string -> Option<Json>,              // `json.loads`
    screenshotList: seq<Path>,                  // `config.workflow.execution_screenshot`, [] when unset
    browser: Outcome<()>,                       // importing, checking and starting the screenshot browser
    capture: (Path, Path) -> Outcome<()>,       // `ws.capture_after_execution(workflow, output_path=...)`
    runWorkflow: Path -> Outcome<Json>)         // what `runner.run_workflow` returns or raises

  /** How far a level got: its outcome, the files on disk afterwards, and the calls it made. */
  datatype Steps = Steps(outcome: Outcome<()>, store: Store, calls: seq<Call>)

  /** What `run_single_level` returns, with the files on disk and the calls made. */
  datatype SingleRun = SingleRun(result: TestResult, store: Store, calls: seq<Call>)

  /** `os.environ.get("COMFY_TEST_GPU")` is truthy. */
  predicate GpuMode(env: map<string, string>)
  {
    "COMFY_TEST_GPU" in env && env["COMFY_TEST_GPU"] != ""
  }

  /** The packages INSTALL records for mocking: none in GPU mode. */
  function MockList(env: map<string, string>, cuda: seq<string>): seq<string>
  {
    if GpuMode(env) then [] else cuda
  }

  /** The state INSTALL saves for the paths it set up. */
  function InstalledState(platform: string, paths: TestPaths, cuda: seq<string>): TestState
  {
    TestState(JString(paths.comfyuiDir), JString(paths.python), JString(paths.customNodesDir),
              JList(Texts(cuda)), JString(platform))
  }

  /** One install call per node dependency, in order. */
  function DepCalls(paths: TestPaths, reqs: seq<(string, Json)>): (cs: seq<Call>)
    ensures |cs| == |reqs|
    ensures forall k :: 0 <= k < |reqs| ==> cs[k] == InstallFromRepo(paths, reqs[k].1, reqs[k].0)
  {
    if reqs == [] then [] else [InstallFromRepo(paths, reqs[0].1, reqs[0].0)] + DepCalls(paths, reqs[1..])
  }

  /** The INSTALL level with a work directory. */
  function InstallSteps(platform: string, workDir: Path, store: Store, w: SingleWorld): Steps
  {
    match w.getPlatform(platform)
    case Raised(e) => Steps(Raised(e), store, [])
    case Ok(_) =>
      match w.setup(workDir)
      case Raised(e) => Steps(Raised(e), store, [SetupComfyUI(workDir)])
      case Ok(paths) =>
        var node := InstallNode(paths);
        if w.provider(node).Raised? then Steps(w.provider(node), store, [SetupComfyUI(workDir), node])
        else
          match w.nodeReqs
          case Raised(e) => Steps(Raised(e), store, [SetupComfyUI(workDir), node])
          case Ok(reqs) =>
            var deps := InstallLevel.RunCalls(w.provider, DepCalls(paths, reqs));
            var calls := [SetupComfyUI(workDir), node] + deps.1;
            if deps.0.Raised? then Steps(deps.0, store, calls)
            else
              match w.cudaPackages
              case Raised(e) => Steps(Raised(e), store, calls)
              case Ok(cuda) => Steps(Ok(()), SaveState(InstalledState(platform, paths, MockList(w.env, cuda)), workDir, store), calls)
  }

  /** `Path(x)`: a string becomes a path; anything else raises TypeError. */
  function PathOf(j: Json): (r: Outcome<Path>)
    ensures r.Ok? <==> j.JString?
    ensures r.Ok? ==> r.value == j.s
  {
    if j.JString? then Ok(j.s)
    else TypeError("expected str, bytes or os.PathLike object, not " + TypeName(j))
  }

  /** The paths rebuilt from a loaded state. */
  function StatePaths(workDir: Path, s: TestState): (r: Outcome<TestPaths>)
    ensures r.Ok? <==> s.comfyuiDir.JString? && s.python.JString? && s.customNodesDir.JString?
    ensures r.Ok? ==> r.value == TestPaths(workDir, s.comfyuiDir.s, s.python.s, s.customNodesDir.s)
  {
    var comfyui :- PathOf(s.comfyuiDir);
    var python :- PathOf(s.python);
    var customNodes :- PathOf(s.customNodesDir);
    Ok(TestPaths(workDir, comfyui, python, customNodes))
  }

  /** The mock list a later level uses: the saved one, or none in GPU mode. */
  function MockPackages(s: TestState, env: map<string, string>): Json
  {
    if GpuMode(env) then JList([]) else s.cudaPackages
  }

  /** The probe launch for the node's package under the given paths. */
  function ProbeFor(nodeDir: Path, paths: TestPaths, packages: Json): (run: LegacyProbe)
    ensures '\\' !in run.customNodesDir && |run.customNodesDir| == |paths.customNodesDir|
    ensures run.timeout == ScriptTimeout && '/' !in run.nodeName
  {
    LegacyProbe(paths.python, paths.comfyuiDir, ReplaceChar(paths.customNodesDir, '\\', '/'), Name(nodeDir), packages, ScriptTimeout)
  }

  // ----- the EXECUTION branch -----------------------------------------------------------

  /** The exceptions the workflow loop's `except` clause names: WorkflowError, TestTimeoutError, ScreenshotError. */
  predicate LegacyCaught(e: Exc)
  {
    e.Typed? && e.kind in {WorkflowErr, TimeoutErr, ScreenshotErr}
  }

  /** An ImportError (ModuleNotFoundError included): the one failure that only switches screenshots off. */
  predicate IsImportError(e: Exc)
  {
    e.Untyped? && e.pyType in {"ImportError", "ModuleNotFoundError"}
  }

  /** The browser setup fails with something other than an ImportError, which ends the level. */
  predicate BrowserFatal(w: SingleWorld)
  {
    w.screenshotList != [] && w.browser.Raised? && !IsImportError(w.browser.exc)
  }

  /** Whether workflows in the screenshot list are run through the browser: it was asked for and it started. */
  predicate ScreenshotsOn(w: SingleWorld)
  {
    w.screenshotList != [] && w.browser.Ok?
  }

  /** `<node>/.comfy-test/screenshots/<stem>_executed.png`. */
  function ExecutedShot(nodeDir: Path, workflow: Path): Path
  {
    JoinPath(JoinPath(JoinPath(nodeDir, ".comfy-test"), "screenshots"), Stem(workflow) + "_executed.png")
  }

  /** `<node>/.comfy-test/results.json`. */
  function ResultsFile(nodeDir: Path): Path
  {
    JoinPath(JoinPath(nodeDir, ".comfy-test"), "results.json")
  }

  /**
   * How the try block around one workflow ends: a browser capture for a
   * screenshot workflow, otherwise an API run followed by `result['status']`.
   */
  function LegacyAttempt(nodeDir: Path, w: SingleWorld, workflow: Path): Outcome<()>
  {
    if ScreenshotsOn(w) && workflow in w.screenshotList then w.capture(workflow, ExecutedShot(nodeDir, workflow))
    else
      var result :- w.runWorkflow(workflow);
      var _ :- Subscript(result, JString("status"));
      Ok(())
  }

  /** The try block of each workflow, for the node and its collaborators. */
  function AttemptOf(nodeDir: Path, w: SingleWorld): Path -> Outcome<()>
  {
    workflow => LegacyAttempt(nodeDir, w, workflow)
  }

  /** One workflow: a pass, a caught failure recorded under the file name, or an exception that ends the loop. */
  function LegacyStep(p: ExecutionLevel.Progress, attempt: Path -> Outcome<()>, workflow: Path): Outcome<ExecutionLevel.Progress>
  {
    match attempt(workflow)
    case Ok(_) =>
      Ok(ExecutionLevel.Progress(p.records + [ExecutionLevel.WorkflowRecord(Stem(workflow), ExecutionLevel.Passed, None)], p.errors))
    case Raised(e) =>
      if !LegacyCaught(e) then Raised(e)
      else Ok(ExecutionLevel.Progress(p.records + [ExecutionLevel.WorkflowRecord(Stem(workflow), ExecutionLevel.Failed, Some(e.message))],
                                      p.errors + [(Name(workflow), e.message)]))
  }

  /** The loop over the configured workflows, in order; an exception the clause does not name ends it. */
  function LegacyLoop(attempt: Path -> Outcome<()>, workflows: seq<Path>): Outcome<ExecutionLevel.Progress>
  {
    if workflows == [] then Ok(ExecutionLevel.Progress([], []))
    else
      var p :- LegacyLoop(attempt, workflows[..|workflows| - 1]);
      LegacyStep(p, attempt, workflows[|workflows| - 1])
  }

  /** How a server level's check ends, and the results report it wrote, if any. */
  datatype LevelEnd = LevelEnd(outcome: Outcome<()>, report: Option<ExecutionLevel.Report>)

  /**
   * The EXECUTION branch: nothing to do without workflows or when the
   * platform skips them; otherwise the browser is set up if screenshots are
   * asked for, every workflow runs, the report is written, and any caught
   * failure raises one WorkflowExecutionError listing them.
   */
  function LegacyExecution(config: TestConfig, nodeDir: Path, platform: string, w: SingleWorld): LevelEnd
  {
    if config.workflow.run == [] || w.skipWorkflow then LevelEnd(Ok(()), None)
    else if BrowserFatal(w) then LevelEnd(Raised(w.browser.exc), None)
    else
      match LegacyLoop(AttemptOf(nodeDir, w), config.workflow.run)
      case Raised(e) => LevelEnd(Raised(e), None)
      case Ok(p) =>
        var report := ExecutionLevel.Report(platform, ExecutionLevel.SummaryOf(p.records), p.records);
        if p.errors == [] then LevelEnd(Ok(()), Some(report))
        else LevelEnd(Fail(WorkflowExecutionErr, "Workflow execution failed (" + NatToString(|p.errors|) + " error(s))",
                           Lines(ExecutionLevel.ErrorLines(p.errors))), Some(report))
  }

  /** One entry of `workflows` in results.json (its duration left out). */
  function RecordJson(r: ExecutionLevel.WorkflowRecord): Json
  {
    JObject([("name", JString(r.name)), ("status", JString(ExecutionLevel.StatusText(r.status))),
             ("error", if r.error.Some? then JString(r.error.value) else JNull)])
  }

  /** The results document (its timestamp left out). */
  function ResultsJson(report: ExecutionLevel.Report): Json
  {
    var s := report.summary;
    JObject([("platform", JString(report.platform)),
             ("summary", JObject([("total", JInt(s.total)), ("passed", JInt(s.passed)), ("failed", JInt(s.failed))])),
             ("workflows", JList(seq(|report.workflows|, k requires 0 <= k < |report.workflows| => RecordJson(report.workflows[k]))))])
  }

  /** The files after a level: results.json written when the level wrote a report. */
  function WriteReport(nodeDir: Path, report: Option<ExecutionLevel.Report>, store: Store): (r: Store)
    ensures report.None? ==> r == store
    ensures report.Some? ==> ResultsFile(nodeDir) in r && r[ResultsFile(nodeDir)] == Document(ResultsJson(report.value))
    ensures forall p :: p != ResultsFile(nodeDir) ==> (p in r <==> p in store) && (p in store ==> r[p] == store[p])
  {
    if report.None? then store else store[ResultsFile(nodeDir) := Document(ResultsJson(report.value))]
  }

  /** What a server level checks once the server is up. */
  function LevelCheck(level: Level, config: TestConfig, nodeDir: Path, platform: string, paths: TestPaths, packages: Json,
                      w: SingleWorld): LevelEnd
  {
    match level
    case Registration =>
      if w.importErrors != [] then
        LevelEnd(Fail(TestErr, "Node import failed (" + NatToString(|w.importErrors|) + " error(s))", Text(Join("\n", w.importErrors))), None)
      else LevelEnd(Ok(()), None)
    case Instantiation =>
      LevelEnd(ProbeCheck(nodeDir, paths, packages, w), None)
    case Execution => LegacyExecution(config, nodeDir, platform, w)
    case _ => LevelEnd(Ok(()), None)
  }

  /** INSTANTIATION: the node list is read, then the probe runs and its report is checked. */
  function ProbeCheck(nodeDir: Path, paths: TestPaths, packages: Json, w: SingleWorld): Outcome<()>
  {
    var _ :- w.objectInfo;
    var p :- w.probe(ProbeFor(nodeDir, paths, packages));
    CheckReport(p, w.parse)
  }

  /** A level after INSTALL, once the state is loaded: the server runs for the level and is stopped after it. */
  function ServerSteps(level: Level, config: TestConfig, nodeDir: Path, platform: string, workDir: Path,
                       state: TestState, store: Store, w: SingleWorld): Steps
  {
    var packages := MockPackages(state, w.env);
    match StatePaths(workDir, state)
    case Raised(e) => Steps(Raised(e), store, [])
    case Ok(paths) =>
      match w.getPlatform(platform)
      case Raised(e) => Steps(Raised(e), store, [])
      case Ok(_) =>
        var start := StartServer(paths, packages);
        if w.provider(start).Raised? then Steps(w.provider(start), store, [start])
        else
          var e := LevelCheck(level, config, nodeDir, platform, paths, packages, w);
          Steps(e.outcome, WriteReport(nodeDir, e.report, store), [start, StopServer])
  }

  /** The level's body, up to the point where its outcome becomes a result. */
  function LevelSteps(config: TestConfig, nodeDir: Path, platform: string, level: Level, workDir: Option<Path>,
                      skipSetup: bool, store: Store, w: SingleWorld): Steps
  {
    if level == Syntax then Steps(LegacySyntax(w.hasPyproject, w.hasRequirements, w.files), store, [])
    else if level == Install then
      if workDir.None? then
        Steps(Fail(TestErr, "work_dir required for install level", Text("Use --work-dir to specify a persistent directory")), store, [])
      else InstallSteps(platform, workDir.value, store, w)
    else if workDir.None? then
      Steps(Fail(TestErr, "work_dir required", Text("Use --work-dir to specify the directory containing state.json")), store, [])
    else if !skipSetup then
      Steps(Fail(TestErr, "skip_setup required for levels after install", Text("Use --skip-setup to load state from work_dir")), store, [])
    else StateSteps(level, config, nodeDir, platform, workDir.value, store, w)
  }

  /** A level after INSTALL, once its preconditions hold: load the saved state, then run against a server. */
  function StateSteps(level: Level, config: TestConfig, nodeDir: Path, platform: string, workDir: Path,
                      store: Store, w: SingleWorld): Steps
  {
    match LoadState(workDir, store)
    case Raised(e) => Steps(Raised(e), store, [])
    case Ok(state) => ServerSteps(level, config, nodeDir, platform, workDir, state, store, w)
  }

  /** `run_single_level`. */
  function SingleLevel(config: TestConfig, nodeDir: Path, platform: string, level: Level, workDir: Option<Path>,
                       skipSetup: bool, store: Store, w: SingleWorld): SingleRun
  {
    if level !in config.levels then
      SingleRun(TestResult(platform, true, None, Text("Skipped - not in config")), store, [])
    else
      var s := LevelSteps(config, nodeDir, platform, level, workDir, skipSetup, store, w);
      SingleRun(if s.outcome.Ok? then Passed(platform) else FailureResult(platform, s.outcome.exc), s.store, s.calls)
  }

  // ----- run_single_level, as it runs -----------------------------------------------

  /** The loop over the node dependencies: install each in order, stopping at the first failure. */
  method InstallNodeReqs(provider: Call -> Outcome<()>, paths: TestPaths, reqs: seq<(string, Json)>)
    returns (r: Outcome<()>, calls: seq<Call>)
    ensures (r, calls) == InstallLevel.RunCalls(provider, DepCalls(paths, reqs))
  {
    r, calls := InstallLevel.RunEach(provider, DepCalls(paths, reqs));
  }

  method RunInstall(platform: string, workDir: Path, store: Store, w: SingleWorld) returns (s: Steps)
    ensures s == InstallSteps(platform, workDir, store, w)
  {
    var provider := w.getPlatform(platform);
    if provider.Raised? {
      return Steps(Raised(provider.exc), store, []);
    }
    var setup := w.setup(workDir);
    if setup.Raised? {
      return Steps(Raised(setup.exc), store, [SetupComfyUI(workDir)]);
    }
    var paths := setup.value;
    var node := InstallNode(paths);
    var installed := w.provider(node);
    if installed.Raised? {
      return Steps(installed, store, [SetupComfyUI(workDir), node]);
    }
    var reqs := w.nodeReqs;
    if reqs.Raised? {
      return Steps(Raised(reqs.exc), store, [SetupComfyUI(workDir), node]);
    }
    var deps, depCalls := InstallNodeReqs(w.provider, paths, reqs.value);
    var calls := [SetupComfyUI(workDir), node] + depCalls;
    if deps.Raised? {
      return Steps(deps, store, calls);
    }
    var found := w.cudaPackages;
    if found.Raised? {
      return Steps(Raised(found.exc), store, calls);
    }
    var cuda := found.value;
    if GpuMode(w.env) {
      cuda := [];
    }
    var state := InstalledState(platform, paths, cuda);
    return Steps(Ok(()), SaveState(state, workDir, store), calls);
  }

  /** The legacy `_test_instantiation`'s reading of the probe's result. */
  method CheckProbe(p: ProcessResult, parse: string -> Option<Json>) returns (r: Outcome<()>)
    ensures r == CheckReport(p, parse)
  {
    if p.returncode != 0 {
      return Fail(TestErr, "Instantiation test failed", OutputDetails(p));
    }
    var line := FindJsonLine(p.stdout);
    if line.None? || parse(line.value).None? {
      return Fail(TestErr, "Instantiation test returned invalid JSON", OutputDetails(p));
    }
    var data := parse(line.value).value;
    var success :- Get(data, "success", JNull);
    if !Truthy(success) {
      var failure := InstantiationFailure(data);
      return Raised(failure.exc);
    }
    return Ok(());
  }

  method RunServerLevel(level: Level, config: TestConfig, nodeDir: Path, platform: string, workDir: Path,
                        state: TestState, store: Store, w: SingleWorld) returns (s: Steps)
    ensures s == ServerSteps(level, config, nodeDir, platform, workDir, state, store, w)
  {
    var packages := state.cudaPackages;
    if GpuMode(w.env) {
      packages := JList([]);
    }
    var paths := StatePaths(workDir, state);
    if paths.Raised? {
      return Steps(Raised(paths.exc), store, []);
    }
    var provider := w.getPlatform(platform);
    if provider.Raised? {
      return Steps(Raised(provider.exc), store, []);
    }
    var start := StartServer(paths.value, packages);
    var started := w.provider(start);
    if started.Raised? {
      return Steps(started, store, [start]);
    }
    var outcome: Outcome<()> := Ok(());
    var files := store;
    if level == Registration {
      if w.importErrors != [] {
        outcome := Fail(TestErr, "Node import failed (" + NatToString(|w.importErrors|) + " error(s))",
                        Text(Join("\n", w.importErrors)));
      }
    } else if level == Instantiation {
      if w.objectInfo.Raised? {
        outcome := Raised(w.objectInfo.exc);
      } else {
        var p := w.probe(ProbeFor(nodeDir, paths.value, packages));
        if p.Raised? {
          outcome := Raised(p.exc);
        } else {
          outcome := CheckProbe(p.value, w.parse);
        }
      }
    } else if level == Execution {
      var e := RunExecution(config, nodeDir, platform, w);
      outcome := e.outcome;
      if e.report.Some? {
        files := store[ResultsFile(nodeDir) := Document(ResultsJson(e.report.value))];
      }
    }
    return Steps(outcome, files, [start, StopServer]);
  }

  /** The EXECUTION branch: browser setup, the workflow loop, the report and the aggregated failure. */
  method RunExecution(config: TestConfig, nodeDir: Path, platform: string, w: SingleWorld) returns (e: LevelEnd)
    ensures e == LegacyExecution(config, nodeDir, platform, w)
  {
    if config.workflow.run == [] || w.skipWorkflow {
      return LevelEnd(Ok(()), None);
    }
    if BrowserFatal(w) {
      return LevelEnd(Raised(w.browser.exc), None);
    }
    var loop := RunWorkflows(nodeDir, w, config.workflow.run);
    if loop.Raised? {
      return LevelEnd(Raised(loop.exc), None);
    }
    var p := loop.value;
    var report := ExecutionLevel.Report(platform, ExecutionLevel.SummaryOf(p.records), p.records);
    if p.errors != [] {
      return LevelEnd(Fail(WorkflowExecutionErr, "Workflow execution failed (" + NatToString(|p.errors|) + " error(s))",
                           Lines(ExecutionLevel.ErrorLines(p.errors))), Some(report));
    }
    return LevelEnd(Ok(()), Some(report));
  }

  /** One pass of the workflow loop's body. */
  method RunWorkflow(p: ExecutionLevel.Progress, nodeDir: Path, w: SingleWorld, workflow: Path)
    returns (r: Outcome<ExecutionLevel.Progress>)
    ensures r == LegacyStep(p, AttemptOf(nodeDir, w), workflow)
  {
    var attempt: Outcome<()>;
    if ScreenshotsOn(w) && workflow in w.screenshotList {
      attempt := w.capture(workflow, ExecutedShot(nodeDir, workflow));
    } else {
      var result := w.runWorkflow(workflow);
      if result.Raised? {
        attempt := Raised(result.exc);
      } else {
        var status := Subscript(result.value, JString("status"));
        attempt := if status.Raised? then Raised(status.exc) else Ok(());
      }
    }
    if attempt.Ok? {
      return Ok(ExecutionLevel.Progress(p.records + [ExecutionLevel.WorkflowRecord(Stem(workflow), ExecutionLevel.Passed, None)], p.errors));
    }
    var e := attempt.exc;
    if !LegacyCaught(e) {
      return Raised(e);
    }
    return Ok(ExecutionLevel.Progress(p.records + [ExecutionLevel.WorkflowRecord(Stem(workflow), ExecutionLevel.Failed, Some(e.message))],
                                      p.errors + [(Name(workflow), e.message)]));
  }

  /** The loop over the configured workflows, one `RunWorkflow` each until an exception escapes. */
  method RunWorkflows(nodeDir: Path, w: SingleWorld, workflows: seq<Path>) returns (r: Outcome<ExecutionLevel.Progress>)
    ensures r == LegacyLoop(AttemptOf(nodeDir, w), workflows)
  {
    var p := ExecutionLevel.Progress([], []);
    var i := 0;
    while i < |workflows|
      invariant 0 <= i <= |workflows|
      invariant LegacyLoop(AttemptOf(nodeDir, w), workflows[..i]) == Ok(p)
    {
      assert workflows[..i + 1][..i] == workflows[..i];
      var next := RunWorkflow(p, nodeDir, w, workflows[i]);
      if next.Raised? {
        assert LegacyLoop(AttemptOf(nodeDir, w), workflows[..i + 1]) == next;
        LegacyLoopKeepsRaise(AttemptOf(nodeDir, w), workflows, i + 1);
        return next;
      }
      p := next.value;
      i := i + 1;
    }
    assert workflows[..i] == workflows;
    return Ok(p);
  }

  /**
   * The record a workflow should get: named by its stem, "pass" exactly
   * when its try block ended normally, otherwise "fail" with the message of
   * the exception caught.
   */
  predicate LegacyRecordFor(r: ExecutionLevel.WorkflowRecord, attempt: Path -> Outcome<()>, workflow: Path)
  {
    && r.name == Stem(workflow)
    && (r.status == ExecutionLevel.Passed <==> attempt(workflow).Ok?)
    && (attempt(workflow).Raised? ==> r.status == ExecutionLevel.Failed && r.error == Some(ExcText(attempt(workflow).exc)))
  }

  /** A workflow's try block ends normally or with an exception the clause catches. */
  predicate Settles(attempt: Path -> Outcome<()>, workflow: Path)
  {
    attempt(workflow).Ok? || LegacyCaught(attempt(workflow).exc)
  }

  /** The loop runs every workflow exactly when none of them raises an exception the clause does not name. */
  lemma LegacyLoopOkIff(attempt: Path -> Outcome<()>, workflows: seq<Path>)
    ensures LegacyLoop(attempt, workflows).Ok? <==> forall k :: 0 <= k < |workflows| ==> Settles(attempt, workflows[k])
  {
    LoopOkAllSettle(attempt, workflows);
    AllSettleIff(attempt, workflows);
  }

  /** Every workflow settles, stated in the loop's own left-to-right shape. */
  predicate AllSettle(attempt: Path -> Outcome<()>, workflows: seq<Path>)
  {
    workflows == [] || (AllSettle(attempt, workflows[..|workflows| - 1]) && Settles(attempt, workflows[|workflows| - 1]))
  }

  lemma {:induction false} LoopOkAllSettle(attempt: Path -> Outcome<()>, workflows: seq<Path>)
    ensures LegacyLoop(attempt, workflows).Ok? <==> AllSettle(attempt, workflows)
  {
    if workflows != [] {
      var init := workflows[..|workflows| - 1];
      LoopOkAllSettle(attempt, init);
      var before := LegacyLoop(attempt, init);
      if before.Ok? {
        LegacyStepOk(before.value, attempt, workflows[|workflows| - 1]);
      }
    }
  }

  lemma {:induction false} AllSettleIff(attempt: Path -> Outcome<()>, workflows: seq<Path>)
    ensures AllSettle(attempt, workflows) <==> forall k :: 0 <= k < |workflows| ==> Settles(attempt, workflows[k])
  {
    if workflows != [] {
      var init := workflows[..|workflows| - 1];
      AllSettleIff(attempt, init);
      assert forall k :: 0 <= k < |init| ==> init[k] == workflows[k];
    }
  }

  /** One step goes on exactly when the workflow's try block settles. */
  lemma LegacyStepOk(p: ExecutionLevel.Progress, attempt: Path -> Outcome<()>, workflow: Path)
    ensures LegacyStep(p, attempt, workflow).Ok? <==> Settles(attempt, workflow)
  {
  }

  /**
   * A completed loop has one record per workflow, in order, each the record
   * that workflow should get; none is skipped, and there is one failure
   * entry per failed record.
   */
  lemma {:induction false} LegacyLoopRecords(attempt: Path -> Outcome<()>, workflows: seq<Path>)
    requires LegacyLoop(attempt, workflows).Ok?
    ensures var p := LegacyLoop(attempt, workflows).value;
      && |p.records| == |workflows|
      && (forall k :: 0 <= k < |workflows| ==> LegacyRecordFor(p.records[k], attempt, workflows[k]))
      && |p.errors| == ExecutionLevel.CountStatus(p.records, ExecutionLevel.Failed)
      && ExecutionLevel.CountStatus(p.records, ExecutionLevel.Skipped) == 0
  {
    if workflows != [] {
      var init := workflows[..|workflows| - 1];
      var last := workflows[|workflows| - 1];
      LegacyLoopRecords(attempt, init);
      var p0 := LegacyLoop(attempt, init).value;
      var p := LegacyLoop(attempt, workflows).value;
      assert LegacyStep(p0, attempt, last) == Ok(p);
      LegacyStepRecord(p0, attempt, last);
      ExecutionLevel.PairwiseSnoc(p0.records, p.records, workflows, (r, wf) => LegacyRecordFor(r, attempt, wf));
    }
  }

  /** One step adds the workflow's record, and an error entry exactly when that record is a failure. */
  lemma LegacyStepRecord(p: ExecutionLevel.Progress, attempt: Path -> Outcome<()>, workflow: Path)
    requires LegacyStep(p, attempt, workflow).Ok?
    ensures var q := LegacyStep(p, attempt, workflow).value;
      && |q.records| == |p.records| + 1
      && q.records[..|p.records|] == p.records
      && LegacyRecordFor(q.records[|p.records|], attempt, workflow)
      && |q.errors| == |p.errors| + (if q.records[|p.records|].status == ExecutionLevel.Failed then 1 else 0)
      && ExecutionLevel.CountStatus(q.records, ExecutionLevel.Failed)
           == ExecutionLevel.CountStatus(p.records, ExecutionLevel.Failed) + (if q.records[|p.records|].status == ExecutionLevel.Failed then 1 else 0)
      && ExecutionLevel.CountStatus(q.records, ExecutionLevel.Skipped) == ExecutionLevel.CountStatus(p.records, ExecutionLevel.Skipped)
  {
    var q := LegacyStep(p, attempt, workflow).value;
    assert q.records[..|p.records|] == p.records;
  }

  /**
   * EXECUTION passes exactly when there is nothing to run, or the browser
   * setup is not fatal and every workflow's try block ends normally; a
   * report is written exactly when the loop reaches its end.
   */
  lemma LegacyExecutionOkIff(config: TestConfig, nodeDir: Path, platform: string, w: SingleWorld)
    ensures var run := config.workflow.run;
      LegacyExecution(config, nodeDir, platform, w).outcome.Ok? <==>
        run == [] || w.skipWorkflow || (!BrowserFatal(w) && forall k :: 0 <= k < |run| ==> AttemptOf(nodeDir, w)(run[k]).Ok?)
    ensures var run := config.workflow.run;
      LegacyExecution(config, nodeDir, platform, w).report.Some? <==>
        run != [] && !w.skipWorkflow && !BrowserFatal(w) && forall k :: 0 <= k < |run| ==> Settles(AttemptOf(nodeDir, w), run[k])
  {
    var run := config.workflow.run;
    var attempt := AttemptOf(nodeDir, w);
    LegacyLoopOkIff(attempt, run);
    if run != [] && !w.skipWorkflow && !BrowserFatal(w) && LegacyLoop(attempt, run).Ok? {
      LegacyLoopRecords(attempt, run);
      var p := LegacyLoop(attempt, run).value;
      ExecutionLevel.CountStatusZero(p.records, ExecutionLevel.Failed);
      assert (forall k :: 0 <= k < |run| ==> attempt(run[k]).Ok?) <==> (forall k :: 0 <= k < |run| ==> p.records[k].status != ExecutionLevel.Failed) by {
        assert forall k :: 0 <= k < |run| ==> (attempt(run[k]).Ok? <==> p.records[k].status != ExecutionLevel.Failed);
      }
    }
  }

  /**
   * A written report covers every configured workflow, in order, with the
   * record each should get; its counts add up to the total; and the level
   * fails exactly when some workflow failed, with one WorkflowExecutionError
   * that counts the failures and lists one line for each.
   */
  lemma LegacyExecutionReport(config: TestConfig, nodeDir: Path, platform: string, w: SingleWorld)
    requires LegacyExecution(config, nodeDir, platform, w).report.Some?
    ensures var e := LegacyExecution(config, nodeDir, platform, w);
      var r := e.report.value;
      var run := config.workflow.run;
      && r.platform == platform
      && |r.workflows| == |run| == r.summary.total
      && (forall k :: 0 <= k < |run| ==> LegacyRecordFor(r.workflows[k], AttemptOf(nodeDir, w), run[k]))
      && r.summary.passed + r.summary.failed == r.summary.total
      && (e.outcome.Ok? <==> r.summary.failed == 0)
      && (e.outcome.Raised? ==>
            && e.outcome.exc.Typed? && e.outcome.exc.kind == WorkflowExecutionErr
            && e.outcome.exc.message == "Workflow execution failed (" + NatToString(r.summary.failed) + " error(s))"
            && e.outcome.exc.details.Lines? && |e.outcome.exc.details.lines| == r.summary.failed)
  {
    var run := config.workflow.run;
    var attempt := AttemptOf(nodeDir, w);
    assert run != [] && !w.skipWorkflow && !BrowserFatal(w) && LegacyLoop(attempt, run).Ok?;
    var p := LegacyLoop(attempt, run).value;
    LegacyLoopRecords(attempt, run);
    ExecutionLevel.CountSkippedApart(p.records);
    var report := ExecutionLevel.Report(platform, ExecutionLevel.SummaryOf(p.records), p.records);
    assert LegacyExecution(config, nodeDir, platform, w)
           == if p.errors == [] then LevelEnd(Ok(()), Some(report))
              else LevelEnd(Fail(WorkflowExecutionErr, "Workflow execution failed (" + NatToString(|p.errors|) + " error(s))",
                                 Lines(ExecutionLevel.ErrorLines(p.errors))), Some(report));
  }

  /** Once a prefix of the workflow loop raises, the whole loop raises the same exception. */
  lemma {:induction false} LegacyLoopKeepsRaise(attempt: Path -> Outcome<()>, workflows: seq<Path>, n: nat)
    requires n <= |workflows|
    requires LegacyLoop(attempt, workflows[..n]).Raised?
    ensures LegacyLoop(attempt, workflows) == LegacyLoop(attempt, workflows[..n])
    decreases |workflows| - n
  {
    if n < |workflows| {
      assert workflows[..n + 1][..n] == workflows[..n];
      LegacyLoopKeepsRaise(attempt, workflows, n + 1);
    } else {
      assert workflows[..n] == workflows;
    }
  }

  method RunSingleLevel(config: TestConfig, nodeDir: Path, platform: string, level: Level, workDir: Option<Path>,
                        skipSetup: bool, store: Store, w: SingleWorld) returns (run: SingleRun)
    ensures run == SingleLevel(config, nodeDir, platform, level, workDir, skipSetup, store, w)
  {
    if level !in config.levels {
      return SingleRun(TestResult(platform, true, None, Text("Skipped - not in config")), store, []);
    }
    var s := RunLevelSteps(config, nodeDir, platform, level, workDir, skipSetup, store, w);
    if s.outcome.Ok? {
      run := SingleRun(Passed(platform), s.store, s.calls);
    } else {
      run := SingleRun(FailureResult(platform, s.outcome.exc), s.store, s.calls);
    }
  }

  /** The level's own work once it is known to be configured: its outcome, the state file store and the provider calls. */
  method RunLevelSteps(config: TestConfig, nodeDir: Path, platform: string, level: Level, workDir: Option<Path>,
                       skipSetup: bool, store: Store, w: SingleWorld) returns (s: Steps)
    ensures s == LevelSteps(config, nodeDir, platform, level, workDir, skipSetup, store, w)
  {
    if level == Syntax {
      var r := LegacyCheckSyntax(w.hasPyproject, w.hasRequirements, w.files);
      s := Steps(r, store, []);
    } else if level == Install {
      s := RunInstallLevel(platform, workDir, store, w);
    } else {
      s := RunLaterLevel(level, config, nodeDir, platform, workDir, skipSetup, store, w);
    }
  }

  /** INSTALL: it needs a work directory. */
  method RunInstallLevel(platform: string, workDir: Option<Path>, store: Store, w: SingleWorld) returns (s: Steps)
    ensures s == if workDir.None? then
                   Steps(Fail(TestErr, "work_dir required for install level", Text("Use --work-dir to specify a persistent directory")), store, [])
                 else InstallSteps(platform, workDir.value, store, w)
  {
    if workDir.None? {
      s := Steps(Fail(TestErr, "work_dir required for install level", Text("Use --work-dir to specify a persistent directory")), store, []);
    } else {
      s := RunInstall(platform, workDir.value, store, w);
    }
  }

  /** A level after INSTALL: it needs a work directory and `skip_setup`. */
  method RunLaterLevel(level: Level, config: TestConfig, nodeDir: Path, platform: string, workDir: Option<Path>,
                       skipSetup: bool, store: Store, w: SingleWorld) returns (s: Steps)
    requires level != Syntax && level != Install
    ensures s == LevelSteps(config, nodeDir, platform, level, workDir, skipSetup, store, w)
  {
    if workDir.None? {
      s := Steps(Fail(TestErr, "work_dir required", Text("Use --work-dir to specify the directory containing state.json")), store, []);
    } else if !skipSetup {
      s := Steps(Fail(TestErr, "skip_setup required for levels after install", Text("Use --skip-setup to load state from work_dir")), store, []);
    } else {
      s := RunFromState(level, config, nodeDir, platform, workDir.value, store, w);
    }
  }

  /** A level after INSTALL: the saved state is loaded, then the level runs against a started server. */
  method RunFromState(level: Level, config: TestConfig, nodeDir: Path, platform: string, workDir: Path,
                      store: Store, w: SingleWorld) returns (s: Steps)
    ensures s == StateSteps(level, config, nodeDir, platform, workDir, store, w)
  {
    var state := LoadState(workDir, store);
    if state.Raised? {
      s := Steps(Raised(state.exc), store, []);
    } else {
      s := RunServerLevel(level, config, nodeDir, platform, workDir, state.value, store, w);
    }
  }

  // ----- properties of run_single_level ----------------------------------------------

  /** A level the configuration does not list passes as skipped, without any call or file change. */
  lemma NotInConfigSkipped(config: TestConfig, nodeDir: Path, platform: string, level: Level, workDir: Option<Path>,
                           skipSetup: bool, store: Store, w: SingleWorld)
    requires level !in config.levels
    ensures var r := SingleLevel(config, nodeDir, platform, level, workDir, skipSetup, store, w);
      r.result.success && r.result.details == Text("Skipped - not in config") && r.store == store && r.calls == []
  {
  }

  /** INSTALL without a work directory fails before any provider call. */
  lemma InstallNeedsWorkDir(config: TestConfig, nodeDir: Path, platform: string, skipSetup: bool, store: Store, w: SingleWorld)
    requires Install in config.levels
    ensures var r := SingleLevel(config, nodeDir, platform, Install, None, skipSetup, store, w);
      !r.result.success && r.result.error == Some("work_dir required for install level") && r.calls == [] && r.store == store
  {
  }

  /**
   * A passing INSTALL made the setup, node and dependency calls in order and
   * saved a state that loads back as the set-up paths, the mock list (empty
   * in GPU mode) and the platform name.
   */
  lemma InstallSavesState(config: TestConfig, nodeDir: Path, platform: string, workDir: Path, skipSetup: bool,
                          store: Store, w: SingleWorld)
    requires Install in config.levels
    requires SingleLevel(config, nodeDir, platform, Install, Some(workDir), skipSetup, store, w).result.success
    ensures w.getPlatform(platform).Ok? && w.setup(workDir).Ok? && w.nodeReqs.Ok? && w.cudaPackages.Ok?
    ensures var paths := w.setup(workDir).value;
      var r := SingleLevel(config, nodeDir, platform, Install, Some(workDir), skipSetup, store, w);
      && LoadState(workDir, r.store) == Ok(InstalledState(platform, paths, MockList(w.env, w.cudaPackages.value)))
      && r.calls == [SetupComfyUI(workDir), InstallNode(paths)] + DepCalls(paths, w.nodeReqs.value)
      && (GpuMode(w.env) ==> LoadState(workDir, r.store).value.cudaPackages == JList([]))
  {
    var s := InstallSteps(platform, workDir, store, w);
    SingleLevelSteps(config, nodeDir, platform, Install, Some(workDir), skipSetup, store, w);
    assert s.outcome.Ok?;
    InstallStepsOk(platform, workDir, store, w);
    var paths := w.setup(workDir).value;
    SaveLoadRoundTrip(InstalledState(platform, paths, MockList(w.env, w.cudaPackages.value)), workDir, store);
  }

  /** A level the configuration lists: its result is its steps' outcome, with their files and calls. */
  lemma SingleLevelSteps(config: TestConfig, nodeDir: Path, platform: string, level: Level, workDir: Option<Path>,
                         skipSetup: bool, store: Store, w: SingleWorld)
    requires level in config.levels
    ensures var s := LevelSteps(config, nodeDir, platform, level, workDir, skipSetup, store, w);
      var r := SingleLevel(config, nodeDir, platform, level, workDir, skipSetup, store, w);
      && (r.result.success <==> s.outcome.Ok?) && r.store == s.store && r.calls == s.calls
  {
  }

  /** A passing INSTALL saved the state for the set-up paths after every planned call. */
  lemma InstallStepsOk(platform: string, workDir: Path, store: Store, w: SingleWorld)
    requires InstallSteps(platform, workDir, store, w).outcome.Ok?
    ensures w.getPlatform(platform).Ok? && w.setup(workDir).Ok? && w.nodeReqs.Ok? && w.cudaPackages.Ok?
    ensures var paths := w.setup(workDir).value;
      var s := InstallSteps(platform, workDir, store, w);
      && s.store == SaveState(InstalledState(platform, paths, MockList(w.env, w.cudaPackages.value)), workDir, store)
      && s.calls == [SetupComfyUI(workDir), InstallNode(paths)] + DepCalls(paths, w.nodeReqs.value)
  {
    var paths := w.setup(workDir).value;
    InstallLevel.RunCallsPrefix(w.provider, DepCalls(paths, w.nodeReqs.value));
  }

  /**
   * `get_node_reqs` and `get_cuda_packages` may raise: once the node is
   * installed, a raising `get_node_reqs` ends INSTALL before any dependency
   * is installed, and a raising `get_cuda_packages` ends it after every
   * dependency; neither saves a state.
   */
  lemma InstallComfyEnvRaises(platform: string, workDir: Path, store: Store, w: SingleWorld)
    requires w.getPlatform(platform).Ok? && w.setup(workDir).Ok?
    requires w.provider(InstallNode(w.setup(workDir).value)).Ok?
    ensures var paths := w.setup(workDir).value;
      var s := InstallSteps(platform, workDir, store, w);
      w.nodeReqs.Raised? ==> s == Steps(Raised(w.nodeReqs.exc), store, [SetupComfyUI(workDir), InstallNode(paths)])
    ensures var paths := w.setup(workDir).value;
      var s := InstallSteps(platform, workDir, store, w);
      w.nodeReqs.Ok? && InstallLevel.RunCalls(w.provider, DepCalls(paths, w.nodeReqs.value)).0.Ok? && w.cudaPackages.Raised? ==>
        s == Steps(Raised(w.cudaPackages.exc), store, [SetupComfyUI(workDir), InstallNode(paths)] + DepCalls(paths, w.nodeReqs.value))
  {
    var paths := w.setup(workDir).value;
    if w.nodeReqs.Ok? {
      InstallLevel.RunCallsPrefix(w.provider, DepCalls(paths, w.nodeReqs.value));
    }
  }

  /** A level after INSTALL fails without both a work directory and skip_setup, and starts no server. */
  lemma LaterLevelsNeedSavedState(config: TestConfig, nodeDir: Path, platform: string, level: Level,
                                  workDir: Option<Path>, skipSetup: bool, store: Store, w: SingleWorld)
    requires level in config.levels && level != Syntax && level != Install
    requires workDir.None? || !skipSetup
    ensures var r := SingleLevel(config, nodeDir, platform, level, workDir, skipSetup, store, w);
      !r.result.success && r.result.error.Some? && r.calls == [] && r.store == store
  {
  }

  /**
   * A later level starts its server, if at all, with the paths rebuilt from
   * the loaded state and the state's mock list (none in GPU mode), stops it
   * once it started, and changes no file other than the EXECUTION level's
   * results.json.
   */
  lemma ServerFromSavedState(config: TestConfig, nodeDir: Path, platform: string, level: Level, workDir: Path,
                             store: Store, w: SingleWorld)
    requires level in config.levels && level != Syntax && level != Install
    ensures var r := SingleLevel(config, nodeDir, platform, level, Some(workDir), true, store, w);
      r.calls != [] ==>
        && LoadState(workDir, store).Ok?
        && StatePaths(workDir, LoadState(workDir, store).value).Ok?
        && r.calls[0] == StartServer(StatePaths(workDir, LoadState(workDir, store).value).value,
                                     MockPackages(LoadState(workDir, store).value, w.env))
    ensures var r := SingleLevel(config, nodeDir, platform, level, Some(workDir), true, store, w);
      r.calls != [] && w.provider(r.calls[0]).Ok? ==> r.calls == [r.calls[0], StopServer]
    ensures var r := SingleLevel(config, nodeDir, platform, level, Some(workDir), true, store, w);
      && (level != Execution ==> r.store == store)
      && forall p :: p != ResultsFile(nodeDir) ==> (p in r.store <==> p in store) && (p in store ==> r.store[p] == store[p])
  {
    SingleLevelSteps(config, nodeDir, platform, level, Some(workDir), true, store, w);
    var loaded := LoadState(workDir, store);
    if loaded.Ok? {
      ServerStepsShape(level, config, nodeDir, platform, workDir, loaded.value, store, w);
    }
  }

  /**
   * The server steps start the server with the rebuilt paths and stop it
   * once it started. No file changes except the EXECUTION level's
   * results.json.
   */
  lemma ServerStepsShape(level: Level, config: TestConfig, nodeDir: Path, platform: string, workDir: Path,
                         state: TestState, store: Store, w: SingleWorld)
    ensures var s := ServerSteps(level, config, nodeDir, platform, workDir, state, store, w);
      && (level != Execution ==> s.store == store)
      && (forall p :: p != ResultsFile(nodeDir) ==> (p in s.store <==> p in store) && (p in store ==> s.store[p] == store[p]))
      && (s.calls != [] ==>
            StatePaths(workDir, state).Ok? &&
            s.calls[0] == StartServer(StatePaths(workDir, state).value, MockPackages(state, w.env)))
      && (s.calls != [] && w.provider(s.calls[0]).Ok? ==> s.calls == [s.calls[0], StopServer])
  {
    var packages := MockPackages(state, w.env);
    var paths := StatePaths(workDir, state);
    if paths.Ok? && w.getPlatform(platform).Ok? && w.provider(StartServer(paths.value, packages)).Ok? {
      var e := LevelCheck(level, config, nodeDir, platform, paths.value, packages, w);
      assert level != Execution ==> e.report.None?;
      assert ServerSteps(level, config, nodeDir, platform, workDir, state, store, w).store == WriteReport(nodeDir, e.report, store);
    }
  }

  /**
   * EXECUTION once the server is up: the level ends as the EXECUTION branch
   * does, the server is stopped either way, and results.json holds the
   * branch's report exactly when it wrote one; otherwise no file changes.
   */
  lemma ServerExecution(config: TestConfig, nodeDir: Path, platform: string, workDir: Path,
                        state: TestState, store: Store, w: SingleWorld)
    requires StatePaths(workDir, state).Ok? && w.getPlatform(platform).Ok?
    requires w.provider(StartServer(StatePaths(workDir, state).value, MockPackages(state, w.env))).Ok?
    ensures var s := ServerSteps(Execution, config, nodeDir, platform, workDir, state, store, w);
      var e := LegacyExecution(config, nodeDir, platform, w);
      && s.outcome == e.outcome
      && s.calls == [StartServer(StatePaths(workDir, state).value, MockPackages(state, w.env)), StopServer]
      && (e.report.Some? ==> ResultsFile(nodeDir) in s.store && s.store[ResultsFile(nodeDir)] == Document(ResultsJson(e.report.value)))
      && (e.report.None? ==> s.store == store)
  {
  }

  /**
   * INSTALL, then a later level on the same work directory: the later
   * level's server starts with the ComfyUI directory, interpreter and
   * custom-nodes directory INSTALL set up, and with INSTALL's mock list
   * unless the later step runs in GPU mode.
   */
  lemma InstallThenServer(config: TestConfig, nodeDir: Path, platform: string, level: Level, workDir: Path,
                          store: Store, w1: SingleWorld, w2: SingleWorld)
    requires Install in config.levels && level in config.levels && level != Syntax && level != Install
    requires SingleLevel(config, nodeDir, platform, Install, Some(workDir), false, store, w1).result.success
    requires w2.getPlatform(platform).Ok?
    ensures w1.setup(workDir).Ok? && w1.cudaPackages.Ok?
    ensures var paths := w1.setup(workDir).value;
      var saved := SingleLevel(config, nodeDir, platform, Install, Some(workDir), false, store, w1).store;
      var r := SingleLevel(config, nodeDir, platform, level, Some(workDir), true, saved, w2);
      r.calls != [] && r.calls[0] == StartServer(TestPaths(workDir, paths.comfyuiDir, paths.python, paths.customNodesDir),
                                                 if GpuMode(w2.env) then JList([]) else JList(Texts(MockList(w1.env, w1.cudaPackages.value))))
  {
    InstallSavesState(config, nodeDir, platform, workDir, false, store, w1);
  }
}
