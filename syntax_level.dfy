/**
 * The SYNTAX level: the node directory must hold a dependency file, and every
 * Python source under it (outside tool and environment directories) must
 * decode as UTF-8 and use only characters that Windows code page 1252 can
 * encode. The directory walk and file reads are inputs: the `.py` files in
 * walk order, each with its relative path parts and its decoded text.
 * Character names and reprs come from Python's unicode database, also inputs.
 */
module SyntaxLevel {
  import opened Base
  import opened Strings
  import opened Context

  /** A file's content: UTF-8 text, or the decoder's complaint. */
  datatype FileText = Decoded(text: string) | Undecodable(error: string)

  /** One `.py` file found under the node directory. */
  datatype PyFile = PyFile(parts: seq<string>, content: FileText)

  /** The 27 characters above U+00FF that code page 1252 maps into 0x80..0x9F. */
  const Cp1252Extras: set<char> := {
    '€', '‚', 'ƒ', '„', '…', '†', '‡', 'ˆ', '‰',
    'Š', '‹', 'Œ', 'Ž', '‘', '’', '“', '”', '•',
    '–', '—', '˜', '™', 'š', '›', 'œ', 'ž', 'Ÿ'}

  /** `char.encode('cp1252')` succeeds: ASCII, Latin-1 from U+00A0, or one of the mapped extras. */
  predicate Cp1252(c: char)
  {
    c <= '\U{7F}' || ('\U{A0}' <= c <= '\U{FF}') || c in Cp1252Extras
  }

  /** The directory names the scan never enters. */
  const SkipDirs: set<string> := {".git", "__pycache__", ".venv", "venv", "node_modules", "site-packages", "lib", "Lib", ".pixi"}

  /** A path part that marks a non-source location. */
  predicate SkippedPart(p: string)
  {
    p in SkipDirs || StartsWith(p, "_env_") || StartsWith(p, ".")
  }

  predicate Skipped(f: PyFile)
  {
    exists p <- f.parts :: SkippedPart(p)
  }

  function RelPath(f: PyFile): string
  {
    Join("/", f.parts)
  }

  // ----- specification -----------------------------------------------------

  function CharIssue(lineNum: nat, col: nat, c: char, name: char -> string, repr: char -> string): string
  {
    "  Line " + NatToString(lineNum) + ", col " + NatToString(col) + ": " + name(c) + " (" + repr(c) + ") - not encodable in cp1252"
  }

  /** The issues of one line, by column (columns count from 1). */
  function LineIssues(lineNum: nat, line: string, name: char -> string, repr: char -> string): seq<string>
  {
    if line == [] then []
    else
      var c := line[|line| - 1];
      LineIssues(lineNum, line[..|line| - 1], name, repr)
        + (if Cp1252(c) then [] else [CharIssue(lineNum, |line|, c, name, repr)])
  }

  /** The issues of a file's lines, by line (lines count from 1). */
  function LinesIssues(lines: seq<string>, name: char -> string, repr: char -> string): seq<string>
  {
    if lines == [] then []
    else LinesIssues(lines[..|lines| - 1], name, repr) + LineIssues(|lines|, lines[|lines| - 1], name, repr)
  }

  /** What a file adds to the report, if anything. */
  function FileEntry(f: PyFile, name: char -> string, repr: char -> string): Option<string>
  {
    if Skipped(f) then None
    else
      match f.content
      case Undecodable(error) => Some(RelPath(f) + ": Failed to decode as UTF-8: " + error)
      case Decoded(text) =>
        var issues := LinesIssues(SplitLines(text), name, repr);
        if issues == [] then None else Some(RelPath(f) + ":\n" + Join("\n", issues))
  }

  function Entries(files: seq<PyFile>, name: char -> string, repr: char -> string): seq<string>
  {
    if files == [] then []
    else
      var e := FileEntry(files[|files| - 1], name, repr);
      Entries(files[..|files| - 1], name, repr) + (if e.Some? then [e.value] else [])
  }

  function UnicodeFailure(entries: seq<string>): Outcome<()>
  {
    Fail(TestErr, "Non-ASCII characters found that can't encode on Windows (cp1252)",
         Text("Replace with ASCII equivalents:\n\n" + Join("\n\n", entries)))
  }

  /** `_check_unicode_characters`. */
  function UnicodeCheck(files: seq<PyFile>, name: char -> string, repr: char -> string): Outcome<()>
  {
    var entries := Entries(files, name, repr);
    if entries == [] then Ok(()) else UnicodeFailure(entries)
  }

  /** Every character of a line encodes. */
  predicate CleanLine(line: string)
  {
    forall c <- line :: Cp1252(c)
  }

  /** Every line of a text is cp1252-safe (line breaks themselves are not part of any line). */
  predicate CleanText(text: string)
  {
    forall line <- SplitLines(text) :: CleanLine(line)
  }

  /** A file passes: it is skipped, or it decodes and every character of every line is cp1252-safe. */
  predicate CleanFile(f: PyFile)
  {
    Skipped(f) || (f.content.Decoded? && CleanText(f.content.text))
  }

  // ----- properties --------------------------------------------------------

  /** A line has no issues iff every character of it encodes. */
  lemma {:induction false} LineIssuesEmptyIff(lineNum: nat, line: string, name: char -> string, repr: char -> string)
    ensures LineIssues(lineNum, line, name, repr) == [] <==> CleanLine(line)
  {
    if line != [] {
      var init := line[..|line| - 1];
      LineIssuesEmptyIff(lineNum, init, name, repr);
      assert line == init + [line[|line| - 1]];
    }
  }

  /** Exactly one issue per character that does not encode. */
  lemma {:induction false} LineIssuesCount(lineNum: nat, line: string, name: char -> string, repr: char -> string)
    ensures |LineIssues(lineNum, line, name, repr)| == |BadColumns(line)|
  {
    if line != [] {
      LineIssuesCount(lineNum, line[..|line| - 1], name, repr);
    }
  }

  /** The columns (from 1) whose character does not encode. */
  function BadColumns(line: string): seq<nat>
  {
    if line == [] then []
    else BadColumns(line[..|line| - 1]) + (if Cp1252(line[|line| - 1]) then [] else [|line|])
  }

  lemma {:induction false} LinesIssuesEmptyIff(lines: seq<string>, name: char -> string, repr: char -> string)
    ensures LinesIssues(lines, name, repr) == [] <==> forall line <- lines :: CleanLine(line)
  {
    if lines != [] {
      var init, last := lines[..|lines| - 1], lines[|lines| - 1];
      LinesIssuesEmptyIff(init, name, repr);
      LineIssuesEmptyIff(|lines|, last, name, repr);
      assert lines == init + [last];
      assert (forall line <- lines :: CleanLine(line)) <==> (forall line <- init :: CleanLine(line)) && CleanLine(last);
    }
  }

  lemma FileEntryNoneIff(f: PyFile, name: char -> string, repr: char -> string)
    ensures FileEntry(f, name, repr).None? <==> CleanFile(f)
  {
    if !Skipped(f) && f.content.Decoded? {
      LinesIssuesEmptyIff(SplitLines(f.content.text), name, repr);
    }
  }

  /** The cp1252 check passes iff every file found is clean. */
  lemma {:induction false} UnicodeCheckOkIff(files: seq<PyFile>, name: char -> string, repr: char -> string)
    ensures UnicodeCheck(files, name, repr).Ok? <==> forall f <- files :: CleanFile(f)
  {
    EntriesEmptyIff(files, name, repr);
  }

  lemma {:induction false} EntriesEmptyIff(files: seq<PyFile>, name: char -> string, repr: char -> string)
    ensures Entries(files, name, repr) == [] <==> forall f <- files :: CleanFile(f)
  {
    if files != [] {
      var init := files[..|files| - 1];
      EntriesEmptyIff(init, name, repr);
      FileEntryNoneIff(files[|files| - 1], name, repr);
      assert files == init + [files[|files| - 1]];
    }
  }

  /** Files under skipped directories never affect the outcome. */
  lemma {:induction false} SkippedFilesIgnored(files: seq<PyFile>, g: PyFile, name: char -> string, repr: char -> string)
    requires Skipped(g)
    ensures Entries(files + [g], name, repr) == Entries(files, name, repr)
  {
    assert (files + [g])[..|files + [g]| - 1] == files;
  }

  // ----- the scan, as the level performs it ---------------------------------

  method ScanLine(lineNum: nat, line: string, name: char -> string, repr: char -> string) returns (issues: seq<string>)
    ensures issues == LineIssues(lineNum, line, name, repr)
  {
    issues := [];
    var col := 0;
    while col < |line|
      invariant col <= |line|
      invariant issues == LineIssues(lineNum, line[..col], name, repr)
    {
      assert line[..col + 1][..col] == line[..col];
      if !Cp1252(line[col]) {
        issues := issues + [CharIssue(lineNum, col + 1, line[col], name, repr)];
      }
      col := col + 1;
    }
    assert line[..col] == line;
  }

  method ScanFile(f: PyFile, name: char -> string, repr: char -> string) returns (entry: Option<string>)
    ensures entry == FileEntry(f, name, repr)
  {
    if exists p <- f.parts :: SkippedPart(p) {
      return None;
    }
    if f.content.Undecodable? {
      return Some(RelPath(f) + ": Failed to decode as UTF-8: " + f.content.error);
    }
    var lines := SplitLines(f.content.text);
    var issues := [];
    var n := 0;
    while n < |lines|
      invariant n <= |lines|
      invariant issues == LinesIssues(lines[..n], name, repr)
    {
      assert lines[..n + 1][..n] == lines[..n];
      var li := ScanLine(n + 1, lines[n], name, repr);
      issues := issues + li;
      n := n + 1;
    }
    assert lines[..n] == lines;
    if issues == [] {
      return None;
    }
    return Some(RelPath(f) + ":\n" + Join("\n", issues));
  }

  method CheckUnicodeCharacters(files: seq<PyFile>, name: char -> string, repr: char -> string) returns (r: Outcome<()>)
    ensures r == UnicodeCheck(files, name, repr)
  {
    var entries := [];
    var i := 0;
    while i < |files|
      invariant i <= |files|
      invariant entries == Entries(files[..i], name, repr)
    {
      assert files[..i + 1][..i] == files[..i];
      var e := ScanFile(files[i], name, repr);
      if e.Some? {
        entries := entries + [e.value];
      }
      i := i + 1;
    }
    assert files[..i] == files;
    if entries == [] {
      return Ok(());
    }
    return UnicodeFailure(entries);
  }

  /** `_check_project_structure`: raises iff neither dependency file exists. */
  function CheckProjectStructure(hasPyproject: bool, hasRequirements: bool): (r: Outcome<()>)
    ensures r.Ok? <==> hasPyproject || hasRequirements
    ensures r.Raised? ==> r.RaisedKind(TestErr)
  {
    if !hasPyproject && !hasRequirements then
      Fail(TestErr, "No dependency file found", Text("Expected pyproject.toml or requirements.txt in node directory"))
    else Ok(())
  }

  /** The SYNTAX level: both checks, structure first; the context is returned unchanged. */
  method Run(ctx: LevelContext, hasPyproject: bool, hasRequirements: bool, files: seq<PyFile>,
             name: char -> string, repr: char -> string) returns (r: Outcome<LevelContext>)
    ensures r.Ok? ==> r.value == ctx
    ensures r.Ok? <==> (hasPyproject || hasRequirements) && forall f <- files :: CleanFile(f)
    ensures !hasPyproject && !hasRequirements ==> r == Raised(CheckProjectStructure(false, false).exc)
    ensures (hasPyproject || hasRequirements) && r.Raised? ==> Raised(r.exc) == UnicodeCheck(files, name, repr)
  {
    var s := CheckProjectStructure(hasPyproject, hasRequirements);
    if s.Raised? {
      return Raised(s.exc);
    }
    var u := CheckUnicodeCharacters(files, name, repr);
    UnicodeCheckOkIff(files, name, repr);
    if u.Raised? {
      return Raised(u.exc);
    }
    return Ok(ctx);
  }
}
