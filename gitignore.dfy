/**
 * The `.gitignore` reading shared by the local and the VM runners: every
 * line that is neither blank nor a comment becomes a pattern, with its
 * trailing '/' characters removed so that it matches files and directories
 * alike. Patterns are matched with `fnmatch`, which is an input.
 */
module Gitignore {
  import opened Base
  import opened Strings

  /** The pattern a line gives: none for a blank line or a comment. */
  function LinePattern(line: string): Option<string>
  {
    var t := Strip(line);
    if t == "" || StartsWith(t, "#") then None else Some(RStripChar(t, '/'))
  }

  /** The patterns of `lines`, in file order. */
  function Patterns(lines: seq<string>): seq<string>
  {
    if lines == [] then []
    else
      var init := Patterns(lines[..|lines| - 1]);
      match LinePattern(lines[|lines| - 1])
      case None => init
      case Some(p) => init + [p]
  }

  /** `_parse_gitignore`: no file means no patterns. */
  function ParseGitignore(content: Option<string>): seq<string>
  {
    if content.None? then [] else Patterns(SplitLines(content.value))
  }

  /**
   * A pattern comes from a non-blank, non-comment line and every such line
   * gives one; no pattern ends with '/' or starts with '#'.
   */
  lemma {:induction false} PatternsSpec(lines: seq<string>)
    ensures forall p :: p in Patterns(lines) <==> exists l <- lines :: LinePattern(l) == Some(p)
    ensures forall p <- Patterns(lines) :: !EndsWith(p, "/") && !StartsWith(p, "#")
  {
    if lines != [] {
      var init := lines[..|lines| - 1];
      var last := lines[|lines| - 1];
      PatternsSpec(init);
      assert forall l :: l in lines <==> l in init || l == last;
      var t := Strip(last);
      if t != "" && !StartsWith(t, "#") {
        var p := RStripChar(t, '/');
        assert p != [] ==> p[0] == t[0];
      }
    }
  }

  /** One line of the loop: strip it, pass over blanks and comments, drop trailing '/'. */
  method ReadLine(line: string) returns (pattern: Option<string>)
    ensures pattern == LinePattern(line)
  {
    var t := Strip(line);
    if t == "" || StartsWith(t, "#") {
      return None;
    }
    pattern := Some(RStripChar(t, '/'));
  }

  /** The reading loop over the file's lines. */
  method ReadLines(lines: seq<string>) returns (patterns: seq<string>)
    ensures patterns == Patterns(lines)
  {
    patterns := [];
    var i := 0;
    while i < |lines|
      invariant i <= |lines|
      invariant patterns == Patterns(lines[..i])
    {
      assert lines[..i + 1][..i] == lines[..i];
      var pattern := ReadLine(lines[i]);
      if pattern.Some? {
        patterns := patterns + [pattern.value];
      }
      i := i + 1;
    }
    assert lines[..i] == lines;
  }

  /** `_parse_gitignore`, given the file's text when it exists. */
  method ReadPatterns(content: Option<string>) returns (patterns: seq<string>)
    ensures patterns == ParseGitignore(content)
  {
    if content.None? {
      return [];
    }
    patterns := ReadLines(SplitLines(content.value));
  }
}
