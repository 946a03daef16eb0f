/**
 * File-system paths as '/'-separated text, with the parts of `pathlib` the
 * pipeline uses: joining, the final component, the stem and the parts.
 * Paths are taken to be already normalised (no "." or ".." components, no
 * doubled or trailing separators).
 */
module Paths {
  import opened Strings

  type Path = string

  predicate IsAbsolute(p: Path)
  {
    StartsWith(p, "/")
  }

  /** `base / p`: an absolute `p` replaces the base. */
  function JoinPath(base: Path, p: Path): (r: Path)
    ensures IsAbsolute(p) ==> r == p
    ensures !IsAbsolute(p) && base != "" ==> r == base + "/" + p
  {
    if IsAbsolute(p) then p
    else if base == "" then p
    else base + "/" + p
  }

  /** The position just after the last separator (0 when there is none). */
  function NameStart(p: Path): (i: nat)
    ensures i <= |p|
    ensures i > 0 ==> p[i - 1] == '/'
    ensures forall k :: i <= k < |p| ==> p[k] != '/'
  {
    if p == [] then 0
    else if p[|p| - 1] == '/' then |p|
    else NameStart(p[..|p| - 1])
  }

  /** `Path(p).name`: the final component. */
  function Name(p: Path): (r: string)
    ensures '/' !in r
    ensures p == p[..NameStart(p)] + r
  {
    p[NameStart(p)..]
  }

  /** The directory part: everything before the final separator. */
  function Parent(p: Path): Path
  {
    if NameStart(p) == 0 then "" else p[..NameStart(p) - 1]
  }

  /** `Path(p).stem`: the name without its last suffix (a leading dot is not a suffix). */
  function Stem(p: Path): string
  {
    var n := Name(p);
    var i := LastDot(n);
    if i == 0 then n else n[..i]
  }

  /** `s.rfind('.')`: the position of the last '.', or -1 when there is none. */
  function RFindDot(s: string): (i: int)
    ensures -1 <= i < |s|
    ensures i >= 0 ==> s[i] == '.'
    ensures forall k :: i < k < |s| ==> s[k] != '.'
  {
    if s == [] then -1
    else if s[|s| - 1] == '.' then |s| - 1
    else RFindDot(s[..|s| - 1])
  }

  /**
   * Where the name's suffix starts: its last '.', unless that is the first
   * or the final character, in which case there is no suffix (0).
   */
  function LastDot(s: string): (i: nat)
    ensures i == 0 || (0 < i < |s| - 1 && s[i] == '.')
    ensures i > 0 <==> 0 < RFindDot(s) < |s| - 1
    ensures forall k :: i < k < |s| && i > 0 ==> s[k] != '.'
  {
    var j := RFindDot(s);
    if 0 < j < |s| - 1 then j else 0
  }

  /** `Path(p).suffix`: the final component's last suffix, "" when it has none. */
  function Suffix(p: Path): string
  {
    var n := Name(p);
    var i := LastDot(n);
    if i == 0 then "" else n[i..]
  }

  /**
   * The stem followed by the suffix is the name. A suffix is a '.' with at
   * least one character after it and no other '.'; a name ending in '.' is
   * all stem.
   */
  lemma StemSuffixName(p: Path)
    ensures Stem(p) + Suffix(p) == Name(p)
    ensures Suffix(p) != "" ==> |Suffix(p)| >= 2 && Suffix(p)[0] == '.' && '.' !in Suffix(p)[1..]
    ensures Name(p) != "" && Name(p)[|Name(p)| - 1] == '.' ==> Stem(p) == Name(p) && Suffix(p) == ""
  {
    var n := Name(p);
    var i := LastDot(n);
    if i > 0 {
      assert n[..i] + n[i..] == n;
      assert forall k :: 0 <= k < |n[i..]| - 1 ==> n[i..][1..][k] == n[i + 1 + k];
    }
  }

  /** `Path(p).parts` for a relative path: the non-empty components, in order. */
  function Parts(p: Path): (r: seq<string>)
    ensures forall c <- r :: c != "" && '/' !in c
  {
    NonEmpty(Split(p, '/'))
  }

  function NonEmpty(xs: seq<string>): (r: seq<string>)
    ensures forall c <- r :: c in xs && c != ""
  {
    if xs == [] then []
    else (if xs[0] == "" then [] else [xs[0]]) + NonEmpty(xs[1..])
  }

  /** Appending a plain file name to a directory makes it the path's name. */
  lemma JoinPathName(base: Path, n: string)
    requires n != [] && '/' !in n
    ensures Name(JoinPath(base, n)) == n
  {
    var r := JoinPath(base, n);
    if base != [] && !IsAbsolute(n) {
      assert r == (base + "/") + n;
      NameOfSuffix(base + "/", n);
    } else {
      NameOfSuffix([], n);
    }
  }

  lemma {:induction false} NameOfSuffix(a: Path, n: string)
    requires '/' !in n && (a == [] || a[|a| - 1] == '/')
    ensures Name(a + n) == n
    decreases |n|
  {
    if n == [] {
      assert a + n == a;
    } else {
      var p := a + n;
      assert p[..|p| - 1] == a + n[..|n| - 1];
      assert n[|n| - 1] in n;
      NameOfSuffix(a, n[..|n| - 1]);
    }
  }

  lemma {:induction false} NonEmptyConcat(xs: seq<string>, ys: seq<string>)
    ensures NonEmpty(xs + ys) == NonEmpty(xs) + NonEmpty(ys)
  {
    if xs == [] {
      assert xs + ys == ys;
    } else {
      assert (xs + ys)[0] == xs[0] && (xs + ys)[1..] == xs[1..] + ys;
      NonEmptyConcat(xs[1..], ys);
    }
  }

  /** The parts of `a/b` are the parts of `a` followed by those of `b`. */
  lemma PartsJoin(a: Path, b: Path)
    ensures Parts(a + "/" + b) == Parts(a) + Parts(b)
  {
    SplitConcat(a, b, '/');
    NonEmptyConcat(Split(a, '/'), Split(b, '/'));
  }

  /** A name without a separator is its own single part (when not empty). */
  lemma PartsOfName(n: string)
    requires n != "" && '/' !in n
    ensures Parts(n) == [n]
  {
    assert IndexOfChar(n, '/') == |n|;
    assert Split(n, '/') == [n];
    assert [n][1..] == [];
    assert NonEmpty([n]) == [n] + NonEmpty([]);
  }
}
