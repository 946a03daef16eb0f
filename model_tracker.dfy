/**
 * The models report: after a run, the files under ComfyUI's `models/`
 * directory are grouped by their top-level folder, placeholders and
 * download metadata are filtered out, each folder's download source is
 * inferred from Hugging Face cache names, and sizes are totalled.
 *
 * The directory walk is an input: the files it yields, in walk order, each
 * with its path relative to the models directory, whether it is a symlink
 * and its size (None when `stat` fails). Human-readable sizes are left out.
 */
module ModelTracker {
  import opened Base
  import opened Strings
  import opened Paths
  import opened Sorting

  // ----- the file filter ---------------------------------------------------------------

  /** Top-level folders that ship with ComfyUI and are never reported. */
  const SkipDirs: set<string> := {"configs"}

  const PlaceholderPrefix := "put_"

  /**
   * `_should_skip_file`: placeholders (`put_*`), lock files, anything under a
   * `.locks` directory and Hugging Face `refs` entries.
   */
  predicate ShouldSkipFile(relPath: Path)
  {
    var name := Name(relPath);
    || StartsWith(name, PlaceholderPrefix)
    || EndsWith(name, ".lock")
    || Contains("/" + relPath, "/.locks/") || StartsWith(relPath, ".locks/")
    || Contains("/" + relPath, "/refs/") || StartsWith(relPath, "refs/")
  }

  /** The directories a relative path passes through: every component but the last. */
  function DirComponents(relPath: Path): (ds: seq<string>)
    ensures forall d <- ds :: '/' !in d
  {
    var parts := Split(relPath, '/');
    parts[..|parts| - 1]
  }

  /**
   * The filter in terms of components: a file is skipped iff its name is a
   * placeholder or a lock file, or it lies under a directory named `.locks`
   * or `refs` at any depth.
   */
  lemma ShouldSkipFileIff(relPath: Path)
    ensures ShouldSkipFile(relPath) <==>
      || StartsWith(Name(relPath), PlaceholderPrefix)
      || EndsWith(Name(relPath), ".lock")
      || ".locks" in DirComponents(relPath)
      || "refs" in DirComponents(relPath)
  {
    assert "/" + ".locks" + "/" == "/.locks/" && ".locks" + "/" == ".locks/";
    assert "/" + "refs" + "/" == "/refs/" && "refs" + "/" == "refs/";
    ContainsDirIff(relPath, ".locks");
    ContainsDirIff(relPath, "refs");
    StartsWithDir(relPath, ".locks");
    StartsWithDir(relPath, "refs");
  }

  /** `s` starting with `d + "/"` means `"/" + s` contains `"/" + d + "/"`. */
  lemma StartsWithDir(s: string, d: string)
    ensures StartsWith(s, d + "/") ==> Contains("/" + s, "/" + d + "/")
  {
    if StartsWith(s, d + "/") {
      assert ("/" + s)[1..] == s;
      assert StartsWith(s, "/" + d + "/") || StartsWith(s, d + "/");
      ContainsOfTail("/" + s, "/" + d + "/");
      assert ("/" + s)[..|d| + 2] == "/" + s[..|d| + 1];
    }
  }

  lemma ContainsOfTail(s: string, pat: string)
    requires s != []
    ensures Contains(s[1..], pat) ==> Contains(s, pat)
  {
  }

  /** Dropping the last element of a non-empty list after a head keeps the head. */
  lemma DropLastCons<T>(x: T, t: seq<T>)
    requires t != []
    ensures ([x] + t)[..|t|] == [x] + t[..|t| - 1]
  {
  }

  /** Cutting a path at its first `/`: the part before it is the first directory component. */
  lemma FirstComponent(relPath: Path, i: nat)
    requires i == IndexOfChar(relPath, '/') && i < |relPath|
    ensures DirComponents(relPath) == [relPath[..i]] + DirComponents(relPath[i + 1..])
  {
    var p, tail := relPath[..i], Split(relPath[i + 1..], '/');
    var parts := Split(relPath, '/');
    assert parts == [p] + tail by {
      assert IndexOfChar(relPath, '/') == i;
    }
    assert |parts| - 1 == |tail|;
    DropLastCons(p, tail);
    assert DirComponents(relPath) == parts[..|parts| - 1];
  }

  /** `"/" + d + "/"` occurs in `"/" + relPath` iff `d` is one of the path's directories. */
  lemma {:induction false} ContainsDirIff(relPath: Path, d: string)
    requires '/' !in d
    ensures Contains("/" + relPath, "/" + d + "/") <==> d in DirComponents(relPath)
    decreases |relPath|
  {
    var i := IndexOfChar(relPath, '/');
    if i == |relPath| {
      var s := "/" + relPath;
      assert s[1..] == relPath;
      assert '/' !in relPath;
      assert Split(relPath, '/') == [relPath];
      NoSlashNoDir(s, d);
    } else {
      var p, rest := relPath[..i], relPath[i + 1..];
      assert '/' !in p;
      assert relPath == p + "/" + rest;
      assert "/" + relPath == "/" + p + "/" + rest;
      FirstComponent(relPath, i);
      ContainsDirIff(rest, d);
      ContainsDirStep(p, rest, d);
    }
  }

  /** Past the first directory `p`, the search goes on in the rest of the path. */
  lemma ContainsDirStep(p: string, rest: string, d: string)
    requires '/' !in p && '/' !in d
    requires Contains("/" + rest, "/" + d + "/") <==> d in DirComponents(rest)
    ensures Contains("/" + p + "/" + rest, "/" + d + "/") <==> d in [p] + DirComponents(rest)
  {
    var pat := "/" + d + "/";
    var s := "/" + p + "/" + rest;
    assert s[1..] == p + "/" + rest;
    LeadingComponent(p, rest, d);
    SkipComponent(p, rest, pat);
    assert Contains(s, pat) <==> StartsWith(s, pat) || Contains(s[1..], pat);
  }

  /** Text with a single '/' at its start cannot hold `"/" + d + "/"`. */
  lemma NoSlashNoDir(s: string, d: string)
    requires s != [] && s[0] == '/' && '/' !in s[1..]
    ensures !Contains(s, "/" + d + "/")
  {
    var pat := "/" + d + "/";
    if |pat| <= |s| {
      var k := |pat| - 1;
      assert s[1..][k - 1] == s[k] && pat[k] == '/';
    }
    NoSlashNoMatch(s[1..], pat);
  }

  /** Text without '/' holds no pattern that starts with '/'. */
  lemma {:induction false} NoSlashNoMatch(s: string, pat: string)
    requires '/' !in s && pat != [] && pat[0] == '/'
    ensures !Contains(s, pat)
    decreases |s|
  {
    if s != [] {
      assert s[0] in s;
      NoSlashNoMatch(s[1..], pat);
    }
  }

  /** The pattern sits at the front of `"/" + p + "/" + rest` iff `p` is `d`. */
  lemma LeadingComponent(p: string, rest: string, d: string)
    requires '/' !in p && '/' !in d
    ensures StartsWith("/" + p + "/" + rest, "/" + d + "/") <==> p == d
  {
    var s := "/" + p + "/" + rest;
    var pat := "/" + d + "/";
    if |p| < |d| {
      assert s[|p| + 1] == '/' && pat[|p| + 1] == d[|p|] && d[|p|] in d;
    } else if |p| > |d| {
      assert s[|d| + 1] == p[|d|] && pat[|d| + 1] == '/' && p[|d|] in p;
    } else {
      assert s[1..|d| + 1] == p && pat[1..|d| + 1] == d;
      assert s == pat + rest ==> s[..|pat|] == pat;
    }
  }

  /** A match cannot start inside a component: `p` has no '/' and the pattern starts with one. */
  lemma {:induction false} SkipComponent(p: string, rest: string, pat: string)
    requires '/' !in p && pat != [] && pat[0] == '/'
    ensures Contains(p + "/" + rest, pat) <==> Contains("/" + rest, pat)
    decreases |p|
  {
    if p != [] {
      assert p[0] in p;
      assert (p + "/" + rest)[1..] == p[1..] + "/" + rest;
      SkipComponent(p[1..], rest, pat);
    } else {
      assert p + "/" + rest == "/" + rest;
    }
  }

  // ----- the download source -----------------------------------------------------------

  /** Where a folder's files came from, as far as their paths tell. */
  datatype Source = HuggingFace(org: string, repo: string) | Unknown
  {
    /** The `repo` entry: "org/repo". */
    function RepoName(): string
      requires HuggingFace?
    {
      org + "/" + repo
    }

    /** The `url` entry. */
    function Url(): string
      requires HuggingFace?
    {
      "https://huggingface.co/" + org + "/" + repo
    }
  }

  /** The first position at which `pat` occurs in `s`, or `|s|`. */
  function IndexOfSub(s: string, pat: string): (i: nat)
    ensures i <= |s|
    ensures i < |s| ==> StartsWith(s[i..], pat)
    ensures forall k :: 0 <= k < i ==> !StartsWith(s[k..], pat)
  {
    if s == [] then 0
    else if StartsWith(s, pat) then 0
    else
      var j := IndexOfSub(s[1..], pat);
      assert forall k :: 1 <= k <= |s| ==> s[k..] == s[1..][k - 1..];
      1 + j
  }

  const CachePrefix := "models--"

  /**
   * `part.split("--", 2)` for a `models--...` cache folder name: the
   * organisation and repository when it has three segments. The first "--"
   * is the one in the prefix, so the organisation runs to the next "--" and
   * the repository is everything after it.
   */
  function CacheRepo(part: string): Option<(string, string)>
  {
    if !StartsWith(part, CachePrefix) then None
    else
      var rest := part[|CachePrefix|..];
      var i := IndexOfSub(rest, "--");
      if i == |rest| then None else Some((rest[..i], rest[i + 2..]))
  }

  /** The cache name of an organisation without '-' gives that organisation and the repository back. */
  lemma CacheRepoRoundTrip(org: string, repo: string)
    requires '-' !in org
    ensures CacheRepo(CachePrefix + org + "--" + repo) == Some((org, repo))
  {
    var part := CachePrefix + org + "--" + repo;
    var rest := org + "--" + repo;
    assert part[..|CachePrefix|] == CachePrefix;
    assert part[|CachePrefix|..] == rest;
    forall k | 0 <= k < |org|
      ensures !StartsWith(rest[k..], "--")
    {
      assert rest[k] == org[k] && org[k] in org;
    }
    assert StartsWith(rest[|org|..], "--");
    var i := IndexOfSub(rest, "--");
    assert i == |org|;
    assert rest[..i] == org && rest[i + 2..] == repo;
  }

  /** The repository named by the first cache folder among a path's parts. */
  function PartsSource(parts: seq<string>): Option<(string, string)>
  {
    if parts == [] then None
    else if CacheRepo(parts[0]).Some? then CacheRepo(parts[0])
    else PartsSource(parts[1..])
  }

  /**
   * `_infer_source`: the first file (in the order given) with a
   * `models--ORG--REPO` part names the source; otherwise it is unknown.
   */
  function InferSource(files: seq<Path>): Source
  {
    if files == [] then Unknown
    else
      match PartsSource(Parts(files[0]))
      case Some((org, repo)) => HuggingFace(org, repo)
      case None => InferSource(files[1..])
  }

  lemma {:induction false} PartsSourceNone(parts: seq<string>)
    ensures PartsSource(parts).None? <==> forall p <- parts :: CacheRepo(p).None?
    ensures PartsSource(parts).Some? ==> exists p <- parts :: CacheRepo(p) == PartsSource(parts)
  {
    if parts != [] {
      PartsSourceNone(parts[1..]);
      assert forall p <- parts :: p == parts[0] || p in parts[1..];
      assert parts[0] in parts;
    }
  }

  /**
   * The source is unknown iff no part of any path is a three-segment cache
   * name; otherwise it is the one named by the first path that has one.
   */
  lemma {:induction false} InferSourceSpec(files: seq<Path>)
    ensures InferSource(files).Unknown? <==> forall f <- files, p <- Parts(f) :: CacheRepo(p).None?
    ensures InferSource(files).HuggingFace? ==>
      exists i :: 0 <= i < |files|
        && (forall j :: 0 <= j < i ==> PartsSource(Parts(files[j])).None?)
        && PartsSource(Parts(files[i])) == Some((InferSource(files).org, InferSource(files).repo))
  {
    if files != [] {
      InferSourceSpec(files[1..]);
      PartsSourceNone(Parts(files[0]));
      assert forall f <- files :: f == files[0] || f in files[1..];
      assert files[0] in files;
      if PartsSource(Parts(files[0])).None? && InferSource(files).HuggingFace? {
        var i :| 0 <= i < |files[1..]|
          && (forall j :: 0 <= j < i ==> PartsSource(Parts(files[1..][j])).None?)
          && PartsSource(Parts(files[1..][i])) == Some((InferSource(files).org, InferSource(files).repo));
        assert forall j :: 0 <= j < i + 1 ==> PartsSource(Parts(files[j])).None? by {
          forall j | 0 <= j < i + 1 ensures PartsSource(Parts(files[j])).None? {
            if j > 0 { assert files[j] == files[1..][j - 1]; }
          }
        }
        assert files[i + 1] == files[1..][i];
      }
    }
  }

  // ----- sums --------------------------------------------------------------------------

  /** `sum(f(x) for x in xs)`. */
  function SumOf<T>(xs: seq<T>, f: T -> int): int
  {
    if xs == [] then 0 else f(xs[0]) + SumOf(xs[1..], f)
  }

  lemma {:induction false} SumOfAppend<T>(xs: seq<T>, x: T, f: T -> int)
    ensures SumOf(xs + [x], f) == SumOf(xs, f) + f(x)
  {
    if xs != [] {
      assert (xs + [x])[1..] == xs[1..] + [x];
      SumOfAppend(xs[1..], x, f);
    }
  }

  lemma {:induction false} SumOfConcat<T>(xs: seq<T>, ys: seq<T>, f: T -> int)
    ensures SumOf(xs + ys, f) == SumOf(xs, f) + SumOf(ys, f)
  {
    if xs != [] {
      assert (xs + ys)[1..] == xs[1..] + ys && (xs + ys)[0] == xs[0];
      SumOfConcat(xs[1..], ys, f);
    } else {
      assert xs + ys == ys;
    }
  }

  /** Taking out the element at `i` takes its term out of the sum. */
  lemma SumOfRemove<T>(xs: seq<T>, i: nat, f: T -> int)
    requires i < |xs|
    ensures SumOf(xs, f) == f(xs[i]) + SumOf(xs[..i] + xs[i + 1..], f)
  {
    var before, after := xs[..i], xs[i + 1..];
    var rest := [xs[i]] + after;
    assert xs == before + rest;
    assert rest[1..] == after;
    SumOfConcat(before, rest, f);
    SumOfConcat(before, after, f);
  }

  /** A sum does not depend on the order of its terms. */
  lemma {:induction false} SumOfPermutation<T>(xs: seq<T>, ys: seq<T>, f: T -> int)
    requires multiset(xs) == multiset(ys)
    ensures SumOf(xs, f) == SumOf(ys, f)
    decreases |xs|
  {
    if xs != [] {
      assert xs[0] in multiset(ys);
      var i :| 0 <= i < |ys| && ys[i] == xs[0];
      var rest := ys[..i] + ys[i + 1..];
      assert ys == ys[..i] + [ys[i]] + ys[i + 1..];
      assert xs == [xs[0]] + xs[1..];
      assert multiset(ys) == multiset(ys[..i]) + multiset{ys[i]} + multiset(ys[i + 1..]);
      assert multiset(rest) == multiset(ys[..i]) + multiset(ys[i + 1..]);
      assert multiset(xs) == multiset{xs[0]} + multiset(xs[1..]);
      assert multiset(xs[1..]) == multiset(xs) - multiset{xs[0]};
      assert multiset(rest) == multiset(ys) - multiset{ys[i]};
      SumOfRemove(ys, i, f);
      SumOfPermutation(xs[1..], rest, f);
    } else {
      assert |ys| == |multiset(ys)| == 0;
    }
  }

  /** Terms that agree on `xs` give the same sum. */
  lemma {:induction false} SumOfAgree<T>(xs: seq<T>, f: T -> int, g: T -> int)
    requires forall x <- xs :: f(x) == g(x)
    ensures SumOf(xs, f) == SumOf(xs, g)
  {
    if xs != [] {
      assert xs[0] in xs;
      SumOfAgree(xs[1..], f, g);
    }
  }

  predicate Distinct<T(==)>(xs: seq<T>)
  {
    forall i, j :: 0 <= i < j < |xs| ==> xs[i] != xs[j]
  }

  /** Raising one term of a sum over distinct keys by `d` raises the sum by `d`. */
  lemma {:induction false} SumOfBump<T>(xs: seq<T>, f: T -> int, g: T -> int, t: T, d: int)
    requires Distinct(xs) && t in xs
    requires forall x <- xs :: g(x) == f(x) + (if x == t then d else 0)
    ensures SumOf(xs, g) == SumOf(xs, f) + d
  {
    assert xs[0] in xs;
    if xs[0] == t {
      assert t !in xs[1..] by {
        forall j | 0 <= j < |xs[1..]| ensures xs[1..][j] != t { assert xs[1..][j] == xs[j + 1]; }
      }
      SumOfAgree(xs[1..], f, g);
    } else {
      assert t in xs[1..] by { var j :| 0 <= j < |xs| && xs[j] == t; assert xs[1..][j - 1] == t; }
      assert Distinct(xs[1..]) by {
        forall i, j | 0 <= i < j < |xs[1..]| ensures xs[1..][i] != xs[1..][j] {
          assert xs[1..][i] == xs[i + 1] && xs[1..][j] == xs[j + 1];
        }
      }
      SumOfBump(xs[1..], f, g, t, d);
    }
  }

  /** A permutation of a distinct sequence is distinct. */
  lemma DistinctPermutation<T>(xs: seq<T>, ys: seq<T>)
    requires Distinct(xs) && multiset(xs) == multiset(ys)
    ensures Distinct(ys)
  {
    forall i, j | 0 <= i < j < |ys|
      ensures ys[i] != ys[j]
    {
      if ys[i] == ys[j] {
        assert ys == ys[..i] + [ys[i]] + ys[i + 1..j] + [ys[j]] + ys[j + 1..];
        assert multiset(ys)[ys[i]] >= 2;
        DistinctCount(xs, ys[i]);
        assert false;
      }
    }
  }

  /** In a distinct sequence every element occurs at most once. */
  lemma {:induction false} DistinctCount<T>(xs: seq<T>, x: T)
    requires Distinct(xs)
    ensures multiset(xs)[x] <= 1
  {
    if xs != [] {
      assert xs == [xs[0]] + xs[1..];
      assert Distinct(xs[1..]) by {
        forall i, j | 0 <= i < j < |xs[1..]| ensures xs[1..][i] != xs[1..][j] {
          assert xs[1..][i] == xs[i + 1] && xs[1..][j] == xs[j + 1];
        }
      }
      DistinctCount(xs[1..], x);
      if xs[0] == x {
        assert x !in xs[1..] by {
          forall j | 0 <= j < |xs[1..]| ensures xs[1..][j] != x { assert xs[1..][j] == xs[j + 1]; }
        }
      }
    }
  }

  // ----- the report --------------------------------------------------------------------

  /** One file of the walk: its path relative to the models directory, and what `stat` gave. */
  datatype WalkFile = WalkFile(relPath: Path, isSymlink: bool, size: Option<nat>)

  /** A reported file: its path relative to its top-level folder, and its size. */
  datatype FileRecord = FileRecord(path: string, sizeBytes: nat)

  datatype FolderReport = FolderReport(name: string, totalSizeBytes: int, source: Source, files: seq<FileRecord>)

  datatype ModelsReport = ModelsReport(modelsDir: Path, totalFiles: int, totalSizeBytes: int, folders: seq<FolderReport>)

  /**
   * The folder and record a walked file contributes, if it is reported: not
   * a symlink, inside a subdirectory, not under a skipped folder, not a
   * filtered name, and `stat` succeeded.
   */
  function Kept(f: WalkFile): Option<(string, FileRecord)>
  {
    var parts := Parts(f.relPath);
    if f.isSymlink || |parts| < 2 || parts[0] in SkipDirs || ShouldSkipFile(f.relPath) || f.size.None? then None
    else Some((parts[0], FileRecord(Join("/", parts[1..]), f.size.value)))
  }

  /** What each walked file contributes, in walk order. */
  function Entries(walk: seq<WalkFile>): (es: seq<Entry>)
    ensures |es| == |walk| && forall i :: 0 <= i < |walk| ==> es[i] == Kept(walk[i])
  {
    seq(|walk|, i requires 0 <= i < |walk| => Kept(walk[i]))
  }

  type Entry = Option<(string, FileRecord)>

  /** The reported records, in walk order. */
  function KeptRecords(es: seq<Entry>): seq<FileRecord>
  {
    if es == [] then []
    else
      var init := KeptRecords(es[..|es| - 1]);
      match es[|es| - 1]
      case None => init
      case Some(e) => init + [e.1]
  }

  /** The reported records of folder `k`, in walk order. */
  function FolderFiles(es: seq<Entry>, k: string): seq<FileRecord>
  {
    if es == [] then []
    else
      var init := FolderFiles(es[..|es| - 1], k);
      match es[|es| - 1]
      case None => init
      case Some(e) => if e.0 == k then init + [e.1] else init
  }

  /** `folder_data`: its keys in insertion order, and the record list of each. */
  datatype Groups = Groups(keys: seq<string>, files: map<string, seq<FileRecord>>)

  /** Appending a record to its folder's list, creating the list first if needed. */
  function AddFile(g: Groups, top: string, r: FileRecord): Groups
  {
    if top in g.files then Groups(g.keys, g.files[top := g.files[top] + [r]])
    else Groups(g.keys + [top], g.files[top := [r]])
  }

  /** The first loop of `build_models_report`: the reported files grouped by top-level folder. */
  function Group(es: seq<Entry>): Groups
  {
    if es == [] then Groups([], map[])
    else
      var g := Group(es[..|es| - 1]);
      match es[|es| - 1]
      case None => g
      case Some(e) => AddFile(g, e.0, e.1)
  }

  function RecordSize(r: FileRecord): int { r.sizeBytes }

  function SizeSum(rs: seq<FileRecord>): int
  {
    SumOf(rs, RecordSize)
  }

  /** The sort key: larger files first. */
  predicate BySizeDesc(a: FileRecord, b: FileRecord)
  {
    a.sizeBytes >= b.sizeBytes
  }

  function PathsOf(rs: seq<FileRecord>): (ps: seq<string>)
    ensures |ps| == |rs| && forall i :: 0 <= i < |rs| ==> ps[i] == rs[i].path
  {
    seq(|rs|, i requires 0 <= i < |rs| => rs[i].path)
  }

  /** One folder's entry: its records sorted by size (descending, stable), their total and the inferred source. */
  function FolderOf(name: string, list: seq<FileRecord>): FolderReport
  {
    var sorted := SortBy(list, BySizeDesc);
    FolderReport(name, SizeSum(sorted), InferSource(PathsOf(sorted)), sorted)
  }

  /** The second loop: one entry per folder name in the order given, skipping empty lists. */
  function Folders(names: seq<string>, files: map<string, seq<FileRecord>>): seq<FolderReport>
  {
    if names == [] then []
    else
      var init := Folders(names[..|names| - 1], files);
      var name := names[|names| - 1];
      var list := if name in files then files[name] else [];
      if list == [] then init else init + [FolderOf(name, list)]
  }

  function FileCount(f: FolderReport): int { |f.files| }

  function FolderSize(f: FolderReport): int { f.totalSizeBytes }

  /** The folder entries built from the grouped entries `es`. */
  function FoldersOf(es: seq<Entry>): seq<FolderReport>
  {
    Folders(SortStrings(Group(es).keys), Group(es).files)
  }

  /**
   * `build_models_report`: nothing for a missing directory; otherwise the
   * folders in sorted name order and the totals over them.
   */
  function ReportOf(modelsDir: Path, dirExists: bool, walk: seq<WalkFile>): ModelsReport
  {
    if !dirExists then ModelsReport(modelsDir, 0, 0, [])
    else
      var fs := FoldersOf(Entries(walk));
      ModelsReport(modelsDir, SumOf(fs, FileCount), SumOf(fs, FolderSize), fs)
  }

  // ----- properties of the report -------------------------------------------------------

  function CountFn(es: seq<Entry>): string -> int
  {
    k => |FolderFiles(es, k)|
  }

  function SizeFn(es: seq<Entry>): string -> int
  {
    k => SizeSum(FolderFiles(es, k))
  }

  /** What grouping the walk gives: one distinct key per non-empty folder, holding that folder's records. */
  ghost predicate GroupsOf(g: Groups, es: seq<Entry>)
  {
    && Distinct(g.keys)
    && (forall k :: k in g.files <==> k in g.keys)
    && (forall k :: FolderFiles(es, k) == (if k in g.files then g.files[k] else []))
    && (forall k <- g.keys :: g.files[k] != [])
  }

  /**
   * Grouping loses and invents nothing: the keys are exactly the folders
   * with reported files, without repeats, and each list is that folder's
   * records in walk order.
   */
  lemma {:induction false} GroupShape(es: seq<Entry>)
    ensures GroupsOf(Group(es), es)
  {
    if es != [] {
      var init := es[..|es| - 1];
      GroupShape(init);
      assert es == init + [es[|es| - 1]];
      match es[|es| - 1]
      case None =>
        GroupsOfSkip(Group(init), init);
      case Some(e) =>
        GroupsOfAdd(Group(init), init, e.0, e.1);
    }
  }

  /** A walk entry that reports nothing leaves the grouping as it is. */
  lemma GroupsOfSkip(g: Groups, init: seq<Entry>)
    requires GroupsOf(g, init)
    ensures GroupsOf(g, init + [None])
  {
    var es := init + [None];
    assert es[..|es| - 1] == init;
    forall k
      ensures FolderFiles(es, k) == FolderFiles(init, k)
    {
    }
  }

  /** A reported file joins its folder's list, which is created when it is the folder's first. */
  lemma GroupsOfAdd(g: Groups, init: seq<Entry>, top: string, r: FileRecord)
    requires GroupsOf(g, init)
    ensures GroupsOf(AddFile(g, top, r), init + [Some((top, r))])
  {
    var es := init + [Some((top, r))];
    assert es[..|es| - 1] == init;
    var g' := AddFile(g, top, r);
    forall k
      ensures FolderFiles(es, k) == (if k in g'.files then g'.files[k] else [])
    {
      assert FolderFiles(es, k) == FolderFiles(init, k) + (if k == top then [r] else []);
    }
    assert forall k :: k in g'.files <==> k in g'.keys;
    assert forall k <- g'.keys :: g'.files[k] != [];
    if top !in g.files {
      forall i, j | 0 <= i < j < |g'.keys|
        ensures g'.keys[i] != g'.keys[j]
      {
        if j == |g.keys| {
          assert g.keys[i] in g.keys;
        }
      }
    }
  }

  /** A folder's total of the weight `w` over its records. */
  function WeightFn(es: seq<Entry>, w: FileRecord -> int): string -> int
  {
    k => SumOf(FolderFiles(es, k), w)
  }

  /** Summed over the groups, any weight of the records adds up to its sum over the whole walk. */
  lemma {:induction false} GroupWeights(es: seq<Entry>, w: FileRecord -> int)
    ensures SumOf(Group(es).keys, WeightFn(es, w)) == SumOf(KeptRecords(es), w)
  {
    if es != [] {
      var init := es[..|es| - 1];
      GroupWeights(init, w);
      GroupShape(init);
      var g := Group(init);
      if es[|es| - 1].None? {
        SumOfAgree(g.keys, WeightFn(init, w), WeightFn(es, w));
      } else {
        var (top, r) := es[|es| - 1].value;
        assert KeptRecords(es) == KeptRecords(init) + [r];
        SumOfAppend(KeptRecords(init), r, w);
        forall k
          ensures WeightFn(es, w)(k) == WeightFn(init, w)(k) + (if k == top then w(r) else 0)
        {
          assert FolderFiles(es, k) == FolderFiles(init, k) + (if k == top then [r] else []);
          SumOfAppend(FolderFiles(init, k), r, w);
        }
        if top in g.files {
          SumOfBump(g.keys, WeightFn(init, w), WeightFn(es, w), top, w(r));
        } else {
          assert FolderFiles(init, top) == [];
          SumOfAgree(g.keys, WeightFn(init, w), WeightFn(es, w));
          SumOfAppend(g.keys, top, WeightFn(es, w));
        }
      }
    }
  }

  function One(r: FileRecord): int { 1 }

  lemma {:induction false} SumOfOne(rs: seq<FileRecord>)
    ensures SumOf(rs, One) == |rs|
  {
    if rs != [] {
      SumOfOne(rs[1..]);
    }
  }

  /** The lists together hold as many files and bytes as the walk reports. */
  lemma GroupSums(es: seq<Entry>)
    ensures SumOf(Group(es).keys, CountFn(es)) == |KeptRecords(es)|
    ensures SumOf(Group(es).keys, SizeFn(es)) == SizeSum(KeptRecords(es))
  {
    GroupWeights(es, One);
    GroupWeights(es, RecordSize);
    SumOfOne(KeptRecords(es));
    forall k ensures CountFn(es)(k) == WeightFn(es, One)(k) {
      SumOfOne(FolderFiles(es, k));
    }
    SumOfAgree(Group(es).keys, CountFn(es), WeightFn(es, One));
    SumOfAgree(Group(es).keys, SizeFn(es), WeightFn(es, RecordSize));
  }

  /** Over names that all have non-empty lists, each name gives exactly one folder entry. */
  lemma {:induction false} FoldersSpec(names: seq<string>, files: map<string, seq<FileRecord>>)
    requires forall n <- names :: n in files && files[n] != []
    ensures |Folders(names, files)| == |names|
    ensures forall i :: 0 <= i < |names| ==> Folders(names, files)[i] == FolderOf(names[i], files[names[i]])
  {
    if names != [] {
      var init := names[..|names| - 1];
      assert forall n <- init :: n in names;
      FoldersSpec(init, files);
      var last := names[|names| - 1];
      assert last in names;
      var fs := Folders(names, files);
      assert fs == Folders(init, files) + [FolderOf(last, files[last])];
      forall i | 0 <= i < |names|
        ensures fs[i] == FolderOf(names[i], files[names[i]])
      {
        if i < |init| {
          assert fs[i] == Folders(init, files)[i] && init[i] == names[i];
        }
      }
    }
  }

  lemma BySizeDescTotal()
    ensures TotalPreorder(BySizeDesc)
  {
  }

  /** A folder entry holds its list sorted by size, as a permutation, with its total and source. */
  lemma FolderOfSpec(name: string, list: seq<FileRecord>)
    ensures var f := FolderOf(name, list);
      && f.name == name
      && SortedBy(f.files, BySizeDesc)
      && multiset(f.files) == multiset(list)
      && f.totalSizeBytes == SizeSum(list)
      && f.source == InferSource(PathsOf(f.files))
  {
    BySizeDescTotal();
    SortBySorted(list, BySizeDesc);
    SumOfPermutation(SortBy(list, BySizeDesc), list, RecordSize);
  }

  /** Sums over entries that match names one to one are sums over the names. */
  lemma {:induction false} SumOfMatched<T, U>(xs: seq<T>, ys: seq<U>, f: T -> int, g: U -> int)
    requires |xs| == |ys| && forall i :: 0 <= i < |xs| ==> f(xs[i]) == g(ys[i])
    ensures SumOf(xs, f) == SumOf(ys, g)
  {
    if xs != [] {
      SumOfMatched(xs[1..], ys[1..], f, g);
    }
  }

  /** The sorted names are the group keys, and each entry is built from its key's list. */
  lemma FoldersOfNames(es: seq<Entry>)
    ensures var g := Group(es); var names := SortStrings(g.keys);
      && Distinct(names)
      && (forall i, j :: 0 <= i < j < |names| ==> StrLe(names[i], names[j]))
      && (forall n :: n in names <==> n in g.files)
      && |FoldersOf(es)| == |names|
      && forall i :: 0 <= i < |names| ==> FoldersOf(es)[i] == FolderOf(names[i], g.files[names[i]])
  {
    var g := Group(es);
    GroupShape(es);
    var names := SortStrings(g.keys);
    SortStringsSorted(g.keys);
    DistinctPermutation(g.keys, names);
    forall n ensures n in names <==> n in g.files {
      assert n in names <==> n in multiset(names);
    }
    FoldersSpec(names, g.files);
  }

  /** A folder has a list iff it has reported records, and the list is those records. */
  lemma GroupKey(es: seq<Entry>, k: string)
    ensures k in Group(es).files <==> FolderFiles(es, k) != []
    ensures k in Group(es).files ==> Group(es).files[k] == FolderFiles(es, k)
  {
    GroupShape(es);
  }

  /** The names of report entries, in report order. */
  function FolderNames(fs: seq<FolderReport>): (ns: seq<string>)
    ensures |ns| == |fs| && forall i :: 0 <= i < |fs| ==> ns[i] == fs[i].name
  {
    seq(|fs|, i requires 0 <= i < |fs| => fs[i].name)
  }

  /** The entries' names: strictly increasing, and exactly the folders with reported files. */
  lemma FoldersOfOrder(es: seq<Entry>)
    ensures var ns := FolderNames(FoldersOf(es));
      && (forall i, j :: 0 <= i < j < |ns| ==> StrLe(ns[i], ns[j]) && ns[i] != ns[j])
      && forall k :: k in ns <==> FolderFiles(es, k) != []
  {
    FoldersOfNames(es);
    var names := SortStrings(Group(es).keys);
    var ns := FolderNames(FoldersOf(es));
    assert ns == names;
    forall k
      ensures k in ns <==> FolderFiles(es, k) != []
    {
      GroupKey(es, k);
    }
  }

  /** Each entry holds its folder's records, largest first, with their total and inferred source. */
  lemma FoldersOfContents(es: seq<Entry>)
    ensures forall f <- FoldersOf(es) ::
      && f.files != []
      && SortedBy(f.files, BySizeDesc)
      && multiset(f.files) == multiset(FolderFiles(es, f.name))
      && f.totalSizeBytes == SizeSum(f.files)
      && f.source == InferSource(PathsOf(f.files))
  {
    FoldersOfNames(es);
    var names := SortStrings(Group(es).keys);
    var fs := FoldersOf(es);
    forall f <- fs
      ensures f.files != [] && SortedBy(f.files, BySizeDesc)
      ensures multiset(f.files) == multiset(FolderFiles(es, f.name))
      ensures f.totalSizeBytes == SizeSum(f.files) && f.source == InferSource(PathsOf(f.files))
    {
      var i :| 0 <= i < |fs| && fs[i] == f;
      var list := Group(es).files[names[i]];
      GroupKey(es, names[i]);
      FolderOfSpec(names[i], list);
      SumOfPermutation(f.files, list, RecordSize);
      assert |f.files| == |multiset(f.files)| == |multiset(list)| == |list|;
    }
  }

  /**
   * The folders of the report: in strictly increasing name order, one for
   * each folder with reported files and no other, each holding exactly that
   * folder's records, largest first, with their total and inferred source.
   * A missing models directory gives no folders and zero totals.
   */
  lemma ReportFolders(modelsDir: Path, dirExists: bool, walk: seq<WalkFile>)
    ensures var r := ReportOf(modelsDir, dirExists, walk);
      && r.modelsDir == modelsDir
      && (!dirExists ==> r.folders == [] && r.totalFiles == 0 && r.totalSizeBytes == 0)
      && (forall i, j :: 0 <= i < j < |r.folders| ==>
            StrLe(r.folders[i].name, r.folders[j].name) && r.folders[i].name != r.folders[j].name)
      && (dirExists ==> forall k :: k in FolderNames(r.folders) <==> FolderFiles(Entries(walk), k) != [])
      && (forall f <- r.folders ::
            && f.files != []
            && SortedBy(f.files, BySizeDesc)
            && multiset(f.files) == multiset(FolderFiles(Entries(walk), f.name))
            && f.totalSizeBytes == SizeSum(f.files)
            && f.source == InferSource(PathsOf(f.files)))
  {
    if dirExists {
      FoldersOfOrder(Entries(walk));
      FoldersOfContents(Entries(walk));
    }
  }

  /** The totals count every reported file of the walk once, and add up their sizes. */
  lemma ReportTotals(modelsDir: Path, dirExists: bool, walk: seq<WalkFile>)
    requires dirExists
    ensures ReportOf(modelsDir, dirExists, walk).totalFiles == |KeptRecords(Entries(walk))|
    ensures ReportOf(modelsDir, dirExists, walk).totalSizeBytes == SizeSum(KeptRecords(Entries(walk)))
  {
    var g := Group(Entries(walk));
    GroupShape(Entries(walk));
    GroupSums(Entries(walk));
    var names := SortStrings(g.keys);
    assert forall n <- names :: n in g.keys by {
      forall n <- names ensures n in g.keys { assert n in multiset(names); }
    }
    FoldersSpec(names, g.files);
    var fs := Folders(names, g.files);
    forall i | 0 <= i < |fs|
      ensures FileCount(fs[i]) == CountFn(Entries(walk))(names[i]) && FolderSize(fs[i]) == SizeFn(Entries(walk))(names[i])
    {
      FolderOfSpec(names[i], g.files[names[i]]);
      assert |fs[i].files| == |multiset(fs[i].files)|;
    }
    SumOfMatched(fs, names, FileCount, CountFn(Entries(walk)));
    SumOfMatched(fs, names, FolderSize, SizeFn(Entries(walk)));
    SumOfPermutation(names, g.keys, CountFn(Entries(walk)));
    SumOfPermutation(names, g.keys, SizeFn(Entries(walk)));
  }

  // ----- the routine -------------------------------------------------------------------

  /** The checks of the walk loop's body, in the order the source makes them. */
  method KeepFile(f: WalkFile) returns (kept: Entry)
    ensures kept == Kept(f)
  {
    if f.isSymlink {
      return None;
    }
    var parts := Parts(f.relPath);
    if |parts| < 2 {
      return None;
    }
    var top := parts[0];
    if top in SkipDirs {
      return None;
    }
    if ShouldSkipFile(f.relPath) {
      return None;
    }
    if f.size.None? {
      return None;
    }
    kept := Some((top, FileRecord(Join("/", parts[1..]), f.size.value)));
  }

  /** One more entry: its record is added to its folder, or nothing changes. */
  lemma GroupSnoc(es: seq<Entry>, i: nat)
    requires i < |es|
    ensures Group(es[..i + 1]) == if es[i].None? then Group(es[..i]) else AddFile(Group(es[..i]), es[i].value.0, es[i].value.1)
  {
    assert es[..i + 1][..i] == es[..i];
  }

  /** The walk loop: `folder_data` filled folder by folder. */
  method GroupWalk(walk: seq<WalkFile>) returns (keys: seq<string>, files: map<string, seq<FileRecord>>)
    ensures Groups(keys, files) == Group(Entries(walk))
  {
    ghost var es := Entries(walk);
    keys, files := [], map[];
    var i := 0;
    while i < |walk|
      invariant i <= |walk|
      invariant Groups(keys, files) == Group(es[..i])
    {
      GroupSnoc(es, i);
      var kept := KeepFile(walk[i]);
      if kept.Some? {
        var (top, r) := kept.value;
        if top !in files {
          files := files[top := [r]];
          keys := keys + [top];
        } else {
          files := files[top := files[top] + [r]];
        }
      }
      i := i + 1;
    }
    assert es[..i] == es;
  }

  /** The output loop: each folder's list sorted, summed and given its source, with running totals. */
  method BuildFolders(names: seq<string>, files: map<string, seq<FileRecord>>)
    returns (folders: seq<FolderReport>, totalFiles: int, totalSize: int)
    requires forall n <- names :: n in files
    ensures folders == Folders(names, files)
    ensures totalFiles == SumOf(folders, FileCount) && totalSize == SumOf(folders, FolderSize)
  {
    folders, totalFiles, totalSize := [], 0, 0;
    var i := 0;
    while i < |names|
      invariant i <= |names|
      invariant folders == Folders(names[..i], files)
      invariant totalFiles == SumOf(folders, FileCount) && totalSize == SumOf(folders, FolderSize)
    {
      assert names[..i + 1][..i] == names[..i];
      var name := names[i];
      assert name in names;
      var fileList := files[name];
      if fileList != [] {
        fileList := SortBy(fileList, BySizeDesc);
        var folderSize := SumOf(fileList, RecordSize);
        var source := InferSource(PathsOf(fileList));
        var entry := FolderReport(name, folderSize, source, fileList);
        SumOfAppend(folders, entry, FileCount);
        SumOfAppend(folders, entry, FolderSize);
        folders := folders + [entry];
        totalFiles := totalFiles + |fileList|;
        totalSize := totalSize + folderSize;
      }
      i := i + 1;
    }
    assert names[..i] == names;
  }

  /** `build_models_report` as a whole. */
  method BuildModelsReport(modelsDir: Path, dirExists: bool, walk: seq<WalkFile>) returns (report: ModelsReport)
    ensures report == ReportOf(modelsDir, dirExists, walk)
  {
    if !dirExists {
      return ModelsReport(modelsDir, 0, 0, []);
    }
    var keys, files := GroupWalk(walk);
    GroupShape(Entries(walk));
    var names := SortStrings(keys);
    assert forall n <- names :: n in files by {
      forall n <- names ensures n in files { assert n in multiset(names); }
    }
    var folders, totalFiles, totalSize := BuildFolders(names, files);
    report := ModelsReport(modelsDir, totalFiles, totalSize, folders);
  }
}
