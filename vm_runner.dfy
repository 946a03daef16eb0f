/**
 * The data handling of the Windows VM runner: choosing the GPU to pass
 * through from `lspci` output, uploading a file as base64 text in chunks
 * of 30000 characters, choosing the files that go into the archive of the
 * node directory, and mapping the fetched result files to local paths.
 *
 * The QEMU, websockify and WinRM control is not modelled. A PowerShell
 * script sent to the VM is a value; `status` gives the return code the VM
 * reports for it. Base64 text is opaque: since 30000 is a multiple of 4,
 * every chunk decodes on its own, so the remote file is described by the
 * base64 text of its bytes, and decoding and appending chunks is
 * concatenating their text.
 */
module VmRunner {
  import opened Base
  import opened Strings
  import opened Paths
  import opened Gitignore

  // ----- find_gpu_device -------------------------------------------------------------

  /** An `lspci -nn` line describing an NVIDIA display controller. */
  predicate IsGpuLine(line: string)
  {
    Contains(line, "NVIDIA") && (Contains(line, "VGA") || Contains(line, "3D controller"))
  }

  /** The PCI address (first word) of the first GPU line. */
  function GpuAddress(lines: seq<string>): Option<string>
  {
    if lines == [] then None
    else if IsGpuLine(lines[0]) then FirstWord(lines[0])
    else GpuAddress(lines[1..])
  }

  /** `find_gpu_device`, given `lspci`'s output, or None when `lspci` could not be run. */
  function GpuDevice(lspci: Option<string>): Option<string>
  {
    if lspci.None? then None else GpuAddress(SplitLines(lspci.value))
  }

  /** A line naming NVIDIA is not blank, so it has a first word. */
  lemma GpuLineHasWord(line: string)
    requires Contains(line, "NVIDIA")
    ensures FirstWord(line).Some?
  {
    var k := ContainsIndex(line, "NVIDIA");
    assert line[k] == 'N';
  }

  /**
   * The address is that of the first GPU line, and there is one iff some
   * line describes a GPU.
   */
  lemma {:induction false} GpuAddressSpec(lines: seq<string>)
    ensures GpuAddress(lines).Some? <==> exists i :: 0 <= i < |lines| && IsGpuLine(lines[i])
    ensures forall i :: 0 <= i < |lines| && IsGpuLine(lines[i]) && (forall k :: 0 <= k < i ==> !IsGpuLine(lines[k])) ==>
      GpuAddress(lines) == FirstWord(lines[i])
  {
    if lines != [] {
      GpuAddressSpec(lines[1..]);
      if IsGpuLine(lines[0]) {
        GpuLineHasWord(lines[0]);
      } else {
        assert forall i :: 1 <= i < |lines| ==> lines[i] == lines[1..][i - 1];
      }
    }
  }

  method IsGpuLineCheck(line: string) returns (hit: bool)
    ensures hit == IsGpuLine(line)
  {
    hit := Contains(line, "NVIDIA") && (Contains(line, "VGA") || Contains(line, "3D controller"));
  }

  /** The line loop of `find_gpu_device`, which returns at the first GPU line. */
  method FirstGpuAddress(lines: seq<string>) returns (addr: Option<string>)
    ensures addr == GpuAddress(lines)
  {
    var i := 0;
    while i < |lines|
      invariant i <= |lines|
      invariant GpuAddress(lines[i..]) == GpuAddress(lines)
    {
      assert lines[i..][0] == lines[i] && lines[i..][1..] == lines[i + 1..];
      var hit := IsGpuLineCheck(lines[i]);
      if hit {
        return FirstWord(lines[i]);
      }
      i := i + 1;
    }
    assert lines[i..] == [];
    return None;
  }

  method FindGpuDevice(lspci: Option<string>) returns (addr: Option<string>)
    ensures addr == GpuDevice(lspci)
  {
    if lspci.None? {
      return None;
    }
    addr := FirstGpuAddress(SplitLines(lspci.value));
  }

  // ----- chunked upload in copy_file_with_progress ------------------------------------

  const ChunkSize: nat := 30000

  /** `[s[i:i+size] for i in range(0, len(s), size)]`. */
  function Chunks(s: string, size: nat): seq<string>
    requires size > 0
    decreases |s|
  {
    if s == [] then []
    else if |s| <= size then [s]
    else [s[..size]] + Chunks(s[size..], size)
  }

  /** The texts joined end to end. */
  function Concat(xs: seq<string>): string
  {
    if xs == [] then "" else xs[0] + Concat(xs[1..])
  }

  function Min(a: int, b: int): int { if a <= b then a else b }

  /**
   * There are as many chunks as the comprehension's range has steps:
   * `|s|` rounded up to a multiple of `size`, divided by `size`.
   */
  lemma {:induction false} ChunkCount(s: string, size: nat)
    requires size > 0
    ensures s == [] ==> Chunks(s, size) == []
    ensures s != [] ==> (|Chunks(s, size)| - 1) * size < |s| <= |Chunks(s, size)| * size
    decreases |s|
  {
    if s != [] && |s| > size {
      var rest := s[size..];
      ChunkCount(rest, size);
      var n := |Chunks(rest, size)|;
      assert |Chunks(s, size)| == n + 1;
      assert (n + 1) * size == n * size + size;
      assert n * size == (n - 1) * size + size;
    }
  }

  /** Chunk `i` is the slice of `size` characters (fewer at the end) starting at `i * size`. */
  lemma {:induction false} ChunkAt(s: string, size: nat, i: nat)
    requires size > 0 && i < |Chunks(s, size)|
    ensures i * size < |s| && Chunks(s, size)[i] == s[i * size..Min((i + 1) * size, |s|)]
    decreases |s|
  {
    if i > 0 {
      var rest := s[size..];
      ChunkAt(rest, size, i - 1);
      var j := (i - 1) * size;
      assert j + size == i * size;
      assert i * size + size == (i + 1) * size;
      assert Chunks(s, size)[i] == Chunks(rest, size)[i - 1];
      assert rest[j..Min(i * size, |rest|)] == s[i * size..Min((i + 1) * size, |s|)];
    }
  }

  /** Every chunk but the last holds exactly `size` characters, and none is empty. */
  lemma {:induction false} ChunkLengths(s: string, size: nat)
    requires size > 0
    ensures forall i :: 0 <= i < |Chunks(s, size)| - 1 ==> |Chunks(s, size)[i]| == size
    ensures forall c <- Chunks(s, size) :: c != ""
    decreases |s|
  {
    if s != [] && |s| > size {
      ChunkLengths(s[size..], size);
      assert Chunks(s, size) == [s[..size]] + Chunks(s[size..], size);
    }
  }

  /** Joining the chunks gives the text back; only empty text has no chunks. */
  lemma {:induction false} ChunksConcat(s: string, size: nat)
    requires size > 0
    ensures Concat(Chunks(s, size)) == s
    ensures Chunks(s, size) == [] <==> s == []
    decreases |s|
  {
    if s != [] && |s| > size {
      ChunksConcat(s[size..], size);
      assert s == s[..size] + s[size..];
    } else if s != [] {
      assert Concat([s]) == s + Concat([]);
    }
  }

  /** The PowerShell scripts of the upload. */
  datatype Script =
    | WriteAll(remotePath: string, chunk: string)  // decode the chunk and create the file
    | AppendTo(remotePath: string, chunk: string)  // decode the chunk and append it

  /** The scripts the upload would send: one creating the file, then one append per further chunk. */
  function Issued(remotePath: string, chunks: seq<string>): seq<Script>
  {
    seq(|chunks|, i requires 0 <= i < |chunks| => if i == 0 then WriteAll(remotePath, chunks[0]) else AppendTo(remotePath, chunks[i]))
  }

  /** Sending scripts in order, stopping after the first non-zero return code: (all succeeded, scripts sent). */
  function SendAll(scripts: seq<Script>, status: Script -> int): (bool, seq<Script>)
  {
    if scripts == [] then (true, [])
    else
      var prev := SendAll(scripts[..|scripts| - 1], status);
      var last := scripts[|scripts| - 1];
      if !prev.0 then prev else (status(last) == 0, prev.1 + [last])
  }

  /** `copy_file_with_progress` on the base64 text: the result and the scripts sent. */
  function Upload(b64: string, remotePath: string, status: Script -> int): (Outcome<bool>, seq<Script>)
  {
    var chunks := Chunks(b64, ChunkSize);
    if chunks == [] then (PyFail("IndexError", "list index out of range"), [])
    else
      var r := SendAll(Issued(remotePath, chunks), status);
      (Ok(r.0), r.1)
  }

  method CopyFileWithProgress(b64: string, remotePath: string, status: Script -> int)
    returns (r: Outcome<bool>, sent: seq<Script>)
    ensures (r, sent) == Upload(b64, remotePath, status)
  {
    var chunks := Chunks(b64, ChunkSize);
    if chunks == [] {
      return PyFail("IndexError", "list index out of range"), [];
    }
    var script := WriteAll(remotePath, chunks[0]);
    assert Issued(remotePath, chunks[..1]) == Issued(remotePath, chunks[..0]) + [script];
    SendAllSnoc(Issued(remotePath, chunks[..0]), script, status);
    sent := [script];
    if status(script) != 0 {
      assert Issued(remotePath, chunks[..1]) == Issued(remotePath, chunks)[..1];
      SendAllStopped(Issued(remotePath, chunks), 1, status);
      return Ok(false), sent;
    }
    var i := 1;
    while i < |chunks|
      invariant 1 <= i <= |chunks|
      invariant SendAll(Issued(remotePath, chunks[..i]), status) == (true, sent)
    {
      script := AppendTo(remotePath, chunks[i]);
      assert Issued(remotePath, chunks[..i + 1]) == Issued(remotePath, chunks[..i]) + [script];
      SendAllSnoc(Issued(remotePath, chunks[..i]), script, status);
      sent := sent + [script];
      if status(script) != 0 {
        assert Issued(remotePath, chunks[..i + 1]) == Issued(remotePath, chunks)[..i + 1];
        SendAllStopped(Issued(remotePath, chunks), i + 1, status);
        return Ok(false), sent;
      }
      i := i + 1;
    }
    assert chunks[..i] == chunks;
    r := Ok(true);
  }

  lemma SendAllSnoc(scripts: seq<Script>, s: Script, status: Script -> int)
    ensures SendAll(scripts + [s], status) ==
      if SendAll(scripts, status).0 then (status(s) == 0, SendAll(scripts, status).1 + [s]) else SendAll(scripts, status)
  {
    assert (scripts + [s])[..|scripts|] == scripts;
  }

  /** Once a prefix has failed, the later scripts are not sent. */
  lemma {:induction false} SendAllStopped(scripts: seq<Script>, n: nat, status: Script -> int)
    requires n <= |scripts| && !SendAll(scripts[..n], status).0
    ensures SendAll(scripts, status) == SendAll(scripts[..n], status)
    decreases |scripts|
  {
    if n < |scripts| {
      var init := scripts[..|scripts| - 1];
      assert init[..n] == scripts[..n];
      SendAllStopped(init, n, status);
    } else {
      assert scripts[..n] == scripts;
    }
  }

  /**
   * The scripts sent are a prefix of those due. All succeed iff every one
   * returns 0, and then all are sent; otherwise sending ends with the
   * first failing script.
   */
  lemma {:induction false} SendAllSpec(scripts: seq<Script>, status: Script -> int)
    ensures var r := SendAll(scripts, status);
      && |r.1| <= |scripts| && r.1 == scripts[..|r.1|]
      && (r.0 <==> forall k :: 0 <= k < |scripts| ==> status(scripts[k]) == 0)
      && (r.0 ==> r.1 == scripts)
      && (!r.0 ==> (r.1 != [] && status(r.1[|r.1| - 1]) != 0
                    && forall k :: 0 <= k < |r.1| - 1 ==> status(r.1[k]) == 0))
  {
    if scripts != [] {
      var init := scripts[..|scripts| - 1];
      var last := scripts[|scripts| - 1];
      SendAllSpec(init, status);
      var prev := SendAll(init, status);
      assert scripts == init + [last];
      if prev.0 {
        assert prev.1 + [last] == scripts;
      } else {
        assert init[..|prev.1|] == scripts[..|prev.1|];
      }
    }
  }

  /** The remote files after a script has run: path to the base64 text of the content. */
  function Apply(files: map<string, string>, s: Script): map<string, string>
  {
    match s
    case WriteAll(p, c) => files[p := c]
    case AppendTo(p, c) => files[p := (if p in files then files[p] else "") + c]
  }

  function Replay(files: map<string, string>, scripts: seq<Script>): map<string, string>
  {
    if scripts == [] then files else Apply(Replay(files, scripts[..|scripts| - 1]), scripts[|scripts| - 1])
  }

  lemma {:induction false} ConcatSnoc(xs: seq<string>, x: string)
    ensures Concat(xs + [x]) == Concat(xs) + x
  {
    if xs == [] {
      assert [x][1..] == [];
    } else {
      assert (xs + [x])[1..] == xs[1..] + [x];
      ConcatSnoc(xs[1..], x);
    }
  }

  lemma {:induction false} ReplayIssued(files: map<string, string>, remotePath: string, chunks: seq<string>, n: nat)
    requires 1 <= n <= |chunks|
    ensures remotePath in Replay(files, Issued(remotePath, chunks[..n]))
    ensures Replay(files, Issued(remotePath, chunks[..n]))[remotePath] == Concat(chunks[..n])
  {
    var sc := Issued(remotePath, chunks[..n]);
    if n == 1 {
      assert sc == [WriteAll(remotePath, chunks[0])] && sc[..0] == [];
      assert Concat([chunks[0]]) == chunks[0] + Concat([]);
      assert chunks[..1] == [chunks[0]];
    } else {
      ReplayIssued(files, remotePath, chunks, n - 1);
      assert sc[..n - 1] == Issued(remotePath, chunks[..n - 1]);
      assert chunks[..n] == chunks[..n - 1] + [chunks[n - 1]];
      ConcatSnoc(chunks[..n - 1], chunks[n - 1]);
    }
  }

  /**
   * Empty text raises IndexError before anything is sent. Otherwise the
   * first script creates the file from the first 30000 characters and
   * every later one appends; when the upload reports success, replaying
   * the scripts leaves exactly the uploaded text in the remote file.
   */
  lemma UploadSpec(b64: string, remotePath: string, status: Script -> int, files: map<string, string>)
    ensures var u := Upload(b64, remotePath, status);
      && (b64 == "" <==> u.0.Raised?)
      && (b64 == "" ==> u.0 == PyFail("IndexError", "list index out of range") && u.1 == [])
      && (b64 != "" ==> (u.1 != [] && u.1[0] == WriteAll(remotePath, b64[..Min(ChunkSize, |b64|)])
                        && forall k :: 1 <= k < |u.1| ==> u.1[k].AppendTo? && u.1[k].remotePath == remotePath))
      && (u.0 == Ok(true) ==> remotePath in Replay(files, u.1) && Replay(files, u.1)[remotePath] == b64)
  {
    var chunks := Chunks(b64, ChunkSize);
    ChunksConcat(b64, ChunkSize);
    if chunks != [] {
      ChunkAt(b64, ChunkSize, 0);
      UploadSent(b64, remotePath, status, files, chunks);
    }
  }

  /** With at least one chunk, the scripts sent start with the first write and only append after it; all sent rebuild the text. */
  lemma UploadSent(b64: string, remotePath: string, status: Script -> int, files: map<string, string>, chunks: seq<string>)
    requires chunks != [] && Concat(chunks) == b64 && chunks[0] == b64[..Min(ChunkSize, |b64|)]
    ensures var r := SendAll(Issued(remotePath, chunks), status);
      && r.1 != [] && r.1[0] == WriteAll(remotePath, b64[..Min(ChunkSize, |b64|)])
      && (forall k :: 1 <= k < |r.1| ==> r.1[k].AppendTo? && r.1[k].remotePath == remotePath)
      && (r.0 ==> remotePath in Replay(files, r.1) && Replay(files, r.1)[remotePath] == b64)
  {
    var scripts := Issued(remotePath, chunks);
    var r := SendAll(scripts, status);
    assert r.1 != [] && |r.1| <= |scripts| && r.1 == scripts[..|r.1|] && (r.0 ==> r.1 == scripts) by {
      SendAllSpec(scripts, status);
    }
    forall k | 0 <= k < |r.1|
      ensures r.1[k] == scripts[k]
    {
      assert r.1[k] == scripts[..|r.1|][k];
    }
    if r.0 {
      assert chunks[..|chunks|] == chunks;
      ReplayIssued(files, remotePath, chunks, |chunks|);
    }
  }

  // ----- the skip rule of copy_directory ----------------------------------------------

  /** Directories whose files are never archived. */
  const AlwaysSkip: set<string> := {".git", "__pycache__", ".venv", "node_modules", ".comfy-test", ".comfy-test-env", ".comfy-test-logs"}

  predicate InSkippedDir(parts: seq<string>)
  {
    exists p <- parts :: p in AlwaysSkip
  }

  /** Some pattern matches the file's name or its path relative to the archived directory. */
  predicate PatternSkips(fnmatch: (string, string) -> bool, patterns: seq<string>, relPath: Path)
  {
    exists pattern <- patterns :: fnmatch(Name(relPath), pattern) || fnmatch(relPath, pattern)
  }

  /**
   * The skip test as written: it looks at every part of the file's FULL
   * path `localDir/relPath`, the parts of `localDir` included.
   */
  predicate SkipAsWritten(fnmatch: (string, string) -> bool, patterns: seq<string>, localDir: Path, relPath: Path)
  {
    InSkippedDir(Parts(JoinPath(localDir, relPath))) || PatternSkips(fnmatch, patterns, relPath)
  }

  /** The skip test with the parts taken from the relative path only, as the model uses it. */
  predicate SkipFile(fnmatch: (string, string) -> bool, patterns: seq<string>, relPath: Path)
  {
    InSkippedDir(Parts(relPath)) || PatternSkips(fnmatch, patterns, relPath)
  }

  /** A directory holding an always-skipped part makes the test as written skip every file. */
  lemma SkipAsWrittenDropsAll(fnmatch: (string, string) -> bool, patterns: seq<string>, localDir: Path, relPath: Path)
    requires localDir != "" && !IsAbsolute(relPath) && InSkippedDir(Parts(localDir))
    ensures SkipAsWritten(fnmatch, patterns, localDir, relPath)
  {
    PartsJoin(localDir, relPath);
    var p :| p in Parts(localDir) && p in AlwaysSkip;
    assert p in Parts(JoinPath(localDir, relPath));
  }

  /** A node kept in `.venv` archives nothing as written, although its own file is not skipped. */
  lemma SkipAsWrittenExample(fnmatch: (string, string) -> bool)
    ensures SkipAsWritten(fnmatch, [], ".venv", "nodes.py")
    ensures !SkipFile(fnmatch, [], "nodes.py")
  {
    VenvDirSkipped();
    NodesFileKept();
    SkipAsWrittenDropsAll(fnmatch, [], ".venv", "nodes.py");
  }

  /** `.venv` is a single part, and a skipped one. */
  lemma VenvDirSkipped()
    ensures InSkippedDir(Parts(".venv"))
  {
    var dir := ".venv";
    assert forall k :: 0 <= k < |dir| ==> dir[k] != '/';
    PartsOfName(dir);
    assert dir in AlwaysSkip;
  }

  /** `nodes.py` is a relative single part that no skipped directory name equals. */
  lemma NodesFileKept()
    ensures !IsAbsolute("nodes.py") && !InSkippedDir(Parts("nodes.py"))
  {
    var file := "nodes.py";
    assert forall k :: 0 <= k < |file| ==> file[k] != '/';
    PartsOfName(file);
    assert file !in AlwaysSkip;
    assert file[0] == 'n';
  }

  /** Under a directory with no skipped part, the corrected test agrees with the written one. */
  lemma SkipFileAgrees(fnmatch: (string, string) -> bool, patterns: seq<string>, localDir: Path, relPath: Path)
    requires localDir != "" && !IsAbsolute(relPath) && !InSkippedDir(Parts(localDir))
    ensures SkipAsWritten(fnmatch, patterns, localDir, relPath) == SkipFile(fnmatch, patterns, relPath)
  {
    PartsJoin(localDir, relPath);
    assert forall p :: p in Parts(JoinPath(localDir, relPath)) <==> p in Parts(localDir) || p in Parts(relPath);
  }

  /** The files archived, by relative path, in walk order. */
  function Archived(fnmatch: (string, string) -> bool, patterns: seq<string>, files: seq<Path>): seq<Path>
  {
    if files == [] then []
    else
      var init := Archived(fnmatch, patterns, files[..|files| - 1]);
      var f := files[|files| - 1];
      if SkipFile(fnmatch, patterns, f) then init else init + [f]
  }

  /** A file is archived iff it was walked and is not skipped. */
  lemma {:induction false} ArchivedSpec(fnmatch: (string, string) -> bool, patterns: seq<string>, files: seq<Path>)
    ensures forall f :: f in Archived(fnmatch, patterns, files) <==> f in files && !SkipFile(fnmatch, patterns, f)
    ensures |Archived(fnmatch, patterns, files)| <= |files|
  {
    if files != [] {
      var init := files[..|files| - 1];
      ArchivedSpec(fnmatch, patterns, init);
      assert forall f :: f in files <==> f in init || f == files[|files| - 1];
    }
  }

  /** The skip test for one file: the part loop, then the pattern loop that stops at the first match. */
  method ShouldSkip(fnmatch: (string, string) -> bool, patterns: seq<string>, relPath: Path) returns (skip: bool)
    ensures skip == SkipFile(fnmatch, patterns, relPath)
  {
    var parts := Parts(relPath);
    var i := 0;
    while i < |parts|
      invariant i <= |parts|
      invariant forall k :: 0 <= k < i ==> parts[k] !in AlwaysSkip
    {
      if parts[i] in AlwaysSkip {
        return true;
      }
      i := i + 1;
    }
    var name := Name(relPath);
    var j := 0;
    while j < |patterns|
      invariant j <= |patterns|
      invariant forall k :: 0 <= k < j ==> !(fnmatch(name, patterns[k]) || fnmatch(relPath, patterns[k]))
    {
      if fnmatch(name, patterns[j]) || fnmatch(relPath, patterns[j]) {
        return true;
      }
      j := j + 1;
    }
    return false;
  }

  /** The archive loop of `copy_directory`, given `.gitignore` and the walked files. */
  method ArchiveEntries(fnmatch: (string, string) -> bool, gitignore: Option<string>, files: seq<Path>)
    returns (entries: seq<Path>)
    ensures entries == Archived(fnmatch, ParseGitignore(gitignore), files)
  {
    var patterns := ReadPatterns(gitignore);
    entries := [];
    var i := 0;
    while i < |files|
      invariant i <= |files|
      invariant entries == Archived(fnmatch, patterns, files[..i])
    {
      assert files[..i + 1][..i] == files[..i];
      var skip := ShouldSkip(fnmatch, patterns, files[i]);
      if !skip {
        entries := entries + [files[i]];
      }
      i := i + 1;
    }
    assert files[..i] == files;
  }

  // ----- fetching results in run_vm ---------------------------------------------------

  /** The local path of a fetched result: the results-dir prefix removed, '\' turned into '/'. */
  function LocalResultPath(outputDir: Path, resultsDir: string, remoteFile: string): Path
  {
    JoinPath(outputDir, ReplaceChar(ReplaceAll(remoteFile, resultsDir + "\\", ""), '\\', '/'))
  }

  /** A file under the results directory lands at its relative path under the output directory. */
  lemma LocalResultPathOfChild(outputDir: Path, resultsDir: string, rel: string)
    requires !Contains(rel, resultsDir + "\\")
    ensures LocalResultPath(outputDir, resultsDir, resultsDir + "\\" + rel) == JoinPath(outputDir, ReplaceChar(rel, '\\', '/'))
  {
    var pat := resultsDir + "\\";
    var stripped := ReplaceAll(pat + rel, pat, "");
    assert stripped == rel by {
      ReplaceAllPrefix(pat, rel, "");
      assert "" + rel == rel;
    }
  }

  /** One listed line: a fetch (remote, local) unless the line is blank. */
  function ResultFetch(outputDir: Path, resultsDir: string, line: string): Option<(string, Path)>
  {
    if Strip(line) == "" then None else Some((line, LocalResultPath(outputDir, resultsDir, line)))
  }

  function Fetches(outputDir: Path, resultsDir: string, lines: seq<string>): seq<(string, Path)>
  {
    if lines == [] then []
    else
      var init := Fetches(outputDir, resultsDir, lines[..|lines| - 1]);
      match ResultFetch(outputDir, resultsDir, lines[|lines| - 1])
      case None => init
      case Some(f) => init + [f]
  }

  /** The fetches of `run_vm`, given the listing's output, or None when the listing failed. */
  function ResultFetches(outputDir: Path, resultsDir: string, listing: Option<string>): seq<(string, Path)>
  {
    if listing.None? then [] else Fetches(outputDir, resultsDir, SplitLines(Strip(listing.value)))
  }

  /** Every non-blank listed line is fetched to its mapped local path, and nothing else is. */
  lemma {:induction false} FetchesSpec(outputDir: Path, resultsDir: string, lines: seq<string>)
    ensures forall f :: f in Fetches(outputDir, resultsDir, lines) <==>
      f.0 in lines && Strip(f.0) != "" && f.1 == LocalResultPath(outputDir, resultsDir, f.0)
  {
    if lines != [] {
      var init := lines[..|lines| - 1];
      FetchesSpec(outputDir, resultsDir, init);
      assert forall l :: l in lines <==> l in init || l == lines[|lines| - 1];
    }
  }

  method ResultFetchOf(outputDir: Path, resultsDir: string, line: string) returns (fetch: Option<(string, Path)>)
    ensures fetch == ResultFetch(outputDir, resultsDir, line)
  {
    if Strip(line) == "" {
      return None;
    }
    var rel := ReplaceAll(line, resultsDir + "\\", "");
    fetch := Some((line, JoinPath(outputDir, ReplaceChar(rel, '\\', '/'))));
  }

  /** The loop over the listed lines. */
  method FetchLines(outputDir: Path, resultsDir: string, lines: seq<string>) returns (fetches: seq<(string, Path)>)
    ensures fetches == Fetches(outputDir, resultsDir, lines)
  {
    fetches := [];
    var i := 0;
    while i < |lines|
      invariant i <= |lines|
      invariant fetches == Fetches(outputDir, resultsDir, lines[..i])
    {
      assert lines[..i + 1][..i] == lines[..i];
      var fetch := ResultFetchOf(outputDir, resultsDir, lines[i]);
      if fetch.Some? {
        fetches := fetches + [fetch.value];
      }
      i := i + 1;
    }
    assert lines[..i] == lines;
  }

  method FetchResults(outputDir: Path, resultsDir: string, listing: Option<string>) returns (fetches: seq<(string, Path)>)
    ensures fetches == ResultFetches(outputDir, resultsDir, listing)
  {
    if listing.None? {
      return [];
    }
    fetches := FetchLines(outputDir, resultsDir, SplitLines(Strip(listing.value)));
  }
}
