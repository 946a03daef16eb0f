/**
 * The INSTANTIATION level: runs a child interpreter that imports the node
 * package and calls every node class's constructor, then reads the JSON
 * report the child prints as its last JSON line.
 *
 * The child process is an input: `run` says how a launch with given
 * parameters ends (its exit code and captured output, or the exception
 * `subprocess.run` raises), and `parse` is `json.loads` (None for text that
 * is not JSON). The level changes no context field.
 */
module InstantiationLevel {
  import opened Base
  import opened Strings
  import opened Json
  import opened Paths
  import opened ComfyEnv
  import opened Context

  /** Seconds the child may run before `subprocess.run` gives up. */
  const ScriptTimeout := 60

  /** The values substituted into the child's script. */
  datatype ScriptParams = ScriptParams(
    customNodesDir: string,
    nodeName: string,
    cudaPackages: seq<string>,
    isGpuRunner: bool)

  /** One launch of the child: interpreter, working directory, script parameters, timeout. */
  datatype ScriptRun = ScriptRun(python: Path, cwd: Path, params: ScriptParams, timeout: nat)

  /** What `subprocess.run(..., capture_output=True, text=True)` returns. */
  datatype ProcessResult = ProcessResult(returncode: int, stdout: string, stderr: string)

  /** Everything outside the level that it reads. */
  datatype InstantiationWorld = InstantiationWorld(
    env: map<string, string>,                 // the process environment
    cudaFiles: seq<TomlFile>,                 // every comfy-env.toml under the node, in walk order
    run: ScriptRun -> Outcome<ProcessResult>, // how the child ends
    parse: string -> Option<Json>)            // `json.loads`

  // ----- parameters ------------------------------------------------------------

  /**
   * The packages to mock: the context's own, unless there are none and the
   * run is not in GPU mode, in which case they are read from the node's files.
   */
  function PackagesToMock(ctx: LevelContext, w: InstantiationWorld): (r: Outcome<seq<string>>)
    ensures ctx.cudaPackages != [] ==> r == Ok(ctx.cudaPackages)
    ensures ctx.cudaPackages == [] && EnvSet(w.env, "COMFY_TEST_GPU") ==> r == Ok([])
    ensures ctx.cudaPackages == [] && !EnvSet(w.env, "COMFY_TEST_GPU") ==> r == CudaPackagesOf(w.cudaFiles)
  {
    if ctx.cudaPackages == [] && !EnvSet(w.env, "COMFY_TEST_GPU") then CudaPackagesOf(w.cudaFiles)
    else Ok(ctx.cudaPackages)
  }

  /** The child runs as a GPU runner exactly when `COMFY_TEST_GPU` is "1". */
  predicate IsGpuRunner(env: map<string, string>)
  {
    "COMFY_TEST_GPU" in env && env["COMFY_TEST_GPU"] == "1"
  }

  /** The launch: needs the context's paths (reading them from `None` raises AttributeError). */
  function LaunchFor(ctx: LevelContext, packages: seq<string>, env: map<string, string>): (r: Outcome<ScriptRun>)
    ensures r.Ok? <==> ctx.paths.Some?
    ensures r.Ok? ==>
      && r.value.python == ctx.paths.value.python
      && r.value.cwd == ctx.paths.value.comfyuiDir
      && r.value.timeout == ScriptTimeout
      && r.value.params.nodeName == Name(ctx.nodeDir)
      && r.value.params.cudaPackages == packages
      && (r.value.params.isGpuRunner <==> IsGpuRunner(env))
      && '\\' !in r.value.params.customNodesDir
      && |r.value.params.customNodesDir| == |ctx.paths.value.customNodesDir|
  {
    match ctx.paths
    case None => PyFail("AttributeError", "'NoneType' object has no attribute 'custom_nodes_dir'")
    case Some(p) =>
      var dir := ReplaceChar(p.customNodesDir, '\\', '/');
      Ok(ScriptRun(p.python, p.comfyuiDir, ScriptParams(dir, Name(ctx.nodeDir), packages, IsGpuRunner(env)), ScriptTimeout))
  }

  // ----- the report line ---------------------------------------------------------

  /** The line, stripped, starts with "{". */
  predicate IsJsonLine(line: string)
  {
    var t := Strip(line);
    t != [] && t[0] == '{'
  }

  /** The position of the last line that starts with "{" once stripped, or -1. */
  function LastJsonIndex(lines: seq<string>): (k: int)
    ensures -1 <= k < |lines|
    ensures k >= 0 ==> IsJsonLine(lines[k])
    ensures forall j :: k < j < |lines| ==> !IsJsonLine(lines[j])
  {
    if lines == [] then -1
    else if IsJsonLine(lines[|lines| - 1]) then |lines| - 1
    else
      var init := lines[..|lines| - 1];
      var k := LastJsonIndex(init);
      assert forall j :: k < j < |init| ==> init[j] == lines[j];
      k
  }

  /** The last line that starts with "{" once stripped, stripped. */
  function LastJsonLine(lines: seq<string>): (r: Option<string>)
    ensures r.None? <==> forall k :: 0 <= k < |lines| ==> !IsJsonLine(lines[k])
    ensures r.Some? ==> r.value != [] && r.value[0] == '{'
  {
    var k := LastJsonIndex(lines);
    if k < 0 then None else Some(Strip(lines[k]))
  }

  lemma StartsWithChar(s: string, c: char)
    ensures StartsWith(s, [c]) <==> s != [] && s[0] == c
  {
    if s != [] && s[0] == c {
      assert s[..1] == [c];
    }
  }

  /** One more line: it is the answer if it is a JSON line, otherwise the answer stays. */
  lemma LastJsonLineSnoc(lines: seq<string>, line: string)
    ensures LastJsonLine(lines + [line]) == if IsJsonLine(line) then Some(Strip(line)) else LastJsonLine(lines)
  {
    assert (lines + [line])[..|lines|] == lines;
  }

  /** One line of the scan: a JSON line replaces the answer so far. */
  method ScanLine(line: Option<string>, next: string) returns (r: Option<string>)
    ensures r == if IsJsonLine(next) then Some(Strip(next)) else line
  {
    var l := Strip(next);
    StartsWithChar(l, '{');
    r := if StartsWith(l, "{") then Some(l) else line;
  }

  /** The loop that scans the stripped output's lines and keeps the last JSON line. */
  method FindJsonLine(stdout: string) returns (line: Option<string>)
    ensures line == LastJsonLine(SplitLines(Strip(stdout)))
  {
    var lines := SplitLines(Strip(stdout));
    line := None;
    var i := 0;
    while i < |lines|
      invariant 0 <= i <= |lines|
      invariant line == LastJsonLine(lines[..i])
    {
      TakeSnoc(lines, i);
      LastJsonLineSnoc(lines[..i], lines[i]);
      line := ScanLine(line, lines[i]);
      i := i + 1;
    }
    assert lines[..i] == lines;
  }

  // ----- the report ---------------------------------------------------------------

  function OutputDetails(p: ProcessResult): Details
  {
    Text("stdout: " + p.stdout + "\nstderr: " + p.stderr)
  }

  /** `f"  - {e['node']}: {e['error']}"` for one reported error. */
  function ErrorLine(e: Json): (r: Outcome<string>)
    ensures r.Ok? <==> Subscript(e, JString("node")).Ok? && Subscript(e, JString("error")).Ok?
    ensures r.Ok? ==> StartsWith(r.value, "  - ")
  {
    var node :- Subscript(e, JString("node"));
    var error :- Subscript(e, JString("error"));
    Ok("  - " + Str(node) + ": " + Str(error))
  }

  /** One line per reported error, in order; the first malformed entry raises. */
  function ErrorLines(errors: seq<Json>): (r: Outcome<seq<string>>)
    ensures r.Ok? <==> forall e <- errors :: ErrorLine(e).Ok?
    ensures r.Ok? ==> |r.value| == |errors| && forall k :: 0 <= k < |errors| ==> r.value[k] == ErrorLine(errors[k]).value
  {
    if errors == [] then Ok([])
    else
      var first :- ErrorLine(errors[0]);
      var rest :- ErrorLines(errors[1..]);
      assert forall e <- errors[1..] :: e in errors;
      Ok([first] + rest)
  }

  /** The TestError for a report whose `success` is falsy. */
  function InstantiationFailure(data: Json): (r: Outcome<()>)
    requires data.JObject?
    ensures r.Raised?
  {
    var errors := Get(data, "errors", JList([])).value;
    var items :- Iter(errors);
    var lines :- ErrorLines(items);
    var n := PyLen(errors).value;
    Fail(TestErr, "Node instantiation failed for " + NatToString(n) + " node(s)", Text(Join("\n", lines)))
  }

  /** What the level makes of the child's report. */
  function CheckReport(p: ProcessResult, parse: string -> Option<Json>): (r: Outcome<()>)
  {
    if p.returncode != 0 then Fail(TestErr, "Instantiation test failed", OutputDetails(p))
    else
      var line := LastJsonLine(SplitLines(Strip(p.stdout)));
      if line.None? || parse(line.value).None? then Fail(TestErr, "Instantiation test returned invalid JSON", OutputDetails(p))
      else
        var data := parse(line.value).value;
        var success :- Get(data, "success", JNull);
        if !Truthy(success) then InstantiationFailure(data)
        else Ok(())
  }

  /** The level: the context back unchanged, or the exception it raises. */
  function InstantiationSpec(ctx: LevelContext, w: InstantiationWorld): (r: Outcome<LevelContext>)
    ensures r.Ok? ==> r.value == ctx
  {
    var packages :- PackagesToMock(ctx, w);
    var launch :- LaunchFor(ctx, packages, w.env);
    var p :- w.run(launch);
    var _ :- CheckReport(p, w.parse);
    Ok(ctx)
  }

  /** `run`: launches the child and checks its report. */
  method Run(ctx: LevelContext, w: InstantiationWorld) returns (r: Outcome<LevelContext>)
    ensures r == InstantiationSpec(ctx, w)
  {
    var packages :- PackagesToMock(ctx, w);
    var launch :- LaunchFor(ctx, packages, w.env);
    var p :- w.run(launch);
    if p.returncode != 0 {
      return Fail(TestErr, "Instantiation test failed", OutputDetails(p));
    }
    var line := FindJsonLine(p.stdout);
    if line.None? || w.parse(line.value).None? {
      return Fail(TestErr, "Instantiation test returned invalid JSON", OutputDetails(p));
    }
    var data := w.parse(line.value).value;
    var success :- Get(data, "success", JNull);
    if !Truthy(success) {
      var failure := InstantiationFailure(data);
      return Raised(failure.exc);
    }
    return Ok(ctx);
  }

  // ----- properties ---------------------------------------------------------------

  /**
   * The level passes exactly when the child exits with 0 and its last JSON
   * line parses to a dictionary whose `success` is truthy.
   */
  lemma ReportOkIff(p: ProcessResult, parse: string -> Option<Json>)
    ensures CheckReport(p, parse).Ok? <==>
      && p.returncode == 0
      && LastJsonLine(SplitLines(Strip(p.stdout))).Some?
      && parse(LastJsonLine(SplitLines(Strip(p.stdout))).value).Some?
      && parse(LastJsonLine(SplitLines(Strip(p.stdout))).value).value.JObject?
      && Truthy(Get(parse(LastJsonLine(SplitLines(Strip(p.stdout))).value).value, "success", JNull).value)
  {
  }

  /** A clean exit without a parseable JSON line is reported as invalid JSON, with the child's output. */
  lemma MissingReportFails(p: ProcessResult, parse: string -> Option<Json>)
    requires p.returncode == 0
    requires var line := LastJsonLine(SplitLines(Strip(p.stdout)));
      line.None? || parse(line.value).None?
    ensures CheckReport(p, parse) == Fail(TestErr, "Instantiation test returned invalid JSON", OutputDetails(p))
  {
  }

  /** A failing exit is reported with the child's output, whatever it printed. */
  lemma NonZeroExitFails(p: ProcessResult, parse: string -> Option<Json>)
    requires p.returncode != 0
    ensures CheckReport(p, parse) == Fail(TestErr, "Instantiation test failed", OutputDetails(p))
  {
  }

  /**
   * A failed report listing well-formed errors raises with their count and
   * one detail line per error, in the report's order.
   */
  lemma FailureListsEveryError(data: Json, errors: seq<Json>)
    requires data.JObject? && DictLookup(data.fields, "errors") == Some(JList(errors))
    requires forall e <- errors :: ErrorLine(e).Ok?
    ensures var lines := ErrorLines(errors).value;
      && |lines| == |errors|
      && (forall k :: 0 <= k < |errors| ==> lines[k] == ErrorLine(errors[k]).value)
      && InstantiationFailure(data) == Fail(TestErr, "Node instantiation failed for " + NatToString(|errors|) + " node(s)", Text(Join("\n", lines)))
  {
  }

  /** The child sees the context's packages when it has some; otherwise none in GPU mode, else the node's. */
  lemma ChildMocks(ctx: LevelContext, w: InstantiationWorld, launch: ScriptRun)
    requires ctx.paths.Some? && PackagesToMock(ctx, w).Ok?
    requires launch == LaunchFor(ctx, PackagesToMock(ctx, w).value, w.env).value
    requires w.run(launch).Ok? && CheckReport(w.run(launch).value, w.parse).Ok?
    ensures InstantiationSpec(ctx, w) == Ok(ctx)
    ensures ctx.cudaPackages != [] ==> launch.params.cudaPackages == ctx.cudaPackages
    ensures ctx.cudaPackages == [] && EnvSet(w.env, "COMFY_TEST_GPU") ==> launch.params.cudaPackages == []
    ensures ctx.cudaPackages == [] && !EnvSet(w.env, "COMFY_TEST_GPU") ==>
      Ok(launch.params.cudaPackages) == CudaPackagesOf(w.cudaFiles)
  {
  }
}
