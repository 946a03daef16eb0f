/**
 * Node discovery in a child interpreter: the child imports the node package
 * under the test environment's Python and prints, as its last JSON line,
 * either the keys of NODE_CLASS_MAPPINGS or the error that stopped it.
 *
 * The child is an input: `run` says how a launch ends (its exit code and
 * captured output, or the timeout), and `parse` is `json.loads` (None for
 * text that is not JSON).
 */
module NodeDiscovery {
  import opened Base
  import opened Strings
  import opened Json
  import opened Paths
  import opened InstantiationLevel

  /** Seconds the child may run. */
  const DiscoveryTimeout := 60

  /** One launch of the child: interpreter, working directory, script values, timeout. */
  datatype Launch = Launch(python: Path, cwd: Path, nodeDir: string, cudaPackages: seq<string>, timeout: nat)

  /** How the child ends: it finished, or `subprocess.run` gave up after the timeout. */
  datatype ProbeEnd = Finished(result: ProcessResult) | TimedOut

  /** The launch for a node directory; the script receives the directory with forward slashes. */
  function DiscoveryLaunch(nodePath: Path, python: Path, cudaPackages: seq<string>, comfyuiDir: Path): (l: Launch)
    ensures l.python == python && l.cwd == comfyuiDir && l.cudaPackages == cudaPackages
    ensures l.timeout == DiscoveryTimeout
    ensures |l.nodeDir| == |nodePath| && '\\' !in l.nodeDir
    ensures forall k :: 0 <= k < |nodePath| && nodePath[k] != '\\' ==> l.nodeDir[k] == nodePath[k]
  {
    Launch(python, comfyuiDir, ReplaceChar(nodePath, '\\', '/'), cudaPackages, DiscoveryTimeout)
  }

  /** The failure a report with a falsy `success` raises: the child's `error`, or "Unknown error". */
  function ImportFailure(data: Json): (r: Outcome<Json>)
    requires data.JObject?
  {
    var error := Get(data, "error", JString("Unknown error")).value;
    Fail(SetupErr, "Failed to import custom node", Text("Import error: " + Str(error)))
  }

  /**
   * `discover_nodes_subprocess` after the launch: the node names the child
   * reported (the `nodes` entry, or an empty list), or the SetupError for a
   * timeout, a non-zero exit, output without a JSON line, or a failed import.
   */
  function Discovery(end: ProbeEnd, parse: string -> Option<Json>): (r: Outcome<Json>)
  {
    match end
    case TimedOut => Fail(SetupErr, "Node discovery timed out", Text("The node import took longer than 60 seconds"))
    case Finished(p) =>
      if p.returncode != 0 then Fail(SetupErr, "Failed to import custom node", OutputDetails(p))
      else
        var line := LastJsonLine(SplitLines(Strip(p.stdout)));
        if line.None? || parse(line.value).None? then
          Fail(SetupErr, "Node discovery returned invalid JSON", OutputDetails(p))
        else
          var data := parse(line.value).value;
          var success :- Get(data, "success", JNull);
          if !Truthy(success) then ImportFailure(data)
          else Get(data, "nodes", JList([]))
  }

  /** The report the child printed last, if it printed one that parses. */
  function Report(p: ProcessResult, parse: string -> Option<Json>): Option<Json>
  {
    var line := LastJsonLine(SplitLines(Strip(p.stdout)));
    if line.None? then None else parse(line.value)
  }

  /** The whole routine: launch the child, then read its result. */
  method DiscoverNodes(nodePath: Path, python: Path, cudaPackages: seq<string>, comfyuiDir: Path,
                       run: Launch -> ProbeEnd, parse: string -> Option<Json>) returns (r: Outcome<Json>)
    ensures r == Discovery(run(DiscoveryLaunch(nodePath, python, cudaPackages, comfyuiDir)), parse)
  {
    var end := run(DiscoveryLaunch(nodePath, python, cudaPackages, comfyuiDir));
    if end.TimedOut? {
      return Fail(SetupErr, "Node discovery timed out", Text("The node import took longer than 60 seconds"));
    }
    var p := end.result;
    if p.returncode != 0 {
      return Fail(SetupErr, "Failed to import custom node", OutputDetails(p));
    }
    var line := FindJsonLine(p.stdout);
    if line.None? || parse(line.value).None? {
      return Fail(SetupErr, "Node discovery returned invalid JSON", OutputDetails(p));
    }
    var data := parse(line.value).value;
    var success :- Get(data, "success", JNull);
    if !Truthy(success) {
      var failure := ImportFailure(data);
      return failure;
    }
    r := Get(data, "nodes", JList([]));
  }

  // ----- properties ------------------------------------------------------------------

  /**
   * Discovery returns node names exactly when the child finished with exit
   * code 0 and its last JSON line is a report whose `success` is truthy;
   * the names are the report's `nodes`, or an empty list without one.
   */
  lemma DiscoveryOkIff(end: ProbeEnd, parse: string -> Option<Json>)
    ensures Discovery(end, parse).Ok? <==>
      && end.Finished? && end.result.returncode == 0
      && Report(end.result, parse).Some? && Report(end.result, parse).value.JObject?
      && Truthy(Get(Report(end.result, parse).value, "success", JNull).value)
    ensures Discovery(end, parse).Ok? ==>
      var fields := Report(end.result, parse).value.fields;
      Discovery(end, parse).value == (if DictLookup(fields, "nodes").Some? then DictLookup(fields, "nodes").value else JList([]))
  {
  }

  /** A timeout and a non-zero exit each raise their own SetupError, whatever was printed. */
  lemma DiscoveryProcessFailures(end: ProbeEnd, parse: string -> Option<Json>)
    ensures end.TimedOut? ==>
      Discovery(end, parse).RaisedKind(SetupErr) && Discovery(end, parse).exc.message == "Node discovery timed out"
    ensures end.Finished? && end.result.returncode != 0 ==>
      && Discovery(end, parse).RaisedKind(SetupErr)
      && Discovery(end, parse).exc.message == "Failed to import custom node"
      && Discovery(end, parse).exc.details == OutputDetails(end.result)
  {
  }

  /** Output whose lines never start with "{" is invalid JSON, whatever came before. */
  lemma NoJsonLineIsInvalid(p: ProcessResult, parse: string -> Option<Json>)
    requires p.returncode == 0
    requires forall k :: 0 <= k < |SplitLines(Strip(p.stdout))| ==> !IsJsonLine(SplitLines(Strip(p.stdout))[k])
    ensures Discovery(Finished(p), parse) == Fail(SetupErr, "Node discovery returned invalid JSON", OutputDetails(p))
  {
  }

  /** A report with a falsy `success` raises SetupError carrying its `error`, or "Unknown error" without one. */
  lemma FailedImportCarriesError(p: ProcessResult, parse: string -> Option<Json>)
    requires p.returncode == 0
    requires Report(p, parse).Some? && Report(p, parse).value.JObject?
    requires !Truthy(Get(Report(p, parse).value, "success", JNull).value)
    ensures var fields := Report(p, parse).value.fields;
      var error := if DictLookup(fields, "error").Some? then DictLookup(fields, "error").value else JString("Unknown error");
      Discovery(Finished(p), parse) == Fail(SetupErr, "Failed to import custom node", Text("Import error: " + Str(error)))
  {
  }
}
