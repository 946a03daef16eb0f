/**
 * The VALIDATION level: validates every configured workflow file against the
 * node schemas the running server reports, and raises one TestError that
 * lists every workflow that failed, with the reason.
 *
 * The server's `object_info` answer and the workflow files are inputs. A
 * file is found missing, found not to be JSON, or read as a document.
 */
module ValidationLevel {
  import opened Base
  import opened Strings
  import opened Json
  import opened Paths
  import opened Context
  import opened Validator

  /** Everything outside the level that it reads. */
  datatype ValidationWorld = ValidationWorld(
    objectInfo: Outcome<ObjectInfo>,  // `api.get_object_info()`
    files: Path -> JsonFile)          // each workflow file, read as UTF-8 (with or without BOM) JSON

  /** `_resolve_workflow_path`: a relative workflow path is taken under the node directory. */
  function ResolveWorkflowPath(nodeDir: Path, workflow: Path): (r: Path)
    ensures IsAbsolute(workflow) ==> r == workflow
    ensures !IsAbsolute(workflow) && nodeDir != "" ==> r == nodeDir + "/" + workflow
  {
    if IsAbsolute(workflow) then workflow else JoinPath(nodeDir, workflow)
  }

  /** Resolving is the path join itself: an absolute workflow path replaces the node directory. */
  lemma ResolveIsJoin(nodeDir: Path, workflow: Path)
    ensures ResolveWorkflowPath(nodeDir, workflow) == JoinPath(nodeDir, workflow)
  {
  }

  /** The `str()` of every validation error, in order. */
  function ErrorTexts(errors: seq<ValidationError>): (r: seq<string>)
    ensures |r| == |errors| && forall k :: 0 <= k < |errors| ==> r[k] == ErrorText(errors[k])
  {
    seq(|errors|, k requires 0 <= k < |errors| => ErrorText(errors[k]))
  }

  /**
   * What one workflow file contributes to the report: nothing when it
   * validates cleanly, otherwise the reason it failed.
   */
  function Verdict(info: ObjectInfo, file: JsonFile): Option<string>
  {
    match file
    case Absent => Some("File not found")
    case Malformed(error) => Some("Invalid JSON: " + error)
    case Document(data) =>
      match ValidateSpec(info, data)
      case Raised(e) => Some(ExcText(e))
      case Ok(result) =>
        if result.IsValid() then None else Some(Join("; ", ErrorTexts(result.errors)))
  }

  /** The most error lines logged for one invalid workflow. */
  const ShownErrors := 5

  /** What is logged for an invalid result: the count, the first five errors, and how many more there are. */
  function ResultLog(errors: seq<ValidationError>): seq<string>
  {
    var shown := if |errors| <= ShownErrors then errors else errors[..ShownErrors];
    ["    FAILED: " + NatToString(|errors|) + " error(s)"]
    + seq(|shown|, k requires 0 <= k < |shown| => "      " + ErrorText(shown[k]))
    + (if |errors| > ShownErrors then ["      ... and " + NatToString(|errors| - ShownErrors) + " more"] else [])
  }

  /** What is logged for one workflow after its header line. */
  function WorkflowLog(info: ObjectInfo, file: JsonFile): seq<string>
  {
    match file
    case Absent => ["    FAILED: File not found"]
    case Malformed(error) => ["    FAILED: Invalid JSON - " + error]
    case Document(data) =>
      match ValidateSpec(info, data)
      case Raised(e) => ["    FAILED: " + ExcText(e)]
      case Ok(result) => if result.IsValid() then ["    OK"] else ResultLog(result.errors)
  }

  function WorkflowHeader(idx: nat, total: nat, workflow: Path): string
  {
    "  [" + NatToString(idx) + "/" + NatToString(total) + "] Validating " + Name(workflow)
  }

  /** The log of the loop over `workflows`, numbered from 1 out of `total`. */
  function LoopLog(info: ObjectInfo, nodeDir: Path, files: Path -> JsonFile, workflows: seq<Path>, total: nat): seq<string>
  {
    if workflows == [] then []
    else
      var n := |workflows|;
      LoopLog(info, nodeDir, files, workflows[..n - 1], total)
      + [WorkflowHeader(n, total, workflows[n - 1])]
      + WorkflowLog(info, files(ResolveWorkflowPath(nodeDir, workflows[n - 1])))
  }

  /** The level's log (after its debug line). */
  function ValidationLog(ctx: LevelContext, w: ValidationWorld): seq<string>
  {
    var workflows := ctx.config.workflows;
    if workflows == [] then ["No workflows to validate"]
    else if ctx.api.None? then []
    else
      ["Validating " + NatToString(|workflows|) + " workflow(s)..."]
      + match w.objectInfo
        case Raised(_) => []
        case Ok(info) => LoopLog(info, ctx.nodeDir, w.files, workflows, |workflows|)
  }

  /** The (name, reason) pairs for the failing workflows among `workflows`, in order, each judged by `verdictOf`. */
  function FailuresBy(verdictOf: Path -> Option<string>, workflows: seq<Path>): (fs: seq<(string, string)>)
    ensures |fs| <= |workflows|
  {
    if workflows == [] then []
    else
      var last := workflows[|workflows| - 1];
      var init := FailuresBy(verdictOf, workflows[..|workflows| - 1]);
      match verdictOf(last)
      case None => init
      case Some(reason) => init + [(Name(last), reason)]
  }

  /** The verdict on the workflow file a configured path names. */
  function VerdictOf(info: ObjectInfo, nodeDir: Path, files: Path -> JsonFile): Path -> Option<string>
  {
    wf => Verdict(info, files(ResolveWorkflowPath(nodeDir, wf)))
  }

  /** The (name, reason) pairs for the failing workflows among `workflows`, in order. */
  function Failures(info: ObjectInfo, nodeDir: Path, files: Path -> JsonFile, workflows: seq<Path>): (fs: seq<(string, string)>)
    ensures |fs| <= |workflows|
  {
    FailuresBy(VerdictOf(info, nodeDir, files), workflows)
  }

  function FailureLines(fs: seq<(string, string)>): (r: seq<string>)
    ensures |r| == |fs|
  {
    seq(|fs|, k requires 0 <= k < |fs| => "  - " + fs[k].0 + ": " + fs[k].1)
  }

  /** The TestError listing the failed workflows. */
  function ValidationFailure(fs: seq<(string, string)>): Outcome<LevelContext>
  {
    Fail(TestErr, "Workflow validation failed (" + NatToString(|fs|) + " error(s))", Text(Join("\n", FailureLines(fs))))
  }

  const NoApiMessage := "VALIDATION level requires API (run REGISTRATION first)"

  /** The level: the context back unchanged, or the exception it raises. */
  function ValidationSpec(ctx: LevelContext, w: ValidationWorld): (r: Outcome<LevelContext>)
    ensures r.Ok? ==> r.value == ctx
    ensures ctx.config.workflows == [] ==> r == Ok(ctx)
    ensures ctx.config.workflows != [] && ctx.api.None? ==> r == Fail(TestErr, NoApiMessage, NoDetails)
  {
    if ctx.config.workflows == [] then Ok(ctx)
    else if ctx.api.None? then Fail(TestErr, NoApiMessage, NoDetails)
    else
      var info :- w.objectInfo;
      var fs := Failures(info, ctx.nodeDir, w.files, ctx.config.workflows);
      if fs != [] then ValidationFailure(fs) else Ok(ctx)
  }

  /** One workflow file: read it, validate it, log what happened, and say why it failed, if it did. */
  method CheckWorkflow(info: ObjectInfo, file: JsonFile) returns (v: Option<string>, log: seq<string>)
    ensures v == Verdict(info, file)
    ensures log == WorkflowLog(info, file)
  {
    match file
    case Absent =>
      return Some("File not found"), ["    FAILED: File not found"];
    case Malformed(error) =>
      return Some("Invalid JSON: " + error), ["    FAILED: Invalid JSON - " + error];
    case Document(data) =>
      var result := Validate(info, data);
      if result.Raised? {
        return Some(ExcText(result.exc)), ["    FAILED: " + ExcText(result.exc)];
      }
      if result.value.IsValid() {
        return None, ["    OK"];
      }
      v := Some(Join("; ", ErrorTexts(result.value.errors)));
      log := LogErrors(result.value.errors);
  }

  /** The logging loop over an invalid result's errors, cut off after five. */
  method LogErrors(errors: seq<ValidationError>) returns (log: seq<string>)
    ensures log == ResultLog(errors)
  {
    log := ["    FAILED: " + NatToString(|errors|) + " error(s)"];
    var shown := if |errors| <= ShownErrors then errors else errors[..ShownErrors];
    var i := 0;
    while i < |shown|
      invariant 0 <= i <= |shown|
      invariant log == ["    FAILED: " + NatToString(|errors|) + " error(s)"]
        + seq(i, k requires 0 <= k < i => "      " + ErrorText(shown[k]))
    {
      log := log + ["      " + ErrorText(shown[i])];
      i := i + 1;
    }
    if |errors| > ShownErrors {
      log := log + ["      ... and " + NatToString(|errors| - ShownErrors) + " more"];
    }
  }

  /** `run`: validates the workflows one by one, logging each and collecting the failures. */
  method Run(ctx: LevelContext, w: ValidationWorld) returns (r: Outcome<LevelContext>, log: seq<string>)
    ensures r == ValidationSpec(ctx, w)
    ensures log == ValidationLog(ctx, w)
  {
    var workflows := ctx.config.workflows;
    if workflows == [] {
      return Ok(ctx), ["No workflows to validate"];
    }
    if ctx.api.None? {
      return Fail(TestErr, NoApiMessage, NoDetails), [];
    }
    log := ["Validating " + NatToString(|workflows|) + " workflow(s)..."];
    if w.objectInfo.Raised? {
      return Raised(w.objectInfo.exc), log;
    }
    var info := w.objectInfo.value;
    var failures: seq<(string, string)> := [];
    var loopLog: seq<string> := [];
    var i := 0;
    while i < |workflows|
      invariant 0 <= i <= |workflows|
      invariant failures == Failures(info, ctx.nodeDir, w.files, workflows[..i])
      invariant loopLog == LoopLog(info, ctx.nodeDir, w.files, workflows[..i], |workflows|)
    {
      assert workflows[..i + 1][..i] == workflows[..i];
      loopLog := loopLog + [WorkflowHeader(i + 1, |workflows|, workflows[i])];
      var v, lines := CheckWorkflow(info, w.files(ResolveWorkflowPath(ctx.nodeDir, workflows[i])));
      loopLog := loopLog + lines;
      if v.Some? {
        failures := failures + [(Name(workflows[i]), v.value)];
      }
      i := i + 1;
    }
    assert workflows[..i] == workflows;
    log := log + loopLog;
    if failures != [] {
      return ValidationFailure(failures), log;
    }
    return Ok(ctx), log;
  }

  // ----- properties ---------------------------------------------------------------

  /**
   * A missing file fails with "File not found", an unreadable one with the
   * decoder's message, and a validator that raises with the exception's text.
   */
  lemma VerdictCases(info: ObjectInfo, file: JsonFile)
    ensures file.Absent? ==> Verdict(info, file) == Some("File not found")
    ensures file.Malformed? ==> Verdict(info, file) == Some("Invalid JSON: " + file.error)
    ensures file.Document? && ValidateSpec(info, file.data).Raised? ==>
      Verdict(info, file) == Some(ExcText(ValidateSpec(info, file.data).exc))
  {
  }

  /** A workflow passes exactly when it is a JSON document that validates with no error in any phase. */
  lemma VerdictNoneIff(info: ObjectInfo, file: JsonFile)
    ensures Verdict(info, file).None? <==>
      && file.Document?
      && SchemaPhase(info, file.data) == Ok([])
      && GraphPhase(info, file.data) == Ok([])
      && IntrospectionPhase(info, file.data) == Ok([])
  {
    if file.Document? {
      ValidateCombinesPhases(info, file.data);
    }
  }

  /** Every reported failure is a failing workflow's, and every failing workflow is reported. */
  lemma {:induction false} FailuresByMembers(verdictOf: Path -> Option<string>, workflows: seq<Path>, name: string, reason: string)
    ensures (name, reason) in FailuresBy(verdictOf, workflows) <==>
      exists wf <- workflows :: Name(wf) == name && verdictOf(wf) == Some(reason)
  {
    if workflows != [] {
      var init := workflows[..|workflows| - 1];
      var last := workflows[|workflows| - 1];
      FailuresByMembers(verdictOf, init, name, reason);
      assert workflows == init + [last];
    }
  }

  /** Nothing is reported exactly when every workflow passes. */
  lemma {:induction false} FailuresByEmptyIff(verdictOf: Path -> Option<string>, workflows: seq<Path>)
    ensures FailuresBy(verdictOf, workflows) == [] <==> forall wf <- workflows :: verdictOf(wf).None?
  {
    if workflows != [] {
      var init := workflows[..|workflows| - 1];
      var last := workflows[|workflows| - 1];
      FailuresByEmptyIff(verdictOf, init);
      assert workflows == init + [last];
    }
  }

  /**
   * Each failure names a workflow and carries that workflow's reason, and
   * every failing workflow is reported.
   */
  lemma FailuresAreFailingWorkflows(info: ObjectInfo, nodeDir: Path, files: Path -> JsonFile,
                                    workflows: seq<Path>, name: string, reason: string)
    ensures (name, reason) in Failures(info, nodeDir, files, workflows) <==>
      exists wf <- workflows :: Name(wf) == name && Verdict(info, files(ResolveWorkflowPath(nodeDir, wf))) == Some(reason)
  {
    FailuresByMembers(VerdictOf(info, nodeDir, files), workflows, name, reason);
  }

  /** No failure is reported exactly when every workflow passes. */
  lemma FailuresEmptyIff(info: ObjectInfo, nodeDir: Path, files: Path -> JsonFile, workflows: seq<Path>)
    ensures Failures(info, nodeDir, files, workflows) == [] <==>
      forall wf <- workflows :: Verdict(info, files(ResolveWorkflowPath(nodeDir, wf))).None?
  {
    FailuresByEmptyIff(VerdictOf(info, nodeDir, files), workflows);
  }

  /**
   * An invalid workflow logs its error count, at most five errors, and one
   * "... and N more" line when more were found.
   */
  lemma ResultLogBounded(errors: seq<ValidationError>)
    requires errors != []
    ensures |ResultLog(errors)| <= ShownErrors + 2
    ensures ResultLog(errors)[0] == "    FAILED: " + NatToString(|errors|) + " error(s)"
    ensures |errors| > ShownErrors ==> ResultLog(errors)[ShownErrors + 1] == "      ... and " + NatToString(|errors| - ShownErrors) + " more"
    ensures |errors| <= ShownErrors ==> ResultLog(errors)[1..] == seq(|errors|, k requires 0 <= k < |errors| => "      " + ErrorText(errors[k]))
  {
  }

  /**
   * The level passes exactly when there is nothing to validate, or the API
   * is there, the schemas were fetched and every workflow passes.
   */
  lemma ValidationOkIff(ctx: LevelContext, w: ValidationWorld)
    ensures ValidationSpec(ctx, w).Ok? <==>
      || ctx.config.workflows == []
      || (&& ctx.api.Some?
          && w.objectInfo.Ok?
          && forall wf <- ctx.config.workflows :: Verdict(w.objectInfo.value, w.files(ResolveWorkflowPath(ctx.nodeDir, wf))).None?)
  {
    if ctx.config.workflows != [] && ctx.api.Some? && w.objectInfo.Ok? {
      FailuresEmptyIff(w.objectInfo.value, ctx.nodeDir, w.files, ctx.config.workflows);
    }
  }
}
