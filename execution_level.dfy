/**
 * The EXECUTION level: runs every configured workflow (or the one the filter
 * names) on the running server, skipping the GPU workflows when no GPU is
 * present. It records one result per workflow, writes the run summary, and
 * raises one WorkflowExecutionError that lists every failed workflow.
 *
 * How each workflow run ends is an input. With screenshots enabled, the
 * capture collaborator runs the workflow from its resolved path; without
 * them, the workflow runner runs it from its configured path and returns
 * its result dict (`Workflow.RunResultIsDict`). Which of the two applies is
 * an input too, as is whether a GPU is present.
 */
module ExecutionLevel {
  import opened Base
  import opened Strings
  import opened Json
  import opened Paths
  import opened Context
  import opened ValidationLevel

  /** Everything outside the level that it reads. */
  datatype ExecutionWorld = ExecutionWorld(
    gpuAvailable: bool,            // `has_gpu()`
    screenshots: bool,             // the capture collaborator could be set up
    capture: Path -> Outcome<()>,  // how capturing a workflow (from its resolved path) ends
    run: Path -> Outcome<Json>)    // what the runner's `run_workflow` (from the configured path) returns or raises

  datatype Status = Passed | Failed | Skipped

  function StatusText(s: Status): string
  {
    match s
    case Passed => "pass"
    case Failed => "fail"
    case Skipped => "skipped"
  }

  /** One entry of the results file: the workflow's stem, its status and its error text. */
  datatype WorkflowRecord = WorkflowRecord(name: string, status: Status, error: Option<string>)

  /** The `summary` object of the results file. */
  datatype Summary = Summary(total: nat, passed: nat, failed: nat)

  /** What the level writes to `results.json` (timestamp, hardware and resource figures left out). */
  datatype Report = Report(platform: string, summary: Summary, workflows: seq<WorkflowRecord>)

  /** The level's outcome, and the report it wrote if it got that far. */
  datatype Execution = Execution(outcome: Outcome<LevelContext>, report: Option<Report>)

  const GpuSkipReason := "GPU required but not available"

  // ----- the workflow filter ---------------------------------------------------------

  /**
   * The filter as written: it keeps the workflows whose file name equals the
   * filter. Its other test compares a path object with a string, which is
   * never equal in Python, so it keeps nothing else.
   */
  function FilterAsWritten(workflows: seq<Path>, f: string): (r: seq<Path>)
    ensures forall w <- r :: w in workflows && Name(w) == f
  {
    if workflows == [] then []
    else (if Name(workflows[0]) == f then [workflows[0]] else []) + FilterAsWritten(workflows[1..], f)
  }

  /** The filter as intended: a workflow is kept when its path, or its file name, is the filter. */
  predicate Matches(w: Path, f: string)
  {
    w == f || Name(w) == f
  }

  function Filter(workflows: seq<Path>, f: string): (r: seq<Path>)
    ensures |r| <= |workflows|
  {
    if workflows == [] then []
    else (if Matches(workflows[0], f) then [workflows[0]] else []) + Filter(workflows[1..], f)
  }

  /** The filter keeps exactly the matching workflows. */
  lemma {:induction false} FilterKeepsMatches(workflows: seq<Path>, f: string, w: Path)
    ensures w in Filter(workflows, f) <==> w in workflows && Matches(w, f)
  {
    if workflows != [] {
      FilterKeepsMatches(workflows[1..], f, w);
      assert workflows == [workflows[0]] + workflows[1..];
    }
  }

  // ----- handling a failed run ---------------------------------------------------------

  /** The exceptions the loop's `except` clause catches: everything once screenshots are disabled. */
  predicate Caught(e: Exc, screenshots: bool)
  {
    !screenshots || (e.Typed? && e.kind in {WorkflowErr, TimeoutErr, ScreenshotErr})
  }

  /**
   * The handler as written: a caught exception's text is recorded, but
   * reading its `message` attribute raises AttributeError for any exception
   * that is not a TestError.
   */
  function HandleAsWritten(e: Exc, screenshots: bool): (r: Outcome<string>)
    ensures r.Ok? <==> Caught(e, screenshots) && e.Typed?
  {
    if !Caught(e, screenshots) then Raised(e)
    else if e.Untyped? then PyFail("AttributeError", "'" + e.pyType + "' object has no attribute 'message'")
    else Ok(ExcText(e))
  }

  /** The handler as intended: every caught exception is recorded with its text. */
  function Handle(e: Exc, screenshots: bool): (r: Outcome<string>)
    ensures r.Ok? <==> Caught(e, screenshots)
    ensures r.Ok? ==> r.value == ExcText(e)
    ensures r.Raised? ==> r.exc == e
  {
    if !Caught(e, screenshots) then Raised(e) else Ok(ExcText(e))
  }

  // ----- the loop ---------------------------------------------------------------------

  /** The records and the (name, error) failures so far. */
  datatype Progress = Progress(records: seq<WorkflowRecord>, errors: seq<(string, string)>)

  /** Whether a run finished or raised, its result set aside. */
  function Finished(o: Outcome<Json>): (r: Outcome<()>)
    ensures r.Ok? <==> o.Ok?
    ensures r.Raised? ==> r.exc == o.exc
  {
    match o
    case Ok(_) => Ok(())
    case Raised(e) => Raised(e)
  }

  /** How the try block around one workflow run ends, by the mode the level runs in. */
  function Attempt(nodeDir: Path, w: ExecutionWorld, workflow: Path): Outcome<()>
  {
    if w.screenshots then w.capture(ResolveWorkflowPath(nodeDir, workflow)) else Finished(w.run(workflow))
  }

  /**
   * The runner's side of the try block as written: once `run_workflow`
   * returns, the block logs `result.status`, an attribute that the returned
   * dict does not have (no JSON value has one), so a finished run raises
   * AttributeError inside the block. An exception of the run itself is
   * unchanged.
   */
  function ReadStatus(o: Outcome<Json>): (r: Outcome<Json>)
    ensures r.Raised?
    ensures o.Raised? ==> r == o
    ensures o.Ok? ==> r == PyFail("AttributeError", "'" + TypeName(o.value) + "' object has no attribute '" + "status" + "'")
  {
    match o
    case Ok(result) => AttributeError(result, "status")
    case Raised(e) => Raised(e)
  }

  /** The world the level as written sees: every run followed by the `.status` read. */
  function AsWrittenWorld(w: ExecutionWorld): (ws: ExecutionWorld)
    ensures ws.gpuAvailable == w.gpuAvailable && ws.screenshots == w.screenshots && ws.capture == w.capture
    ensures forall p :: ws.run(p) == ReadStatus(w.run(p))
  {
    w.(run := p => ReadStatus(w.run(p)))
  }

  /** One workflow: skipped, passed, failed and recorded, or an exception that ends the level. */
  function Step(p: Progress, nodeDir: Path, gpu: seq<Path>, w: ExecutionWorld, workflow: Path,
                handle: (Exc, bool) -> Outcome<string>): Outcome<Progress>
  {
    if workflow in gpu && !w.gpuAvailable then
      Ok(Progress(p.records + [WorkflowRecord(Stem(workflow), Skipped, Some(GpuSkipReason))], p.errors))
    else
      match Attempt(nodeDir, w, workflow)
      case Ok(_) => Ok(Progress(p.records + [WorkflowRecord(Stem(workflow), Passed, None)], p.errors))
      case Raised(e) =>
        var msg :- handle(e, w.screenshots);
        Ok(Progress(p.records + [WorkflowRecord(Stem(workflow), Failed, Some(msg))], p.errors + [(Name(workflow), msg)]))
  }

  /** The loop over `workflows`, in order; the first exception that escapes the handler ends it. */
  function Loop(nodeDir: Path, gpu: seq<Path>, w: ExecutionWorld, workflows: seq<Path>,
                handle: (Exc, bool) -> Outcome<string>): Outcome<Progress>
  {
    if workflows == [] then Ok(Progress([], []))
    else
      var p :- Loop(nodeDir, gpu, w, workflows[..|workflows| - 1], handle);
      Step(p, nodeDir, gpu, w, workflows[|workflows| - 1], handle)
  }

  // ----- summary and error --------------------------------------------------------------

  function CountStatus(records: seq<WorkflowRecord>, s: Status): (n: nat)
    ensures n <= |records|
  {
    if records == [] then 0
    else CountStatus(records[..|records| - 1], s) + (if records[|records| - 1].status == s then 1 else 0)
  }

  /** The summary counts: every record in the total, passes and failures apart. */
  function SummaryOf(records: seq<WorkflowRecord>): (s: Summary)
    ensures s.total == |records|
    ensures s.passed + s.failed <= s.total
  {
    CountSkippedApart(records);
    Summary(|records|, CountStatus(records, Passed), CountStatus(records, Failed))
  }

  /** Every record has one status, so the three counts add up to the total. */
  lemma {:induction false} CountSkippedApart(records: seq<WorkflowRecord>)
    ensures CountStatus(records, Passed) + CountStatus(records, Failed) + CountStatus(records, Skipped) == |records|
  {
    if records != [] {
      CountSkippedApart(records[..|records| - 1]);
    }
  }

  /** No record has status `s` exactly when none is counted. */
  lemma {:induction false} CountStatusZero(records: seq<WorkflowRecord>, s: Status)
    ensures CountStatus(records, s) == 0 <==> forall k :: 0 <= k < |records| ==> records[k].status != s
  {
    if records != [] {
      var init := records[..|records| - 1];
      CountStatusZero(init, s);
      assert forall k :: 0 <= k < |init| ==> init[k] == records[k];
    }
  }

  function ErrorLines(errors: seq<(string, string)>): (r: seq<string>)
    ensures |r| == |errors|
  {
    seq(|errors|, k requires 0 <= k < |errors| => errors[k].0 + ": " + errors[k].1)
  }

  /** The level, given the filter and the handler it uses. */
  function ExecuteWith(ctx: LevelContext, w: ExecutionWorld, filter: (seq<Path>, string) -> seq<Path>,
                       handle: (Exc, bool) -> Outcome<string>): Execution
  {
    var configured := ctx.config.workflows;
    if configured == [] || ctx.platformName in ctx.config.skipWorkflowPlatforms then Execution(Ok(ctx), None)
    else
      var workflows := if ctx.workflowFilter.Some? && ctx.workflowFilter.value != "" then filter(configured, ctx.workflowFilter.value)
                       else configured;
      if workflows == [] then Execution(Fail(TestErr, "Workflow not found: " + ctx.workflowFilter.value, NoDetails), None)
      else
        match Loop(ctx.nodeDir, ctx.config.gpuWorkflows, w, workflows, handle)
        case Raised(e) => Execution(Raised(e), None)
        case Ok(p) =>
          var report := Report(ctx.platformName, SummaryOf(p.records), p.records);
          if p.errors != [] then
            Execution(Fail(WorkflowExecutionErr, "Workflow execution failed (" + NatToString(|p.errors|) + " error(s))",
                           Lines(ErrorLines(p.errors))), Some(report))
          else Execution(Ok(ctx), Some(report))
  }

  /** The level as written: the name-only filter, the `.status` read after a run, and the `e.message` handler. */
  function ExecuteAsWritten(ctx: LevelContext, w: ExecutionWorld): (x: Execution)
    ensures x.outcome.Ok? ==> x.outcome.value == ctx
  {
    ExecuteWith(ctx, AsWrittenWorld(w), FilterAsWritten, HandleAsWritten)
  }

  /** The level as intended: path-or-name filter, every caught exception recorded. */
  function ExecutionSpec(ctx: LevelContext, w: ExecutionWorld): (x: Execution)
    ensures x.outcome.Ok? ==> x.outcome.value == ctx
  {
    ExecuteWith(ctx, w, Filter, Handle)
  }

  // ----- the method ---------------------------------------------------------------------

  /** One pass of the loop body. */
  method RunOne(p: Progress, nodeDir: Path, gpu: seq<Path>, w: ExecutionWorld, workflow: Path)
    returns (r: Outcome<Progress>)
    ensures r == Step(p, nodeDir, gpu, w, workflow, Handle)
  {
    if workflow in gpu && !w.gpuAvailable {
      return Ok(Progress(p.records + [WorkflowRecord(Stem(workflow), Skipped, Some(GpuSkipReason))], p.errors));
    }
    var attempt: Outcome<()>;
    if w.screenshots {
      attempt := w.capture(ResolveWorkflowPath(nodeDir, workflow));
    } else {
      var result := w.run(workflow);
      attempt := Finished(result);
    }
    if attempt.Ok? {
      return Ok(Progress(p.records + [WorkflowRecord(Stem(workflow), Passed, None)], p.errors));
    }
    var e := attempt.exc;
    if !Caught(e, w.screenshots) {
      return Raised(e);
    }
    var msg := ExcText(e);
    return Ok(Progress(p.records + [WorkflowRecord(Stem(workflow), Failed, Some(msg))], p.errors + [(Name(workflow), msg)]));
  }

  /** `run`: filters, runs each workflow in turn, summarises and raises on any failure. */
  method Run(ctx: LevelContext, w: ExecutionWorld) returns (x: Execution)
    ensures x == ExecutionSpec(ctx, w)
  {
    var workflows := ctx.config.workflows;
    if workflows == [] || ctx.platformName in ctx.config.skipWorkflowPlatforms {
      return Execution(Ok(ctx), None);
    }
    if ctx.workflowFilter.Some? && ctx.workflowFilter.value != "" {
      workflows := Filter(workflows, ctx.workflowFilter.value);
      if workflows == [] {
        return Execution(Fail(TestErr, "Workflow not found: " + ctx.workflowFilter.value, NoDetails), None);
      }
    }
    var loop := RunLoop(ctx.nodeDir, ctx.config.gpuWorkflows, w, workflows);
    if loop.Raised? {
      return Execution(Raised(loop.exc), None);
    }
    var p := loop.value;
    var report := Report(ctx.platformName, SummaryOf(p.records), p.records);
    if p.errors != [] {
      return Execution(Fail(WorkflowExecutionErr, "Workflow execution failed (" + NatToString(|p.errors|) + " error(s))",
                            Lines(ErrorLines(p.errors))), Some(report));
    }
    return Execution(Ok(ctx), Some(report));
  }

  /** The loop over the workflows, one `RunOne` per workflow until an exception escapes. */
  method RunLoop(nodeDir: Path, gpu: seq<Path>, w: ExecutionWorld, workflows: seq<Path>) returns (r: Outcome<Progress>)
    ensures r == Loop(nodeDir, gpu, w, workflows, Handle)
  {
    var p := Progress([], []);
    var i := 0;
    while i < |workflows|
      invariant 0 <= i <= |workflows|
      invariant Loop(nodeDir, gpu, w, workflows[..i], Handle) == Ok(p)
    {
      assert workflows[..i + 1][..i] == workflows[..i];
      var next := RunOne(p, nodeDir, gpu, w, workflows[i]);
      if next.Raised? {
        assert Loop(nodeDir, gpu, w, workflows[..i + 1], Handle) == next;
        LoopKeepsRaise(nodeDir, gpu, w, workflows, i + 1, Handle);
        return next;
      }
      p := next.value;
      i := i + 1;
    }
    assert workflows[..i] == workflows;
    return Ok(p);
  }

  /** Once a prefix of the loop raises, the whole loop raises the same exception. */
  lemma {:induction false} LoopKeepsRaise(nodeDir: Path, gpu: seq<Path>, w: ExecutionWorld, workflows: seq<Path>, n: nat,
                                          handle: (Exc, bool) -> Outcome<string>)
    requires n <= |workflows|
    requires Loop(nodeDir, gpu, w, workflows[..n], handle).Raised?
    ensures Loop(nodeDir, gpu, w, workflows, handle) == Loop(nodeDir, gpu, w, workflows[..n], handle)
    decreases |workflows| - n
  {
    if n < |workflows| {
      assert workflows[..n + 1][..n] == workflows[..n];
      LoopKeepsRaise(nodeDir, gpu, w, workflows, n + 1, handle);
    } else {
      assert workflows[..n] == workflows;
    }
  }

  // ----- properties ---------------------------------------------------------------------

  /**
   * The record a workflow should get: named by its stem, "skipped" exactly
   * for a GPU workflow without a GPU, "pass" exactly for a run that ended
   * normally.
   */
  predicate RecordFor(r: WorkflowRecord, nodeDir: Path, gpu: seq<Path>, w: ExecutionWorld, workflow: Path)
  {
    && r.name == Stem(workflow)
    && (r.status == Skipped <==> workflow in gpu && !w.gpuAvailable)
    && (r.status == Passed <==> !(workflow in gpu && !w.gpuAvailable) && Attempt(nodeDir, w, workflow).Ok?)
  }

  /** A step appends the workflow's record, and a failure entry exactly when that record failed. */
  lemma StepRecord(p: Progress, nodeDir: Path, gpu: seq<Path>, w: ExecutionWorld, workflow: Path)
    requires Step(p, nodeDir, gpu, w, workflow, Handle).Ok?
    ensures var q := Step(p, nodeDir, gpu, w, workflow, Handle).value;
      && |q.records| == |p.records| + 1
      && q.records[..|p.records|] == p.records
      && RecordFor(q.records[|p.records|], nodeDir, gpu, w, workflow)
      && |q.errors| == |p.errors| + (if q.records[|p.records|].status == Failed then 1 else 0)
  {
    var q := Step(p, nodeDir, gpu, w, workflow, Handle).value;
    assert q.records[..|p.records|] == p.records;
  }

  /** The last workflow of a completed loop appends its record to those of the others. */
  lemma LoopLast(nodeDir: Path, gpu: seq<Path>, w: ExecutionWorld, workflows: seq<Path>)
    requires workflows != [] && Loop(nodeDir, gpu, w, workflows, Handle).Ok?
    ensures var init := workflows[..|workflows| - 1];
      && Loop(nodeDir, gpu, w, init, Handle).Ok?
      && var p0 := Loop(nodeDir, gpu, w, init, Handle).value;
         var p := Loop(nodeDir, gpu, w, workflows, Handle).value;
         && |p.records| == |p0.records| + 1
         && p.records[..|p0.records|] == p0.records
         && RecordFor(p.records[|p0.records|], nodeDir, gpu, w, workflows[|workflows| - 1])
         && |p.errors| == |p0.errors| + (if p.records[|p0.records|].status == Failed then 1 else 0)
  {
    var init := workflows[..|workflows| - 1];
    var p0 := Loop(nodeDir, gpu, w, init, Handle).value;
    StepRecord(p0, nodeDir, gpu, w, workflows[|workflows| - 1]);
  }

  /** A pairwise property of two lists survives appending one more pair that has it. */
  lemma PairwiseSnoc<R, W>(rs0: seq<R>, rs: seq<R>, ws: seq<W>, ok: (R, W) -> bool)
    requires |rs| == |ws| == |rs0| + 1 && rs[..|rs0|] == rs0
    requires forall k :: 0 <= k < |rs0| ==> ok(rs0[k], ws[k])
    requires ok(rs[|rs0|], ws[|rs0|])
    ensures forall k :: 0 <= k < |ws| ==> ok(rs[k], ws[k])
  {
    forall k | 0 <= k < |ws|
      ensures ok(rs[k], ws[k])
    {
      if k < |rs0| {
        assert rs[k] == rs[..|rs0|][k];
      }
    }
  }

  /** Appending the last workflow's record keeps the per-workflow records and the failure count. */
  lemma RecordsExtend(p0: Progress, p: Progress, nodeDir: Path, gpu: seq<Path>, w: ExecutionWorld, workflows: seq<Path>)
    requires workflows != [] && |p0.records| == |workflows| - 1
    requires forall k :: 0 <= k < |p0.records| ==> RecordFor(p0.records[k], nodeDir, gpu, w, workflows[k])
    requires |p0.errors| == CountStatus(p0.records, Failed)
    requires |p.records| == |p0.records| + 1 && p.records[..|p0.records|] == p0.records
    requires RecordFor(p.records[|p0.records|], nodeDir, gpu, w, workflows[|workflows| - 1])
    requires |p.errors| == |p0.errors| + (if p.records[|p0.records|].status == Failed then 1 else 0)
    ensures forall k :: 0 <= k < |workflows| ==> RecordFor(p.records[k], nodeDir, gpu, w, workflows[k])
    ensures |p.errors| == CountStatus(p.records, Failed)
  {
    var n := |p0.records|;
    assert p.records[..n] == p0.records;
    assert CountStatus(p.records, Failed) == CountStatus(p0.records, Failed) + (if p.records[n].status == Failed then 1 else 0);
    var ok := (r, wf) => RecordFor(r, nodeDir, gpu, w, wf);
    PairwiseSnoc(p0.records, p.records, workflows, ok);
  }

  /**
   * A completed loop has one record per workflow, in order, each the record
   * that workflow should get; there is one failure entry per failed record.
   */
  lemma {:induction false} LoopRecordsEveryWorkflow(nodeDir: Path, gpu: seq<Path>, w: ExecutionWorld, workflows: seq<Path>)
    requires Loop(nodeDir, gpu, w, workflows, Handle).Ok?
    ensures var p := Loop(nodeDir, gpu, w, workflows, Handle).value;
      && |p.records| == |workflows|
      && (forall k :: 0 <= k < |workflows| ==> RecordFor(p.records[k], nodeDir, gpu, w, workflows[k]))
      && |p.errors| == CountStatus(p.records, Failed)
  {
    if workflows != [] {
      var init := workflows[..|workflows| - 1];
      LoopLast(nodeDir, gpu, w, workflows);
      LoopRecordsEveryWorkflow(nodeDir, gpu, w, init);
      RecordsExtend(Loop(nodeDir, gpu, w, init, Handle).value, Loop(nodeDir, gpu, w, workflows, Handle).value,
                    nodeDir, gpu, w, workflows);
    }
  }

  /** Without screenshots every exception is caught, so every workflow is run and recorded. */
  lemma {:induction false} LoopCompletesWithoutScreenshots(nodeDir: Path, gpu: seq<Path>, w: ExecutionWorld, workflows: seq<Path>)
    requires !w.screenshots
    ensures Loop(nodeDir, gpu, w, workflows, Handle).Ok?
  {
    if workflows != [] {
      LoopCompletesWithoutScreenshots(nodeDir, gpu, w, workflows[..|workflows| - 1]);
    }
  }

  /**
   * The summary counts the records: the failures are the failed records, and
   * total = passed + failed + skipped.
   */
  lemma SummaryCounts(ctx: LevelContext, w: ExecutionWorld)
    requires ExecutionSpec(ctx, w).report.Some?
    ensures var r := ExecutionSpec(ctx, w).report.value;
      && r.summary.total == |r.workflows|
      && r.summary.total == r.summary.passed + r.summary.failed + CountStatus(r.workflows, Skipped)
  {
    var r := ExecutionSpec(ctx, w).report.value;
    CountSkippedApart(r.workflows);
  }

  /**
   * The level passes exactly when there is nothing to run or the platform
   * skips workflows, or the filter leaves some workflow and none fails.
   */
  lemma ExecutionOkIff(ctx: LevelContext, w: ExecutionWorld)
    ensures var configured := ctx.config.workflows;
      var workflows := if ctx.workflowFilter.Some? && ctx.workflowFilter.value != "" then Filter(configured, ctx.workflowFilter.value) else configured;
      ExecutionSpec(ctx, w).outcome.Ok? <==>
        || configured == []
        || ctx.platformName in ctx.config.skipWorkflowPlatforms
        || (&& workflows != []
            && Loop(ctx.nodeDir, ctx.config.gpuWorkflows, w, workflows, Handle).Ok?
            && Loop(ctx.nodeDir, ctx.config.gpuWorkflows, w, workflows, Handle).value.errors == [])
  {
  }

  // ----- the two discrepancies ----------------------------------------------------------------

  /**
   * A filter naming a workflow by its full configured path selects nothing as
   * written, so the level raises "Workflow not found"; the intended filter
   * selects that workflow.
   */
  lemma FilterByPathFinding()
    ensures FilterAsWritten(["/node/workflows/basic.json"], "/node/workflows/basic.json") == []
    ensures Filter(["/node/workflows/basic.json"], "/node/workflows/basic.json") == ["/node/workflows/basic.json"]
  {
    BasicName();
  }

  /** The file name of the example workflow. */
  lemma BasicName()
    ensures Name("/node/workflows/basic.json") == "basic.json"
  {
    assert "/node/workflows/basic.json" == "/node/workflows/" + "basic.json";
    NameOfSuffix("/node/workflows/", "basic.json");
  }

  /** A context that runs one workflow, with screenshots disabled. */
  function OneWorkflowContext(): LevelContext
  {
    var config := RunConfig([], ["/node/workflows/basic.json"], [], JNull, "latest", {});
    NewContext(config, "/node", "linux", LogSink(0), "/out")
  }

  /**
   * With screenshots disabled, a workflow file that is missing makes the
   * runner raise FileNotFoundError. As written, the handler then raises
   * AttributeError, so no result is written and the level fails with that
   * error. The intended handler records the failure and reports it.
   */
  lemma MissingFileFinding(w: ExecutionWorld)
    requires !w.screenshots
    requires w.run("/node/workflows/basic.json") == PyFail("FileNotFoundError", "Workflow file not found: /node/workflows/basic.json")
    ensures ExecuteAsWritten(OneWorkflowContext(), w).report.None?
    ensures ExecuteAsWritten(OneWorkflowContext(), w).outcome ==
      PyFail("AttributeError", "'" + "FileNotFoundError" + "' object has no attribute 'message'")
    ensures ExecutionSpec(OneWorkflowContext(), w).outcome ==
      Fail(WorkflowExecutionErr, "Workflow execution failed (1 error(s))", Lines(["basic.json: " + "Workflow file not found: /node/workflows/basic.json"]))
  {
    var wfs := ["/node/workflows/basic.json"];
    var ctx := OneWorkflowContext();
    assert ctx.config.workflows == wfs && ctx.workflowFilter.None?;
    assert ctx.platformName !in ctx.config.skipWorkflowPlatforms;
    assert wfs[..0] == [];
    BasicName();
    var exc := Untyped("FileNotFoundError", "Workflow file not found: /node/workflows/basic.json");
    var ws := AsWrittenWorld(w);
    assert Attempt(ctx.nodeDir, w, wfs[0]) == Raised(exc);
    assert Attempt(ctx.nodeDir, ws, wfs[0]) == Raised(exc);
    var attrErr: Outcome<string> := PyFail("AttributeError", "'" + "FileNotFoundError" + "' object has no attribute 'message'");
    assert HandleAsWritten(exc, false) == attrErr;
    assert Loop(ctx.nodeDir, [], ws, wfs[..0], HandleAsWritten) == Ok(Progress([], []));
    assert Step(Progress([], []), ctx.nodeDir, [], ws, wfs[0], HandleAsWritten) == Raised(attrErr.exc);
    assert Loop(ctx.nodeDir, [], ws, wfs, HandleAsWritten) == Raised(attrErr.exc);
    var msg := "Workflow file not found: /node/workflows/basic.json";
    assert Handle(exc, false) == Ok(msg);
    var p := Progress([WorkflowRecord(Stem(wfs[0]), Failed, Some(msg))], [("basic.json", msg)]);
    assert Loop(ctx.nodeDir, [], w, wfs[..0], Handle) == Ok(Progress([], []));
    var rec := WorkflowRecord(Stem(wfs[0]), Failed, Some(msg));
    assert [] + [rec] == [rec];
    assert [] + [("basic.json", msg)] == [("basic.json", msg)];
    assert Step(Progress([], []), ctx.nodeDir, [], w, wfs[0], Handle) == Ok(p);
    assert Loop(ctx.nodeDir, [], w, wfs, Handle) == Ok(p);
    var lines := ErrorLines(p.errors);
    assert |lines| == 1 && lines[0] == "basic.json: " + msg;
    assert lines == ["basic.json: " + msg];
    assert NatToString(1) == "1";
    assert ExecutionSpec(ctx, w).outcome == Fail(WorkflowExecutionErr, "Workflow execution failed (" + "1" + " error(s))", Lines(lines));
    assert "Workflow execution failed (" + "1" + " error(s))" == "Workflow execution failed (1 error(s))";
  }

  /**
   * With screenshots disabled, a workflow whose run finishes makes the level
   * as written fail: reading `result.status` raises AttributeError, the
   * handler catches it and then raises AttributeError on `e.message`, so no
   * result is written. The intended level records the run as a pass
   * (`CompletedRunPasses`).
   */
  lemma CompletedRunFinding(w: ExecutionWorld)
    requires !w.screenshots && w.run("/node/workflows/basic.json").Ok?
    ensures ExecuteAsWritten(OneWorkflowContext(), w).report.None?
    ensures ExecuteAsWritten(OneWorkflowContext(), w).outcome ==
      PyFail("AttributeError", "'" + "AttributeError" + "' object has no attribute 'message'")
  {
    var wfs := ["/node/workflows/basic.json"];
    var ctx := OneWorkflowContext();
    assert ctx.config.workflows == wfs && ctx.workflowFilter.None?;
    assert ctx.platformName !in ctx.config.skipWorkflowPlatforms;
    assert wfs[..0] == [];
    var ws := AsWrittenWorld(w);
    var statusErr := ReadStatus(w.run(wfs[0]));
    assert Attempt(ctx.nodeDir, ws, wfs[0]) == Raised(statusErr.exc);
    assert statusErr.exc.Untyped? && statusErr.exc.pyType == "AttributeError";
    var attrErr: Outcome<string> := PyFail("AttributeError", "'" + "AttributeError" + "' object has no attribute 'message'");
    assert HandleAsWritten(statusErr.exc, false) == attrErr;
    assert Loop(ctx.nodeDir, [], ws, wfs[..0], HandleAsWritten) == Ok(Progress([], []));
    assert Step(Progress([], []), ctx.nodeDir, [], ws, wfs[0], HandleAsWritten) == Raised(attrErr.exc);
    assert Loop(ctx.nodeDir, [], ws, wfs, HandleAsWritten) == Raised(attrErr.exc);
  }

  /** The same workflow under the intended level: one finished run, one pass, and the level succeeds. */
  lemma CompletedRunPasses(w: ExecutionWorld)
    requires !w.screenshots && w.run("/node/workflows/basic.json").Ok?
    ensures ExecutionSpec(OneWorkflowContext(), w).outcome == Ok(OneWorkflowContext())
    ensures ExecutionSpec(OneWorkflowContext(), w).report ==
      Some(Report("linux", Summary(1, 1, 0), [WorkflowRecord(Stem("/node/workflows/basic.json"), Passed, None)]))
  {
    var wfs := ["/node/workflows/basic.json"];
    var ctx := OneWorkflowContext();
    assert ctx.config.workflows == wfs && ctx.workflowFilter.None?;
    assert ctx.platformName !in ctx.config.skipWorkflowPlatforms;
    assert wfs[..0] == [];
    var rec := WorkflowRecord(Stem(wfs[0]), Passed, None);
    assert [] + [rec] == [rec];
    assert Attempt(ctx.nodeDir, w, wfs[0]) == Ok(());
    assert Loop(ctx.nodeDir, [], w, wfs[..0], Handle) == Ok(Progress([], []));
    assert Step(Progress([], []), ctx.nodeDir, [], w, wfs[0], Handle) == Ok(Progress([rec], []));
    assert Loop(ctx.nodeDir, [], w, wfs, Handle) == Ok(Progress([rec], []));
    assert [rec][..0] == [];
    assert CountStatus([rec], Passed) == 1 && CountStatus([rec], Failed) == 0;
  }

  /** When every attempt raises, no record of a completed loop is a pass. */
  lemma {:induction false} NoPassWhenAttemptsRaise(nodeDir: Path, gpu: seq<Path>, w: ExecutionWorld, workflows: seq<Path>,
                                                   handle: (Exc, bool) -> Outcome<string>)
    requires forall p :: Attempt(nodeDir, w, p).Raised?
    requires Loop(nodeDir, gpu, w, workflows, handle).Ok?
    ensures forall r <- Loop(nodeDir, gpu, w, workflows, handle).value.records :: r.status != Passed
  {
    if workflows != [] {
      var init := workflows[..|workflows| - 1];
      NoPassWhenAttemptsRaise(nodeDir, gpu, w, init, handle);
      var p0 := Loop(nodeDir, gpu, w, init, handle).value;
      var last := workflows[|workflows| - 1];
      assert Attempt(nodeDir, w, last).Raised?;
      var p := Step(p0, nodeDir, gpu, w, last, handle).value;
      assert p == Loop(nodeDir, gpu, w, workflows, handle).value;
      assert p.records[..|p0.records|] == p0.records;
      forall r <- p.records
        ensures r.status != Passed
      {
        var k :| 0 <= k < |p.records| && p.records[k] == r;
        if k < |p0.records| {
          assert r == p0.records[k] && r in p0.records;
        }
      }
    }
  }

  /**
   * As written, with screenshots disabled, the level never records a pass:
   * every finished run raises inside the try block, so any report it writes
   * holds only failures and skips.
   */
  lemma AsWrittenNeverPasses(ctx: LevelContext, w: ExecutionWorld)
    requires !w.screenshots
    ensures var x := ExecuteAsWritten(ctx, w);
      x.report.Some? ==> forall r <- x.report.value.workflows :: r.status != Passed
  {
    var ws := AsWrittenWorld(w);
    assert forall p :: Attempt(ctx.nodeDir, ws, p).Raised? by {
      forall p ensures Attempt(ctx.nodeDir, ws, p).Raised? {
        assert ws.run(p) == ReadStatus(w.run(p));
      }
    }
    var configured := ctx.config.workflows;
    if configured != [] && ctx.platformName !in ctx.config.skipWorkflowPlatforms {
      var workflows := if ctx.workflowFilter.Some? && ctx.workflowFilter.value != "" then FilterAsWritten(configured, ctx.workflowFilter.value)
                       else configured;
      if workflows != [] && Loop(ctx.nodeDir, ctx.config.gpuWorkflows, ws, workflows, HandleAsWritten).Ok? {
        NoPassWhenAttemptsRaise(ctx.nodeDir, ctx.config.gpuWorkflows, ws, workflows, HandleAsWritten);
      }
    }
  }
}
