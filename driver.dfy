/**
 * The platform driver of the level pipeline. It normalises the platform name,
 * selects the levels to run (the maximum level, the dependency closure, the
 * levels an external server makes unnecessary), runs them in the canonical
 * order while threading one context from each level to the next, turns the
 * first error into a failed result, and finally stops the server held by the
 * last context a level returned.
 */
module Driver {
  import opened Base
  import opened Strings
  import opened Paths
  import opened ConfigFile
  import opened Context
  import opened Results

  /** Every level, in the order the driver runs them. */
  const AllLevels: seq<Level> := [Syntax, Install, Registration, Instantiation, StaticCapture, Validation, Execution]

  /** `ALL_LEVELS.index(l)`. */
  function Rank(l: Level): (i: nat)
    ensures i < |AllLevels| && AllLevels[i] == l
  {
    match l
    case Syntax => 0
    case Install => 1
    case Registration => 2
    case Instantiation => 3
    case StaticCapture => 4
    case Validation => 5
    case Execution => 6
  }

  /** `level.value.upper()`: the name shown in the progress lines. */
  function LevelName(l: Level): string
  {
    match l
    case Syntax => "SYNTAX"
    case Install => "INSTALL"
    case Registration => "REGISTRATION"
    case Instantiation => "INSTANTIATION"
    case StaticCapture => "STATIC_CAPTURE"
    case Validation => "VALIDATION"
    case Execution => "EXECUTION"
  }

  /** `platform_name.lower().replace("-", "_")`. */
  function NormalizePlatform(name: string): (r: string)
    ensures |r| == |name|
    ensures forall c <- r :: c != '-' && !IsUpperLetter(c)
  {
    ReplaceChar(ToLower(name), '-', '_')
  }

  /** Normalising a normalised name changes nothing. */
  lemma NormalizeIdempotent(name: string)
    ensures NormalizePlatform(NormalizePlatform(name)) == NormalizePlatform(name)
  {
    var once := NormalizePlatform(name);
    var twice := NormalizePlatform(once);
    forall k | 0 <= k < |once|
      ensures twice[k] == once[k]
    {
      assert once[k] in once;
    }
  }

  // ----- level selection -----

  /** The levels no later than `max` in the canonical order, in their given order. */
  function UpTo(levels: seq<Level>, max: Level): (r: seq<Level>)
    ensures forall l :: l in r <==> l in levels && Rank(l) <= Rank(max)
    ensures |r| <= |levels|
  {
    if levels == [] then []
    else (if Rank(levels[0]) <= Rank(max) then [levels[0]] else []) + UpTo(levels[1..], max)
  }

  /** The levels without SYNTAX and INSTALL, in their given order. */
  function WithoutSetup(levels: seq<Level>): (r: seq<Level>)
    ensures forall l :: l in r <==> l in levels && l != Syntax && l != Install
    ensures |r| <= |levels|
  {
    if levels == [] then []
    else (if levels[0] != Syntax && levels[0] != Install then [levels[0]] else []) + WithoutSetup(levels[1..])
  }

  /** Python truthiness of `server_url`: given and non-empty. */
  predicate UsesServer(serverUrl: Option<string>)
  {
    serverUrl.Some? && serverUrl.value != ""
  }

  /** The levels the caller asked for: the configured ones, cut at the maximum level when one is given. */
  function RequestedLevels(configured: seq<Level>, max: Option<Level>): seq<Level>
  {
    if max.Some? then UpTo(configured, max.value) else configured
  }

  /**
   * The levels to run: the dependency closure of the requested ones, without
   * SYNTAX and INSTALL when an external server is used.
   */
  function SelectedLevels(requested: seq<Level>, resolve: seq<Level> -> seq<Level>, serverUrl: Option<string>): seq<Level>
  {
    var resolved := resolve(requested);
    if UsesServer(serverUrl) then WithoutSetup(resolved) else resolved
  }

  /** The levels of `order` that are in `levels`, in the order of `order`. */
  function InOrder(order: seq<Level>, levels: seq<Level>): (r: seq<Level>)
    ensures forall l :: l in r <==> l in order && l in levels
    ensures |r| <= |order|
  {
    if order == [] then []
    else InOrder(order[..|order| - 1], levels) + (if order[|order| - 1] in levels then [order[|order| - 1]] else [])
  }

  /** `[l for l in ALL_LEVELS if l in levels]`: what the driver runs, each level once. */
  function Schedule(levels: seq<Level>): seq<Level>
  {
    InOrder(AllLevels, levels)
  }

  /** Each level of the canonical order is ranked by its position. */
  lemma AllLevelsRanked()
    ensures forall i :: 0 <= i < |AllLevels| ==> Rank(AllLevels[i]) == i
  {
  }

  /** Taking levels from a list in increasing rank keeps them in increasing rank. */
  lemma {:induction false} InOrderRanks(order: seq<Level>, levels: seq<Level>)
    requires forall i, j :: 0 <= i < j < |order| ==> Rank(order[i]) < Rank(order[j])
    ensures forall i, j :: 0 <= i < j < |InOrder(order, levels)| ==>
              Rank(InOrder(order, levels)[i]) < Rank(InOrder(order, levels)[j])
  {
    if order != [] {
      var init := order[..|order| - 1];
      var last := order[|order| - 1];
      InOrderRanks(init, levels);
      var ri := InOrder(init, levels);
      forall l | l in ri
        ensures Rank(l) < Rank(last)
      {
        var i :| 0 <= i < |init| && init[i] == l;
        assert order[i] == l;
      }
    }
  }

  /**
   * The schedule holds exactly the selected levels, in strictly increasing
   * canonical rank, so each runs once; the progress total is its length.
   */
  lemma ScheduleCanonical(levels: seq<Level>)
    ensures forall l :: l in Schedule(levels) <==> l in levels
    ensures forall i, j :: 0 <= i < j < |Schedule(levels)| ==> Rank(Schedule(levels)[i]) < Rank(Schedule(levels)[j])
    ensures |Schedule(levels)| <= |AllLevels|
  {
    AllLevelsRanked();
    InOrderRanks(AllLevels, levels);
    forall l
      ensures l in Schedule(levels) <==> l in levels
    {
      assert AllLevels[Rank(l)] == l;
    }
  }

  /**
   * With a maximum level nothing later is requested; with an external server
   * SYNTAX and INSTALL are never scheduled; every other resolved level is.
   */
  lemma SelectionBounds(configured: seq<Level>, max: Option<Level>, resolve: seq<Level> -> seq<Level>, serverUrl: Option<string>)
    ensures max.Some? ==> forall l <- RequestedLevels(configured, max) :: Rank(l) <= Rank(max.value)
    ensures max.Some? ==> forall l <- configured :: Rank(l) <= Rank(max.value) ==> l in RequestedLevels(configured, max)
    ensures forall l :: l in Schedule(SelectedLevels(RequestedLevels(configured, max), resolve, serverUrl)) <==>
              l in resolve(RequestedLevels(configured, max)) && !(UsesServer(serverUrl) && (l == Syntax || l == Install))
  {
    ScheduleCanonical(SelectedLevels(RequestedLevels(configured, max), resolve, serverUrl));
  }

  // ----- the level loop -----

  /** What a level runner did: the lines it logged, then the context it returned or the exception it raised. */
  datatype LevelRun = LevelRun(log: seq<string>, outcome: Outcome<LevelContext>)

  /** The driver's collaborators. */
  datatype DriverWorld = DriverWorld(
    resolve: seq<Level> -> seq<Level>,        // TestLevel.resolve_dependencies
    runner: (Level, LevelContext) -> LevelRun,   // LEVEL_RUNNERS
    log: LogSink,                             // the manager's own log method, handed to the levels
    executable: Path,                         // sys.executable
    isFile: Path -> bool,                     // Path.exists
    versionLines: seq<string>,                // the installed-version lines logged in the header
    showDetails: Details -> string)           // f"{e.details}"

  /** The lines `_log_level_start` logs for the `index`-th of `total` levels. */
  function StartLines(l: Level, index: nat, total: nat, requested: bool): (r: seq<string>)
    ensures |r| == 3 && r[0] == "" && r[2] == Repeat('-', 40)
  {
    ["", "[" + NatToString(index) + "/" + NatToString(total) + "] " + LevelName(l) + ImplicitMarker(requested), Repeat('-', 40)]
  }

  /** A level run only because another needs it is marked, and only such a level. */
  function ImplicitMarker(requested: bool): (m: string)
    ensures m == "" <==> requested
  {
    if requested then "" else " (implicit)"
  }

  /** The line `_log_level_done` logs. */
  function DoneLine(l: Level, message: string): string
  {
    "[" + LevelName(l) + "] " + message
  }

  /**
   * How far the loop got: the context the last passing level returned, the
   * number of levels started, the session lines logged, and the exception
   * that stopped the loop, if any.
   */
  datatype Progress = Progress(ctx: LevelContext, index: nat, log: seq<string>, error: Option<Exc>)

  /** One turn of the loop: a selected level is started, run on the current context, and marked passed; a raise is kept. */
  function Step(p: Progress, l: Level, levels: seq<Level>, requested: seq<Level>, total: nat,
                runner: (Level, LevelContext) -> LevelRun): Progress
  {
    if p.error.Some? || l !in levels then p
    else
      var index := p.index + 1;
      var run := runner(l, p.ctx);
      var log := p.log + StartLines(l, index, total, l in requested) + run.log;
      match run.outcome
      case Ok(next) => Progress(next, index, log + [DoneLine(l, "PASSED")], None)
      case Raised(e) => Progress(p.ctx, index, log, Some(e))
  }

  /** A selected level after no failure: its start lines and the runner's lines, then its passed line or its exception. */
  lemma StepRuns(p: Progress, l: Level, levels: seq<Level>, requested: seq<Level>, total: nat,
                 runner: (Level, LevelContext) -> LevelRun)
    requires p.error.None? && l in levels
    ensures var run := runner(l, p.ctx);
            var log := p.log + StartLines(l, p.index + 1, total, l in requested) + run.log;
            Step(p, l, levels, requested, total, runner)
            == if run.outcome.Ok? then Progress(run.outcome.value, p.index + 1, log + [DoneLine(l, "PASSED")], None)
               else Progress(p.ctx, p.index + 1, log, Some(run.outcome.exc))
  {
  }

  /** The loop over `order`, each turn a `Step`; the first raise ends it. */
  function Drive(order: seq<Level>, levels: seq<Level>, requested: seq<Level>, total: nat,
                 ctx: LevelContext, runner: (Level, LevelContext) -> LevelRun): Progress
    decreases |order|
  {
    if order == [] then Progress(ctx, 0, [], None)
    else Step(Drive(order[..|order| - 1], levels, requested, total, ctx, runner), order[|order| - 1], levels, requested, total, runner)
  }

  lemma DriveSnoc(order: seq<Level>, i: nat, levels: seq<Level>, requested: seq<Level>, total: nat,
                  ctx: LevelContext, runner: (Level, LevelContext) -> LevelRun)
    requires i < |order|
    ensures Drive(order[..i + 1], levels, requested, total, ctx, runner)
            == Step(Drive(order[..i], levels, requested, total, ctx, runner), order[i], levels, requested, total, runner)
  {
    assert order[..i + 1][..i] == order[..i];
  }

  /** Once a level has raised, the rest of the order changes nothing. */
  lemma {:induction false} DriveStops(order: seq<Level>, k: nat, levels: seq<Level>, requested: seq<Level>, total: nat,
                                      ctx: LevelContext, runner: (Level, LevelContext) -> LevelRun)
    requires k <= |order|
    requires Drive(order[..k], levels, requested, total, ctx, runner).error.Some?
    ensures Drive(order, levels, requested, total, ctx, runner) == Drive(order[..k], levels, requested, total, ctx, runner)
    decreases |order|
  {
    if k < |order| {
      assert order[..|order| - 1][..k] == order[..k];
      DriveStops(order[..|order| - 1], k, levels, requested, total, ctx, runner);
    } else {
      assert order[..k] == order;
    }
  }

  /**
   * The level index counts the levels started: all of the scheduled ones when
   * none raised, and otherwise up to and including the one that raised.
   */
  lemma {:induction false} DriveCounts(order: seq<Level>, levels: seq<Level>, requested: seq<Level>, total: nat,
                                       ctx: LevelContext, runner: (Level, LevelContext) -> LevelRun)
    ensures Drive(order, levels, requested, total, ctx, runner).index <= |InOrder(order, levels)|
    ensures Drive(order, levels, requested, total, ctx, runner).error.None? ==>
              Drive(order, levels, requested, total, ctx, runner).index == |InOrder(order, levels)|
    ensures Drive(order, levels, requested, total, ctx, runner).error.Some? ==>
              Drive(order, levels, requested, total, ctx, runner).index > 0
    decreases |order|
  {
    if order != [] {
      DriveCounts(order[..|order| - 1], levels, requested, total, ctx, runner);
    }
  }

  // ----- the whole platform run -----

  /** The options of `run_platform`. */
  datatype RunOptions = RunOptions(
    dryRun: bool,
    maxLevel: Option<Level>,
    workflowFilter: Option<string>,
    comfyuiDir: Option<Path>,
    serverUrl: Option<string>,
    workDir: Option<Path>,
    depsInstalled: bool)

  /** The output directory, or `comfy-test-results` inside the node directory. */
  function OutputBase(nodeDir: Path, outputDir: Option<Path>): Path
  {
    if outputDir.Some? then outputDir.value else JoinPath(nodeDir, "comfy-test-results")
  }

  /**
   * The paths inferred for an external server: the node's parent holds the
   * custom nodes, the given ComfyUI directory or that parent's parent is
   * ComfyUI, and the interpreter is the embedded portable one when it exists.
   */
  function InferredPaths(nodeDir: Path, opts: RunOptions, outputBase: Path, w: DriverWorld): (r: Option<TestPaths>)
    ensures r.Some? <==> UsesServer(opts.serverUrl)
    ensures r.Some? ==> r.value.workDir == outputBase && r.value.customNodesDir == Parent(nodeDir)
    ensures r.Some? && opts.comfyuiDir.Some? ==> r.value.comfyuiDir == opts.comfyuiDir.value
    ensures r.Some? ==> r.value.python == w.executable || w.isFile(r.value.python)
  {
    if !UsesServer(opts.serverUrl) then None
    else
      var customNodes := Parent(nodeDir);
      var comfyui := if opts.comfyuiDir.Some? then opts.comfyuiDir.value else Parent(customNodes);
      var portable := JoinPath(JoinPath(Parent(comfyui), "python_embeded"), "python.exe");
      var python := if w.isFile(portable) then portable else w.executable;
      Some(TestPaths(outputBase, comfyui, python, customNodes))
  }

  /** The context the first level receives: the run's settings and overrides, and nothing accumulated yet. */
  function InitialContext(config: RunConfig, nodeDir: Path, platform: string, outputBase: Path, opts: RunOptions, w: DriverWorld)
    : (c: LevelContext)
    ensures c.config == config && c.nodeDir == nodeDir && c.platformName == platform && c.outputBase == outputBase
    ensures c.workDir == opts.workDir && c.comfyuiDir == opts.comfyuiDir && c.serverUrl == opts.serverUrl
    ensures c.workflowFilter == opts.workflowFilter && c.depsInstalled == opts.depsInstalled
    ensures c.server.None? && c.api.None? && c.platform.None?
  {
    LevelContext(config, nodeDir, platform, w.log, outputBase,
                 opts.workDir, opts.comfyuiDir, opts.serverUrl, opts.workflowFilter, opts.depsInstalled,
                 None, InferredPaths(nodeDir, opts, outputBase, w), None, None, [], [], None)
  }

  /** `[l.value for l in levels]`. */
  function Values(levels: seq<Level>): seq<string>
  {
    seq(|levels|, k requires 0 <= k < |levels| => LevelValue(levels[k]))
  }

  /** The banner logged before anything runs. */
  function Header(platform: string, levels: seq<Level>, versionLines: seq<string>): seq<string>
  {
    ["\n" + Repeat('=', 60), "Testing: " + platform, "Levels: " + Join(", ", Values(levels))]
    + versionLines + [Repeat('=', 60)]
  }

  /** What the dry run says it would do for one selected level. */
  function LevelPlan(l: Level, config: RunConfig, nodeDir: Path): seq<string>
  {
    var n := NatToString(|config.workflows|);
    match l
    case Syntax => ["  Check pyproject.toml vs requirements.txt", "  Check for non-CP1252 characters"]
    case Install => ["  Setup ComfyUI (" + config.comfyuiVersion + ")", "  Install node: " + Name(nodeDir),
                     "  Install node dependencies (from comfy-env.toml)"]
    case Registration => ["  Start ComfyUI server", "  Check for import errors", "  Verify nodes in object_info"]
    case Instantiation => ["  Test node constructors"]
    case StaticCapture =>
      if config.workflows != [] then ["  Capture " + n + " static screenshot(s)"] else ["  No workflows configured"]
    case Validation =>
      if config.workflows != [] then ["  Validate " + n + " workflow(s)"] else ["  No workflows configured"]
    case Execution =>
      if config.workflows != [] then
        ["  Run " + n + " workflow(s):"]
        + seq(|config.workflows|, k requires 0 <= k < |config.workflows| => "    - " + config.workflows[k])
      else ["  No workflows configured for execution"]
  }

  /** The dry run's lines for one level: numbered with its plan when selected, marked skipped otherwise. */
  function DryRunLines(l: Level, selected: bool, num: nat, total: nat, config: RunConfig, nodeDir: Path): seq<string>
  {
    if selected then
      ["[" + NatToString(num) + "/" + NatToString(total) + "] " + LevelName(l), Repeat('-', 40)]
      + LevelPlan(l, config, nodeDir) + [""]
    else ["[ ] " + LevelName(l) + ": SKIPPED\n"]
  }

  /** The dry run's lines for the levels of `order`, numbering the selected ones from 1. */
  function DryRunLog(order: seq<Level>, levels: seq<Level>, total: nat, config: RunConfig, nodeDir: Path): seq<string>
    decreases |order|
  {
    if order == [] then []
    else
      var l := order[|order| - 1];
      DryRunLog(order[..|order| - 1], levels, total, config, nodeDir)
      + DryRunLines(l, l in levels, |InOrder(order, levels)|, total, config, nodeDir)
  }

  lemma DryRunSnoc(order: seq<Level>, i: nat, levels: seq<Level>, total: nat, config: RunConfig, nodeDir: Path)
    requires i < |order|
    ensures |InOrder(order[..i + 1], levels)| == |InOrder(order[..i], levels)| + (if order[i] in levels then 1 else 0)
    ensures DryRunLog(order[..i + 1], levels, total, config, nodeDir)
            == DryRunLog(order[..i], levels, total, config, nodeDir)
               + DryRunLines(order[i], order[i] in levels, |InOrder(order[..i + 1], levels)|, total, config, nodeDir)
  {
    assert order[..i + 1][..i] == order[..i];
  }

  /** The lines logged for the exception that ended the run. */
  function FailureLines(platform: string, e: Exc, showDetails: Details -> string): seq<string>
  {
    match e
    case Typed(_, message, details) =>
      ["\n" + platform + ": FAILED", "Error: " + message]
      + (if HasDetails(details) then ["Details: " + showDetails(details)] else [])
    case Untyped(_, text) => ["\n" + platform + ": FAILED (unexpected error)", "Error: " + text]
  }

  /** The result, the server stopped in cleanup, the level counters and the session log after a platform run. */
  datatype PlatformRun = PlatformRun(result: TestResult, stopped: Option<ServerHandle>, index: nat, total: nat, log: seq<string>)

  /** A run that goes past the dry-run check: the levels run from a fresh session log, then the verdict is logged. */
  function LivePlatform(config: RunConfig, nodeDir: Path, outputDir: Option<Path>, platform: string, requested: seq<Level>,
                        levels: seq<Level>, total: nat, opts: RunOptions, w: DriverWorld): PlatformRun
  {
    var outputBase := OutputBase(nodeDir, outputDir);
    var ctx := InitialContext(config, nodeDir, platform, outputBase, opts, w);
    var p := Drive(AllLevels, levels, requested, total, ctx, w.runner);
    LiveEnd(platform, ["Crash dump logging enabled: " + JoinPath(outputBase, "crash_dump.log")] + p.log, p, total, w.showDetails)
  }

  /** What `run_platform` reports once the level loop `p` has ended, with `started` logged so far. */
  function LiveEnd(platform: string, started: seq<string>, p: Progress, total: nat, showDetails: Details -> string): PlatformRun
  {
    match p.error
    case None => PlatformRun(Passed(platform), p.ctx.server, p.index, total, started + ["\n" + platform + ": PASSED"])
    case Some(e) => PlatformRun(FailureResult(platform, e), p.ctx.server, p.index, total,
                                started + FailureLines(platform, e, showDetails))
  }

  /** `run_platform`, given the session log it starts from. */
  function Platform(config: RunConfig, nodeDir: Path, outputDir: Option<Path>, name: string, opts: RunOptions,
                    w: DriverWorld, log0: seq<string>): PlatformRun
  {
    var platform := NormalizePlatform(name);
    var requested := RequestedLevels(config.levels, opts.maxLevel);
    var levels := SelectedLevels(requested, w.resolve, opts.serverUrl);
    var total := |Schedule(levels)|;
    if opts.dryRun then
      PlatformRun(TestResult(platform, true, None, Text("Dry run")), None, 0, total,
                  log0 + Header(platform, levels, w.versionLines) + ["\n[DRY RUN] Would execute the following levels:\n"]
                  + DryRunLog(AllLevels, levels, total, config, nodeDir))
    else LivePlatform(config, nodeDir, outputDir, platform, requested, levels, total, opts, w)
  }

  /**
   * A dry run runs no level and passes with details "Dry run"; a real run
   * passes exactly when no level raised, after starting every scheduled
   * level, and otherwise reports the exception that stopped it. Either way
   * the server stopped is the one held by the last context a level returned.
   */
  lemma PlatformOutcome(config: RunConfig, nodeDir: Path, outputDir: Option<Path>, name: string, opts: RunOptions,
                        w: DriverWorld, log0: seq<string>)
    ensures var run := Platform(config, nodeDir, outputDir, name, opts, w, log0);
            run.result.platform == NormalizePlatform(name) && run.index <= run.total <= |AllLevels|
    ensures var run := Platform(config, nodeDir, outputDir, name, opts, w, log0);
            opts.dryRun ==> run.result.success && run.result.details == Text("Dry run") && run.stopped.None? && run.index == 0
    ensures var run := Platform(config, nodeDir, outputDir, name, opts, w, log0);
            var levels := SelectedLevels(RequestedLevels(config.levels, opts.maxLevel), w.resolve, opts.serverUrl);
            var p := Drive(AllLevels, levels, RequestedLevels(config.levels, opts.maxLevel), run.total,
                           InitialContext(config, nodeDir, NormalizePlatform(name), OutputBase(nodeDir, outputDir), opts, w),
                           w.runner);
            !opts.dryRun ==>
              run.stopped == p.ctx.server
              && (run.result.success <==> p.error.None?)
              && (run.result.success ==> run.index == run.total)
              && (p.error.Some? ==> run.result == FailureResult(NormalizePlatform(name), p.error.value) && run.index > 0)
  {
    var levels := SelectedLevels(RequestedLevels(config.levels, opts.maxLevel), w.resolve, opts.serverUrl);
    ScheduleCanonical(levels);
    var outputBase := OutputBase(nodeDir, outputDir);
    var ctx := InitialContext(config, nodeDir, NormalizePlatform(name), outputBase, opts, w);
    DriveCounts(AllLevels, levels, RequestedLevels(config.levels, opts.maxLevel), |Schedule(levels)|, ctx, w.runner);
  }

  /** The platforms `run_all` considers, in order. */
  const PlatformNames: seq<string> := ["linux", "macos", "windows", "windows_portable"]

  /** The results and manager state after `run_all` has considered the platforms of `names`. */
  datatype AllRun = AllRun(results: seq<TestResult>, index: nat, total: nat, log: seq<string>)

  function RunAllSpec(config: RunConfig, nodeDir: Path, outputDir: Option<Path>, names: seq<string>, enabled: string -> bool,
                      opts: RunOptions, w: DriverWorld, start: AllRun): AllRun
    decreases |names|
  {
    if names == [] then start
    else
      var before := RunAllSpec(config, nodeDir, outputDir, names[..|names| - 1], enabled, opts, w, start);
      PlatformStep(config, nodeDir, outputDir, before, names[|names| - 1], enabled, opts, w)
  }

  /**
   * One platform of `run_all`: a skip line when it is disabled, its run and
   * result otherwise. `run_all` has no work directory option, so each
   * platform runs without one.
   */
  function PlatformStep(config: RunConfig, nodeDir: Path, outputDir: Option<Path>, before: AllRun, name: string,
                        enabled: string -> bool, opts: RunOptions, w: DriverWorld): AllRun
  {
    if !enabled(name) then before.(log := before.log + ["Skipping " + name + " (disabled)"])
    else
      var run := Platform(config, nodeDir, outputDir, name, opts.(workDir := None), w, before.log);
      AllRun(before.results + [run.result], run.index, run.total, run.log)
  }

  lemma RunAllSnoc(config: RunConfig, nodeDir: Path, outputDir: Option<Path>, names: seq<string>, i: nat,
                   enabled: string -> bool, opts: RunOptions, w: DriverWorld, start: AllRun)
    requires i < |names|
    ensures RunAllSpec(config, nodeDir, outputDir, names[..i + 1], enabled, opts, w, start)
            == PlatformStep(config, nodeDir, outputDir, RunAllSpec(config, nodeDir, outputDir, names[..i], enabled, opts, w, start),
                            names[i], enabled, opts, w)
  {
    assert names[..i + 1][..i] == names[..i];
  }

  /** The enabled platforms of `names`, in order. */
  function EnabledNames(names: seq<string>, enabled: string -> bool): (r: seq<string>)
    ensures forall n :: n in r <==> n in names && enabled(n)
    ensures |r| <= |names|
  {
    if names == [] then []
    else EnabledNames(names[..|names| - 1], enabled) + (if enabled(names[|names| - 1]) then [names[|names| - 1]] else [])
  }

  /** A platform's result does not depend on what the session log held before. */
  lemma PlatformResultIgnoresLog(config: RunConfig, nodeDir: Path, outputDir: Option<Path>, name: string, opts: RunOptions,
                                 w: DriverWorld, log0: seq<string>)
    ensures Platform(config, nodeDir, outputDir, name, opts, w, log0).result == Platform(config, nodeDir, outputDir, name, opts, w, []).result
  {
  }

  /** `run_all` reports one result per enabled platform, in order, and none for a disabled one. */
  lemma {:induction false} RunAllResults(config: RunConfig, nodeDir: Path, outputDir: Option<Path>, names: seq<string>,
                                         enabled: string -> bool, opts: RunOptions, w: DriverWorld, start: AllRun)
    requires start.results == []
    ensures var r := RunAllSpec(config, nodeDir, outputDir, names, enabled, opts, w, start).results;
            |r| == |EnabledNames(names, enabled)|
            && forall k :: 0 <= k < |r| ==>
                 r[k] == PlatformResult(config, nodeDir, outputDir, EnabledNames(names, enabled)[k], opts.(workDir := None), w)
    decreases |names|
  {
    if names != [] {
      var init := names[..|names| - 1];
      var name := names[|names| - 1];
      RunAllResults(config, nodeDir, outputDir, init, enabled, opts, w, start);
      var before := RunAllSpec(config, nodeDir, outputDir, init, enabled, opts, w, start);
      PlatformStepResults(config, nodeDir, outputDir, before, name, enabled, opts, w);
      var r := RunAllSpec(config, nodeDir, outputDir, names, enabled, opts, w, start).results;
      var en := EnabledNames(names, enabled);
      assert en == EnabledNames(init, enabled) + (if enabled(name) then [name] else []);
      forall k | 0 <= k < |r|
        ensures r[k] == PlatformResult(config, nodeDir, outputDir, en[k], opts.(workDir := None), w)
      {
        if k < |before.results| {
          assert r[k] == before.results[k] && en[k] == EnabledNames(init, enabled)[k];
        }
      }
    }
  }

  /** The result of running a platform from an empty log. */
  function PlatformResult(config: RunConfig, nodeDir: Path, outputDir: Option<Path>, name: string, opts: RunOptions, w: DriverWorld): TestResult
  {
    Platform(config, nodeDir, outputDir, name, opts, w, []).result
  }

  /** A platform step adds that platform's result exactly when it is enabled. */
  lemma PlatformStepResults(config: RunConfig, nodeDir: Path, outputDir: Option<Path>, before: AllRun, name: string,
                            enabled: string -> bool, opts: RunOptions, w: DriverWorld)
    ensures PlatformStep(config, nodeDir, outputDir, before, name, enabled, opts, w).results
            == before.results + (if enabled(name) then [PlatformResult(config, nodeDir, outputDir, name, opts.(workDir := None), w)] else [])
  {
    PlatformResultIgnoresLog(config, nodeDir, outputDir, name, opts.(workDir := None), w, before.log);
  }

  lemma AppendAssoc<T>(a: seq<T>, b: seq<T>, c: seq<T>)
    ensures (a + b) + c == a + (b + c)
  {
  }

  // ----- the manager object -----

  class TestManager {
    const config: RunConfig
    const nodeDir: Path
    const outputDir: Option<Path>
    var sessionLog: seq<string>
    var levelIndex: nat
    var totalLevels: nat

    constructor(config: RunConfig, nodeDir: Path, outputDir: Option<Path>)
      ensures this.config == config && this.nodeDir == nodeDir && this.outputDir == outputDir
      ensures sessionLog == [] && levelIndex == 0 && totalLevels == 0
    {
      this.config := config;
      this.nodeDir := nodeDir;
      this.outputDir := outputDir;
      sessionLog := [];
      levelIndex := 0;
      totalLevels := 0;
    }

    /** `_log`: the message is appended to the session log. */
    method Log(msg: string)
      modifies this
      ensures sessionLog == old(sessionLog) + [msg]
      ensures levelIndex == old(levelIndex) && totalLevels == old(totalLevels)
    {
      sessionLog := sessionLog + [msg];
    }

    /** Several `_log` calls in a row. */
    method LogAll(msgs: seq<string>)
      modifies this
      ensures sessionLog == old(sessionLog) + msgs
      ensures levelIndex == old(levelIndex) && totalLevels == old(totalLevels)
    {
      var i := 0;
      while i < |msgs|
        invariant 0 <= i <= |msgs|
        invariant sessionLog == old(sessionLog) + msgs[..i]
        invariant levelIndex == old(levelIndex) && totalLevels == old(totalLevels)
      {
        Log(msgs[i]);
        assert msgs[..i + 1] == msgs[..i] + [msgs[i]];
        i := i + 1;
      }
      assert msgs[..i] == msgs;
    }

    /** `_log_level_start`: the index advances, then the level's progress lines are logged. */
    method LogLevelStart(l: Level, requested: bool)
      modifies this
      ensures levelIndex == old(levelIndex) + 1 && totalLevels == old(totalLevels)
      ensures sessionLog == old(sessionLog) + StartLines(l, levelIndex, totalLevels, requested)
    {
      levelIndex := levelIndex + 1;
      LogAll(StartLines(l, levelIndex, totalLevels, requested));
    }

    /** The loop over ALL_LEVELS, from a zero level index. */
    method RunLevels(levels: seq<Level>, requested: seq<Level>, ctx0: LevelContext, runner: (Level, LevelContext) -> LevelRun)
      returns (ctx: LevelContext, error: Option<Exc>)
      requires levelIndex == 0
      modifies this
      ensures var p := Drive(AllLevels, levels, requested, totalLevels, ctx0, runner);
              ctx == p.ctx && error == p.error && levelIndex == p.index && sessionLog == old(sessionLog) + p.log
      ensures totalLevels == old(totalLevels)
    {
      ctx := ctx0;
      error := None;
      ghost var p := Progress(ctx0, 0, [], None);
      assert AllLevels[..0] == [];
      var i := 0;
      while i < |AllLevels|
        invariant 0 <= i <= |AllLevels|
        invariant totalLevels == old(totalLevels)
        invariant p == Drive(AllLevels[..i], levels, requested, totalLevels, ctx0, runner)
        invariant p.error.None? && ctx == p.ctx && levelIndex == p.index && sessionLog == old(sessionLog) + p.log
      {
        var l := AllLevels[i];
        DriveSnoc(AllLevels, i, levels, requested, totalLevels, ctx0, runner);
        if l in levels {
          var outcome := RunLevel(l, levels, requested, ctx, runner, old(sessionLog), p);
          p := Step(p, l, levels, requested, totalLevels, runner);
          if outcome.Raised? {
            error := Some(outcome.exc);
            DriveStops(AllLevels, i + 1, levels, requested, totalLevels, ctx0, runner);
            assert AllLevels[..|AllLevels|] == AllLevels;
            return;
          }
          ctx := outcome.value;
        }
        i := i + 1;
      }
      assert AllLevels[..i] == AllLevels;
    }

    /** One selected level: its progress lines, the runner's own lines, and the passed line when it returned a context. */
    method RunLevel(l: Level, levels: seq<Level>, requested: seq<Level>, ctx: LevelContext,
                    runner: (Level, LevelContext) -> LevelRun, ghost base: seq<string>, ghost p: Progress)
      returns (outcome: Outcome<LevelContext>)
      requires l in levels && p.error.None? && ctx == p.ctx && levelIndex == p.index && sessionLog == base + p.log
      modifies this
      ensures var q := Step(p, l, levels, requested, totalLevels, runner);
              levelIndex == q.index && sessionLog == base + q.log
              && (outcome.Ok? ==> q.error.None? && q.ctx == outcome.value)
              && (outcome.Raised? ==> q.error == Some(outcome.exc))
      ensures totalLevels == old(totalLevels)
    {
      StepRuns(p, l, levels, requested, totalLevels, runner);
      ghost var start := StartLines(l, p.index + 1, totalLevels, l in requested);
      LogLevelStart(l, l in requested);
      AppendAssoc(base, p.log, start);
      var run := runner(l, ctx);
      LogAll(run.log);
      AppendAssoc(base, p.log + start, run.log);
      outcome := run.outcome;
      if outcome.Ok? {
        Log(DoneLine(l, "PASSED"));
        AppendAssoc(base, p.log + start + run.log, [DoneLine(l, "PASSED")]);
      }
    }

    /** `_dry_run`: the plan for every level, numbering the selected ones. */
    method DryRun(platform: string, levels: seq<Level>) returns (result: TestResult)
      modifies this
      ensures result == TestResult(platform, true, None, Text("Dry run"))
      ensures sessionLog == old(sessionLog) + ["\n[DRY RUN] Would execute the following levels:\n"]
                            + DryRunLog(AllLevels, levels, |Schedule(levels)|, config, nodeDir)
      ensures levelIndex == old(levelIndex) && totalLevels == old(totalLevels)
    {
      Log("\n[DRY RUN] Would execute the following levels:\n");
      ghost var base := sessionLog;
      var levelNum := 0;
      var total := |Schedule(levels)|;
      assert AllLevels[..0] == [];
      var i := 0;
      while i < |AllLevels|
        invariant 0 <= i <= |AllLevels|
        invariant levelNum == |InOrder(AllLevels[..i], levels)|
        invariant sessionLog == base + DryRunLog(AllLevels[..i], levels, total, config, nodeDir)
        invariant levelIndex == old(levelIndex) && totalLevels == old(totalLevels)
      {
        var l := AllLevels[i];
        DryRunSnoc(AllLevels, i, levels, total, config, nodeDir);
        if l in levels {
          levelNum := levelNum + 1;
        }
        var lines := DryRunLines(l, l in levels, levelNum, total, config, nodeDir);
        LogAll(lines);
        AppendAssoc(base, DryRunLog(AllLevels[..i], levels, total, config, nodeDir), lines);
        i := i + 1;
      }
      assert AllLevels[..i] == AllLevels;
      assert sessionLog == base + DryRunLog(AllLevels, levels, total, config, nodeDir);
      result := TestResult(platform, true, None, Text("Dry run"));
    }

    /** `run_platform`: select the levels, run them (or describe them), report, and stop the last context's server. */
    method RunPlatform(name: string, opts: RunOptions, w: DriverWorld) returns (result: TestResult, stopped: Option<ServerHandle>)
      modifies this
      ensures PlatformRun(result, stopped, levelIndex, totalLevels, sessionLog)
              == Platform(config, nodeDir, outputDir, name, opts, w, old(sessionLog))
    {
      var platform := NormalizePlatform(name);
      var requested := RequestedLevels(config.levels, opts.maxLevel);
      var levels := SelectedLevels(requested, w.resolve, opts.serverUrl);
      levelIndex := 0;
      totalLevels := |Schedule(levels)|;
      LogAll(Header(platform, levels, w.versionLines));
      if opts.dryRun {
        result := DryRun(platform, levels);
        stopped := None;
        return;
      }
      result, stopped := RunLive(platform, requested, levels, opts, w);
    }

    /** The part of `run_platform` after the dry-run check, with the level counters already set. */
    method RunLive(platform: string, requested: seq<Level>, levels: seq<Level>, opts: RunOptions, w: DriverWorld)
      returns (result: TestResult, stopped: Option<ServerHandle>)
      requires levelIndex == 0
      modifies this
      ensures PlatformRun(result, stopped, levelIndex, totalLevels, sessionLog)
              == LivePlatform(config, nodeDir, outputDir, platform, requested, levels, old(totalLevels), opts, w)
    {
      sessionLog := [];
      var outputBase := OutputBase(nodeDir, outputDir);
      Log("Crash dump logging enabled: " + JoinPath(outputBase, "crash_dump.log"));
      var ctx0 := InitialContext(config, nodeDir, platform, outputBase, opts, w);
      ghost var started := sessionLog;
      ghost var p := Drive(AllLevels, levels, requested, old(totalLevels), ctx0, w.runner);
      assert LivePlatform(config, nodeDir, outputDir, platform, requested, levels, old(totalLevels), opts, w)
             == LiveEnd(platform, started + p.log, p, old(totalLevels), w.showDetails);
      var ctx, error := RunLevels(levels, requested, ctx0, w.runner);
      assert sessionLog == started + p.log && error == p.error && ctx == p.ctx && levelIndex == p.index;
      match error {
        case None =>
          Log("\n" + platform + ": PASSED");
          result := Passed(platform);
        case Some(e) =>
          LogAll(FailureLines(platform, e, w.showDetails));
          result := FailureResult(platform, e);
      }
      stopped := ctx.server;
    }

    /** `run_all`: every enabled platform in turn, a skip line for each disabled one. */
    method RunAll(enabled: string -> bool, opts: RunOptions, w: DriverWorld) returns (results: seq<TestResult>)
      modifies this
      ensures AllRun(results, levelIndex, totalLevels, sessionLog)
              == RunAllSpec(config, nodeDir, outputDir, PlatformNames, enabled, opts, w,
                            AllRun([], old(levelIndex), old(totalLevels), old(sessionLog)))
    {
      ghost var start := AllRun([], levelIndex, totalLevels, sessionLog);
      results := [];
      var i := 0;
      while i < |PlatformNames|
        invariant 0 <= i <= |PlatformNames|
        invariant AllRun(results, levelIndex, totalLevels, sessionLog)
                  == RunAllSpec(config, nodeDir, outputDir, PlatformNames[..i], enabled, opts, w, start)
      {
        RunAllSnoc(config, nodeDir, outputDir, PlatformNames, i, enabled, opts, w, start);
        results := RunEnabled(PlatformNames[i], enabled, opts, w, results);
        i := i + 1;
      }
      assert PlatformNames[..i] == PlatformNames;
    }

    /** One platform of the `run_all` loop, added to the results gathered so far. */
    method RunEnabled(name: string, enabled: string -> bool, opts: RunOptions, w: DriverWorld, results0: seq<TestResult>)
      returns (results: seq<TestResult>)
      modifies this
      ensures AllRun(results, levelIndex, totalLevels, sessionLog)
              == PlatformStep(config, nodeDir, outputDir, AllRun(results0, old(levelIndex), old(totalLevels), old(sessionLog)),
                              name, enabled, opts, w)
    {
      results := results0;
      if !enabled(name) {
        Log("Skipping " + name + " (disabled)");
      } else {
        var result, _ := RunPlatform(name, opts.(workDir := None), w);
        results := results + [result];
      }
    }
  }
}
