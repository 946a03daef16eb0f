/**
 * The immutable context passed from one test level to the next: the fields
 * set when a platform run starts, the caller's overrides, and the state the
 * levels accumulate. A level never changes a context; it returns a copy in
 * which some fields are replaced.
 */
module Context {
  import opened Base
  import opened Json
  import opened Paths
  import opened ConfigFile

  /**
   * The parts of the test configuration the levels read: the requested levels,
   * the workflows to run, those that need a GPU, the workflow timeout, the
   * ComfyUI version, and the platforms whose configuration skips workflow runs.
   */
  datatype RunConfig = RunConfig(
    levels: seq<Level>,
    workflows: seq<Path>,
    gpuWorkflows: seq<Path>,
    workflowTimeout: Json,
    comfyuiVersion: string,
    skipWorkflowPlatforms: set<string>)

  /** The platform provider the INSTALL level picked. */
  datatype PlatformKind = LinuxPlatform | WindowsPlatform | WindowsPortablePlatform | MacOSPlatform

  /** Where ComfyUI, its interpreter and its custom nodes live for one run. */
  datatype TestPaths = TestPaths(workDir: Path, comfyuiDir: Path, python: Path, customNodesDir: Path)

  /** A started server: the managed one the pipeline launched, or a wrapper around an external URL. */
  datatype ServerHandle = ManagedServer(id: nat) | ExternalServer(url: string)

  /** A client of a server's HTTP API. */
  datatype ApiHandle = ApiHandle(server: ServerHandle)

  /** The logging callback every level writes through. */
  datatype LogSink = LogSink(id: nat)

  datatype LevelContext = LevelContext(
    // set when the run starts
    config: RunConfig,
    nodeDir: Path,
    platformName: string,
    log: LogSink,
    outputBase: Path,
    // overrides
    workDir: Option<Path>,
    comfyuiDir: Option<Path>,
    serverUrl: Option<string>,
    workflowFilter: Option<string>,
    depsInstalled: bool,
    // accumulated by the levels
    platform: Option<PlatformKind>,
    paths: Option<TestPaths>,
    server: Option<ServerHandle>,
    api: Option<ApiHandle>,
    registeredNodes: seq<string>,
    cudaPackages: seq<string>,
    envVars: Option<map<string, string>>)

  /** A context with only the required fields given: every other field takes its declared default. */
  function NewContext(config: RunConfig, nodeDir: Path, platformName: string, log: LogSink, outputBase: Path): (c: LevelContext)
    ensures c.config == config && c.nodeDir == nodeDir && c.platformName == platformName
    ensures c.log == log && c.outputBase == outputBase
    ensures c.workDir.None? && c.comfyuiDir.None? && c.serverUrl.None? && c.workflowFilter.None? && !c.depsInstalled
    ensures c.platform.None? && c.paths.None? && c.server.None? && c.api.None?
    ensures c.registeredNodes == [] && c.cudaPackages == [] && c.envVars.None?
  {
    LevelContext(config, nodeDir, platformName, log, outputBase,
                 None, None, None, None, false,
                 None, None, None, None, [], [], None)
  }

  /** The names of the context's fields. */
  datatype Field =
    | FConfig | FNodeDir | FPlatformName | FLog | FOutputBase
    | FWorkDir | FComfyuiDir | FServerUrl | FWorkflowFilter | FDepsInstalled
    | FPlatform | FPaths | FServer | FApi | FRegisteredNodes | FCudaPackages | FEnvVars

  /** One keyword argument of `with_updates`: a field and its new value. */
  datatype Update =
    | SetConfig(config: RunConfig)
    | SetNodeDir(nodeDir: Path)
    | SetPlatformName(platformName: string)
    | SetLog(log: LogSink)
    | SetOutputBase(outputBase: Path)
    | SetWorkDir(workDir: Option<Path>)
    | SetComfyuiDir(comfyuiDir: Option<Path>)
    | SetServerUrl(serverUrl: Option<string>)
    | SetWorkflowFilter(workflowFilter: Option<string>)
    | SetDepsInstalled(depsInstalled: bool)
    | SetPlatform(platform: Option<PlatformKind>)
    | SetPaths(paths: Option<TestPaths>)
    | SetServer(server: Option<ServerHandle>)
    | SetApi(api: Option<ApiHandle>)
    | SetRegisteredNodes(registeredNodes: seq<string>)
    | SetCudaPackages(cudaPackages: seq<string>)
    | SetEnvVars(envVars: Option<map<string, string>>)

  function FieldOf(u: Update): Field
  {
    match u
    case SetConfig(_) => FConfig
    case SetNodeDir(_) => FNodeDir
    case SetPlatformName(_) => FPlatformName
    case SetLog(_) => FLog
    case SetOutputBase(_) => FOutputBase
    case SetWorkDir(_) => FWorkDir
    case SetComfyuiDir(_) => FComfyuiDir
    case SetServerUrl(_) => FServerUrl
    case SetWorkflowFilter(_) => FWorkflowFilter
    case SetDepsInstalled(_) => FDepsInstalled
    case SetPlatform(_) => FPlatform
    case SetPaths(_) => FPaths
    case SetServer(_) => FServer
    case SetApi(_) => FApi
    case SetRegisteredNodes(_) => FRegisteredNodes
    case SetCudaPackages(_) => FCudaPackages
    case SetEnvVars(_) => FEnvVars
  }

  /** The fields named by a list of updates. */
  function FieldsOf(us: seq<Update>): (fs: set<Field>)
    ensures forall u <- us :: FieldOf(u) in fs
    ensures forall f <- fs :: exists u <- us :: FieldOf(u) == f
  {
    if us == [] then {} else {FieldOf(us[0])} + FieldsOf(us[1..])
  }

  /** Keyword arguments are distinct: no field is named twice. */
  predicate DistinctFields(us: seq<Update>)
  {
    forall i, j :: 0 <= i < j < |us| ==> FieldOf(us[i]) != FieldOf(us[j])
  }

  /** The context with one field replaced. */
  function Apply(c: LevelContext, u: Update): LevelContext
  {
    match u
    case SetConfig(v) => c.(config := v)
    case SetNodeDir(v) => c.(nodeDir := v)
    case SetPlatformName(v) => c.(platformName := v)
    case SetLog(v) => c.(log := v)
    case SetOutputBase(v) => c.(outputBase := v)
    case SetWorkDir(v) => c.(workDir := v)
    case SetComfyuiDir(v) => c.(comfyuiDir := v)
    case SetServerUrl(v) => c.(serverUrl := v)
    case SetWorkflowFilter(v) => c.(workflowFilter := v)
    case SetDepsInstalled(v) => c.(depsInstalled := v)
    case SetPlatform(v) => c.(platform := v)
    case SetPaths(v) => c.(paths := v)
    case SetServer(v) => c.(server := v)
    case SetApi(v) => c.(api := v)
    case SetRegisteredNodes(v) => c.(registeredNodes := v)
    case SetCudaPackages(v) => c.(cudaPackages := v)
    case SetEnvVars(v) => c.(envVars := v)
  }

  /** Two contexts agree on one field. */
  predicate SameField(a: LevelContext, b: LevelContext, f: Field)
  {
    match f
    case FConfig => a.config == b.config
    case FNodeDir => a.nodeDir == b.nodeDir
    case FPlatformName => a.platformName == b.platformName
    case FLog => a.log == b.log
    case FOutputBase => a.outputBase == b.outputBase
    case FWorkDir => a.workDir == b.workDir
    case FComfyuiDir => a.comfyuiDir == b.comfyuiDir
    case FServerUrl => a.serverUrl == b.serverUrl
    case FWorkflowFilter => a.workflowFilter == b.workflowFilter
    case FDepsInstalled => a.depsInstalled == b.depsInstalled
    case FPlatform => a.platform == b.platform
    case FPaths => a.paths == b.paths
    case FServer => a.server == b.server
    case FApi => a.api == b.api
    case FRegisteredNodes => a.registeredNodes == b.registeredNodes
    case FCudaPackages => a.cudaPackages == b.cudaPackages
    case FEnvVars => a.envVars == b.envVars
  }

  /** Replacing one field leaves every other field as it was. */
  lemma ApplyKeepsOthers(c: LevelContext, u: Update, f: Field)
    requires f != FieldOf(u)
    ensures SameField(c, Apply(c, u), f)
  {
  }

  /** `with_updates(**kwargs)`: a copy with the named fields replaced. */
  function WithUpdates(c: LevelContext, us: seq<Update>): (r: LevelContext)
    requires DistinctFields(us)
    ensures us == [] ==> r == c
    decreases |us|
  {
    if us == [] then c else WithUpdates(Apply(c, us[0]), us[1..])
  }

  /** Every named field holds the value its update gives it. */
  lemma {:induction false} NamedFieldsReplaced(c: LevelContext, us: seq<Update>, u: Update)
    requires DistinctFields(us) && u in us
    ensures SameField(WithUpdates(c, us), Apply(c, u), FieldOf(u))
    decreases |us|
  {
    if us[0] == u {
      assert FieldOf(u) !in FieldsOf(us[1..]) by {
        forall v <- us[1..] ensures FieldOf(v) != FieldOf(u) {
          var j :| 0 <= j < |us[1..]| && us[1..][j] == v;
          assert us[j + 1] == v;
        }
      }
      UnnamedFieldsKept(Apply(c, u), us[1..], FieldOf(u));
    } else {
      NamedFieldsReplaced(Apply(c, us[0]), us[1..], u);
      assert FieldOf(us[0]) != FieldOf(u) by {
        var j :| 0 <= j < |us| && us[j] == u;
      }
      ApplyKeepsOthers(c, us[0], FieldOf(u));
    }
  }

  /** Every field that is not named keeps its value. */
  lemma {:induction false} UnnamedFieldsKept(c: LevelContext, us: seq<Update>, f: Field)
    requires DistinctFields(us) && f !in FieldsOf(us)
    ensures SameField(c, WithUpdates(c, us), f)
    decreases |us|
  {
    if us != [] {
      UnnamedFieldsKept(Apply(c, us[0]), us[1..], f);
      ApplyKeepsOthers(c, us[0], f);
    }
  }
}
