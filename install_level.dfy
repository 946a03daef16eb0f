/**
 * The INSTALL level: picks the platform provider by name, decides the work
 * directory, sets ComfyUI up (fresh, or an existing installation), installs
 * the node and its node dependencies and the validation endpoint, and reads
 * the CUDA packages to mock and the CI environment variables.
 *
 * The provider's operations are inputs: `setup` gives the paths a fresh setup
 * produces for a work directory, and `install` says how each install call
 * ends. The level's provider calls are returned in order, so that what was
 * installed, and what was not after a failure, is part of the result.
 */
module InstallLevel {
  import opened Base
  import opened Strings
  import opened Json
  import opened Paths
  import opened ComfyEnv
  import opened Context

  /** One call the level makes on the platform provider. */
  datatype ProviderCall =
    | SetupComfyUI(workDir: Path)
    | InstallNode(paths: TestPaths, nodeDir: Path, depsInstalled: bool)
    | InstallFromRepo(paths: TestPaths, repo: Json, name: string)

  /** Everything outside the level that it reads. */
  datatype InstallWorld = InstallWorld(
    tempDir: Path,                          // what `mkdtemp` creates
    sysExecutable: Path,                    // the interpreter running the pipeline
    embeddedBesideComfyUI: bool,            // `python_embeded` exists next to the ComfyUI directory
    resolve: Path -> Path,                  // `Path.resolve`
    setup: Path -> Outcome<TestPaths>,      // the provider's `setup_comfyui`
    install: ProviderCall -> Outcome<()>,   // how each install call ends
    rootFile: TomlFile,                     // the node's comfy-env-root.toml
    envFile: TomlFile,                      // the node's comfy-env.toml
    cudaFiles: seq<TomlFile>,               // every comfy-env.toml under the node, in walk order
    env: map<string, string>)               // the process environment

  const EndpointRepo := "PozzettiAndrea/ComfyUI-validate-endpoint"
  const EndpointName := "ComfyUI-validate-endpoint"

  function PlatformName(k: PlatformKind): string
  {
    match k
    case LinuxPlatform => "linux"
    case WindowsPlatform => "windows"
    case WindowsPortablePlatform => "windows_portable"
    case MacOSPlatform => "macos"
  }

  /** `get_platform`: the provider for a platform name; any other name raises. */
  function GetPlatform(name: string): (r: Outcome<PlatformKind>)
    ensures r.Ok? ==> PlatformName(r.value) == name
    ensures r.Raised? ==> r == Fail(TestErr, "Unknown platform: " + name, NoDetails)
  {
    if name == "linux" then Ok(LinuxPlatform)
    else if name == "windows" then Ok(WindowsPlatform)
    else if name == "windows_portable" then Ok(WindowsPortablePlatform)
    else if name == "macos" then Ok(MacOSPlatform)
    else Fail(TestErr, "Unknown platform: " + name, NoDetails)
  }

  /** Every provider is found under its own name. */
  lemma GetPlatformOfName(k: PlatformKind)
    ensures GetPlatform(PlatformName(k)) == Ok(k)
  {
  }

  /** `_find_python`: the portable build's embedded interpreter, otherwise the running one. */
  function FindPython(platformName: string, comfyuiPath: Path, embeddedBeside: bool, sysExecutable: Path): (p: Path)
    ensures platformName != "windows_portable" ==> p == sysExecutable
    ensures platformName == "windows_portable" ==> Name(p) == "python.exe"
    ensures platformName == "windows_portable" ==>
      p == JoinPath(if embeddedBeside then JoinPath(Parent(comfyuiPath), "python_embeded")
                    else JoinPath(Parent(Parent(comfyuiPath)), "python_embeded"), "python.exe")
  {
    if platformName == "windows_portable" then
      var embedded := if embeddedBeside then JoinPath(Parent(comfyuiPath), "python_embeded")
                      else JoinPath(Parent(Parent(comfyuiPath)), "python_embeded");
      JoinPathName(embedded, "python.exe");
      JoinPath(embedded, "python.exe")
    else sysExecutable
  }

  /** Running provider calls in order until one fails: the outcome and the calls made. */
  function RunCalls<C>(install: C -> Outcome<()>, cs: seq<C>): (res: (Outcome<()>, seq<C>))
  {
    if cs == [] then (Ok(()), [])
    else if install(cs[0]).Raised? then (install(cs[0]), [cs[0]])
    else
      var rest := RunCalls(install, cs[1..]);
      (rest.0, [cs[0]] + rest.1)
  }

  /** The calls made are a prefix of those planned: all of them on success, up to the failing one otherwise. */
  lemma {:induction false} RunCallsPrefix<C>(install: C -> Outcome<()>, cs: seq<C>)
    ensures RunCalls(install, cs).1 <= cs
    ensures RunCalls(install, cs).0.Ok? ==> RunCalls(install, cs).1 == cs
    ensures RunCalls(install, cs).0.Raised? ==>
      (RunCalls(install, cs).1 != [] && install(RunCalls(install, cs).1[|RunCalls(install, cs).1| - 1]) == RunCalls(install, cs).0)
  {
    if cs != [] && install(cs[0]).Ok? {
      RunCallsPrefix(install, cs[1..]);
      assert cs == [cs[0]] + cs[1..];
    }
  }

  /** The calls run until one fails, and every call before it succeeded. */
  lemma {:induction false} RunCallsOkIff<C>(install: C -> Outcome<()>, cs: seq<C>)
    ensures RunCalls(install, cs).0.Ok? <==> forall c <- cs :: install(c).Ok?
    ensures forall k :: 0 <= k < |RunCalls(install, cs).1| - 1 ==> install(RunCalls(install, cs).1[k]).Ok?
  {
    if cs != [] && install(cs[0]).Ok? {
      RunCallsOkIff(install, cs[1..]);
      assert cs == [cs[0]] + cs[1..];
      var made := RunCalls(install, cs).1;
      forall k | 0 <= k < |made| - 1 ensures install(made[k]).Ok? {
        if k > 0 {
          assert made[k] == RunCalls(install, cs[1..]).1[k - 1];
        }
      }
    }
  }

  /** One install call per node dependency, in order. */
  function DependencyCalls(paths: TestPaths, reqs: seq<(string, Json)>): (cs: seq<ProviderCall>)
    ensures |cs| == |reqs|
    ensures forall k :: 0 <= k < |reqs| ==> cs[k] == InstallFromRepo(paths, reqs[k].1, reqs[k].0)
  {
    if reqs == [] then [] else [InstallFromRepo(paths, reqs[0].1, reqs[0].0)] + DependencyCalls(paths, reqs[1..])
  }

  /** `get_node_reqs(node_dir)` on the node's root file. */
  function NodeReqs(file: TomlFile): Outcome<seq<(string, Json)>>
  {
    if file.Parsed? then NodeReqsSpec(file.doc) else Ok([])
  }

  /** Installing the node, then its node dependencies: the outcome and the calls made. */
  function InstallNodeAndDeps(ctx: LevelContext, w: InstallWorld, paths: TestPaths): (Outcome<()>, seq<ProviderCall>)
  {
    var node := InstallNode(paths, ctx.nodeDir, ctx.depsInstalled);
    if w.install(node).Raised? then (w.install(node), [node])
    else
      match NodeReqs(w.rootFile)
      case Raised(e) => (Raised(e), [node])
      case Ok(reqs) =>
        var deps := RunCalls(w.install, DependencyCalls(paths, reqs));
        (deps.0, [node] + deps.1)
  }

  /** The paths for an existing ComfyUI installation. */
  function ExistingPaths(ctx: LevelContext, w: InstallWorld, workPath: Path): (p: TestPaths)
    requires ctx.comfyuiDir.Some?
    ensures p.workDir == workPath && p.comfyuiDir == w.resolve(ctx.comfyuiDir.value)
    ensures p.customNodesDir == JoinPath(p.comfyuiDir, "custom_nodes")
  {
    var comfyuiPath := w.resolve(ctx.comfyuiDir.value);
    TestPaths(workPath, comfyuiPath,
              FindPython(ctx.platformName, comfyuiPath, w.embeddedBesideComfyUI, w.sysExecutable),
              JoinPath(comfyuiPath, "custom_nodes"))
  }

  /** The setup step: the paths (or the error) and the calls made. */
  function SetupPaths(ctx: LevelContext, w: InstallWorld, workPath: Path): (Outcome<TestPaths>, seq<ProviderCall>)
  {
    if ctx.comfyuiDir.Some? then
      var paths := ExistingPaths(ctx, w, workPath);
      var node := InstallNodeAndDeps(ctx, w, paths);
      (if node.0.Raised? then Raised(node.0.exc) else Ok(paths), node.1)
    else
      match w.setup(workPath)
      case Raised(e) => (Raised(e), [SetupComfyUI(workPath)])
      case Ok(paths) =>
        var node := InstallNodeAndDeps(ctx, w, paths);
        (if node.0.Raised? then Raised(node.0.exc) else Ok(paths), [SetupComfyUI(workPath)] + node.1)
  }

  /** The context updates of a successful INSTALL. */
  function InstallUpdates(platform: PlatformKind, paths: TestPaths, cuda: seq<string>, envVars: map<string, string>): (us: seq<Update>)
    ensures DistinctFields(us)
  {
    [SetPlatform(Some(platform)), SetPaths(Some(paths)), SetCudaPackages(cuda), SetEnvVars(Some(envVars))]
  }

  /** The CUDA packages to mock: none in GPU mode, where the real CUDA stack is used. */
  function MockPackages(w: InstallWorld): Outcome<seq<string>>
  {
    var found :- CudaPackagesOf(w.cudaFiles);
    Ok(if EnvSet(w.env, "COMFY_TEST_GPU") then [] else found)
  }

  /** After setup: install the endpoint, then read the CUDA packages and the environment variables. */
  function Finish(ctx: LevelContext, w: InstallWorld, platform: PlatformKind, paths: TestPaths): (Outcome<LevelContext>, seq<ProviderCall>)
  {
    var endpoint := InstallFromRepo(paths, JString(EndpointRepo), EndpointName);
    if w.install(endpoint).Raised? then (Raised(w.install(endpoint).exc), [endpoint])
    else
      match MockPackages(w)
      case Raised(e) => (Raised(e), [endpoint])
      case Ok(cuda) =>
        match GetEnvVars(w.env, w.envFile)
        case Raised(e) => (Raised(e), [endpoint])
        case Ok(envVars) => (Ok(WithUpdates(ctx, InstallUpdates(platform, paths, cuda, envVars))), [endpoint])
  }

  /** The work directory: the one given, or a fresh temporary one. */
  function WorkPath(ctx: LevelContext, w: InstallWorld): Path
  {
    if ctx.workDir.Some? then ctx.workDir.value else w.tempDir
  }

  /** The INSTALL level: its outcome and the provider calls it makes. */
  function InstallSpec(ctx: LevelContext, w: InstallWorld): (Outcome<LevelContext>, seq<ProviderCall>)
  {
    match GetPlatform(ctx.platformName)
    case Raised(e) => (Raised(e), [])
    case Ok(platform) =>
      var setup := SetupPaths(ctx, w, WorkPath(ctx, w));
      if setup.0.Raised? then (Raised(setup.0.exc), setup.1)
      else
        var fin := Finish(ctx, w, platform, setup.0.value);
        (fin.0, setup.1 + fin.1)
  }

  // ----- properties --------------------------------------------------------

  /** An unknown platform name fails before any provider call. */
  lemma UnknownPlatformInstallsNothing(ctx: LevelContext, w: InstallWorld)
    requires ctx.platformName !in {"linux", "windows", "windows_portable", "macos"}
    ensures InstallSpec(ctx, w) == (Fail(TestErr, "Unknown platform: " + ctx.platformName, NoDetails), [])
  {
  }

  /** A fresh ComfyUI is set up exactly when no existing installation is given, and then first. */
  lemma SetupOnlyWithoutComfyUIDir(ctx: LevelContext, w: InstallWorld, workPath: Path)
    ensures var calls := SetupPaths(ctx, w, workPath).1;
      calls != [] && (calls[0] == SetupComfyUI(workPath) <==> ctx.comfyuiDir.None?)
  {
  }

  /** A successful setup made the node call and every dependency call, all of which succeeded. */
  lemma SetupOkCalls(ctx: LevelContext, w: InstallWorld, workPath: Path)
    requires SetupPaths(ctx, w, workPath).0.Ok?
    ensures var paths := SetupPaths(ctx, w, workPath).0.value;
      && NodeReqs(w.rootFile).Ok?
      && SetupPaths(ctx, w, workPath).1 ==
           (if ctx.comfyuiDir.None? then [SetupComfyUI(workPath)] else [])
           + [InstallNode(paths, ctx.nodeDir, ctx.depsInstalled)]
           + DependencyCalls(paths, NodeReqs(w.rootFile).value)
      && forall c <- SetupPaths(ctx, w, workPath).1 :: c.SetupComfyUI? || w.install(c).Ok?
  {
    SetupThenNode(ctx, w, workPath);
    NodeOkCalls(ctx, w, SetupPaths(ctx, w, workPath).0.value);
  }

  /** A successful setup's calls: the ComfyUI setup when there is no ComfyUI yet, then the node's. */
  lemma SetupThenNode(ctx: LevelContext, w: InstallWorld, workPath: Path)
    requires SetupPaths(ctx, w, workPath).0.Ok?
    ensures var paths := SetupPaths(ctx, w, workPath).0.value;
      && InstallNodeAndDeps(ctx, w, paths).0.Ok?
      && SetupPaths(ctx, w, workPath).1
           == (if ctx.comfyuiDir.None? then [SetupComfyUI(workPath)] else []) + InstallNodeAndDeps(ctx, w, paths).1
  {
    if ctx.comfyuiDir.Some? {
      assert [] + InstallNodeAndDeps(ctx, w, SetupPaths(ctx, w, workPath).0.value).1
        == InstallNodeAndDeps(ctx, w, SetupPaths(ctx, w, workPath).0.value).1;
    }
  }

  /** When the node and its dependencies install, every call was made and succeeded. */
  lemma NodeOkCalls(ctx: LevelContext, w: InstallWorld, paths: TestPaths)
    requires InstallNodeAndDeps(ctx, w, paths).0.Ok?
    ensures NodeReqs(w.rootFile).Ok?
    ensures InstallNodeAndDeps(ctx, w, paths).1
      == [InstallNode(paths, ctx.nodeDir, ctx.depsInstalled)] + DependencyCalls(paths, NodeReqs(w.rootFile).value)
    ensures forall c <- InstallNodeAndDeps(ctx, w, paths).1 :: w.install(c).Ok?
  {
    var reqs := NodeReqs(w.rootFile).value;
    var deps := DependencyCalls(paths, reqs);
    RunCallsOkIff(w.install, deps);
    RunCallsPrefix(w.install, deps);
  }

  /** A successful INSTALL installed the validation endpoint, last. */
  lemma InstallOkEndsWithEndpoint(ctx: LevelContext, w: InstallWorld)
    requires InstallSpec(ctx, w).0.Ok?
    ensures var platform := GetPlatform(ctx.platformName).value;
      var setup := SetupPaths(ctx, w, WorkPath(ctx, w));
      && setup.0.Ok?
      && InstallSpec(ctx, w).1 == setup.1 + [InstallFromRepo(setup.0.value, JString(EndpointRepo), EndpointName)]
      && w.install(InstallFromRepo(setup.0.value, JString(EndpointRepo), EndpointName)).Ok?
  {
  }

  /** The updated context holds the new platform, paths, packages and environment, and keeps every other field. */
  lemma InstallUpdatesFields(ctx: LevelContext, platform: PlatformKind, paths: TestPaths, cuda: seq<string>,
                             envVars: map<string, string>, f: Field)
    ensures var c := WithUpdates(ctx, InstallUpdates(platform, paths, cuda, envVars));
      && c.platform == Some(platform) && c.paths == Some(paths)
      && c.cudaPackages == cuda && c.envVars == Some(envVars)
      && (f !in {FPlatform, FPaths, FCudaPackages, FEnvVars} ==> SameField(ctx, c, f))
  {
    var us := InstallUpdates(platform, paths, cuda, envVars);
    var c1 := ctx.(platform := Some(platform));
    var c2 := c1.(paths := Some(paths));
    var c3 := c2.(cudaPackages := cuda);
    var c4 := c3.(envVars := Some(envVars));
    assert us[1..][1..][1..][1..] == [];
    assert WithUpdates(c4, []) == c4;
    assert WithUpdates(c3, us[1..][1..][1..]) == c4;
    assert WithUpdates(c2, us[1..][1..]) == c4;
    assert WithUpdates(c1, us[1..]) == c4;
  }

  /** A successful INSTALL sets exactly the platform, paths, CUDA packages and environment. */
  lemma InstallOkContext(ctx: LevelContext, w: InstallWorld, f: Field)
    requires InstallSpec(ctx, w).0.Ok?
    ensures var c := InstallSpec(ctx, w).0.value;
      && c.platform == Some(GetPlatform(ctx.platformName).value)
      && c.paths == Some(SetupPaths(ctx, w, WorkPath(ctx, w)).0.value)
      && c.cudaPackages == MockPackages(w).value
      && (EnvSet(w.env, "COMFY_TEST_GPU") ==> c.cudaPackages == [])
      && c.envVars == Some(GetEnvVars(w.env, w.envFile).value)
      && (f !in {FPlatform, FPaths, FCudaPackages, FEnvVars} ==> SameField(ctx, c, f))
  {
    var paths := SetupPaths(ctx, w, WorkPath(ctx, w)).0.value;
    InstallUpdatesFields(ctx, GetPlatform(ctx.platformName).value, paths, MockPackages(w).value,
                         GetEnvVars(w.env, w.envFile).value, f);
  }

  // ----- the level, as it runs ---------------------------------------------

  /** `_install_node_dependencies`' loop: install each node dependency, stopping at the first failure. */
  method InstallDependencies(install: ProviderCall -> Outcome<()>, paths: TestPaths, reqs: seq<(string, Json)>)
    returns (r: Outcome<()>, calls: seq<ProviderCall>)
    ensures (r, calls) == RunCalls(install, DependencyCalls(paths, reqs))
  {
    r, calls := RunEach(install, DependencyCalls(paths, reqs));
  }

  /** The call loop: each call in turn, stopping at the first that raises. */
  method RunEach<C>(install: C -> Outcome<()>, cs: seq<C>) returns (r: Outcome<()>, calls: seq<C>)
    ensures (r, calls) == RunCalls(install, cs)
  {
    calls := [];
    var i := 0;
    assert cs[i..] == cs;
    while i < |cs|
      invariant i <= |cs|
      invariant RunCalls(install, cs).0 == RunCalls(install, cs[i..]).0
      invariant RunCalls(install, cs).1 == calls + RunCalls(install, cs[i..]).1
    {
      var call := cs[i];
      assert cs[i..] == [call] + cs[i + 1..];
      var result := install(call);
      if result.Raised? {
        assert RunCalls(install, cs[i..]) == (result, [call]);
        return result, calls + [call];
      }
      assert RunCalls(install, cs[i..]).1 == [call] + RunCalls(install, cs[i + 1..]).1;
      calls := calls + [call];
      i := i + 1;
    }
    assert cs[i..] == [] && calls + [] == calls;
    r := Ok(());
  }

  /** The node and its dependencies. */
  method InstallNodeWithDependencies(ctx: LevelContext, w: InstallWorld, paths: TestPaths)
    returns (r: Outcome<()>, calls: seq<ProviderCall>)
    ensures (r, calls) == InstallNodeAndDeps(ctx, w, paths)
  {
    var node := InstallNode(paths, ctx.nodeDir, ctx.depsInstalled);
    calls := [node];
    r := w.install(node);
    if r.Raised? {
      return;
    }
    var reqs := GetNodeReqs(w.rootFile);
    if reqs.Raised? {
      return Raised(reqs.exc), calls;
    }
    var depCalls;
    r, depCalls := InstallDependencies(w.install, paths, reqs.value);
    calls := calls + depCalls;
  }

  /** `_setup_existing_with_install` or `_setup_full`. */
  method Setup(ctx: LevelContext, w: InstallWorld, workPath: Path) returns (r: Outcome<TestPaths>, calls: seq<ProviderCall>)
    ensures (r, calls) == SetupPaths(ctx, w, workPath)
  {
    var paths: TestPaths;
    calls := [];
    if ctx.comfyuiDir.Some? {
      paths := ExistingPaths(ctx, w, workPath);
    } else {
      calls := [SetupComfyUI(workPath)];
      var setup := w.setup(workPath);
      if setup.Raised? {
        return Raised(setup.exc), calls;
      }
      paths := setup.value;
    }
    var node, nodeCalls := InstallNodeWithDependencies(ctx, w, paths);
    assert [] + nodeCalls == nodeCalls;
    calls := calls + nodeCalls;
    r := if node.Raised? then Raised(node.exc) else Ok(paths);
  }

  /** `run`: the INSTALL level. */
  method Run(ctx: LevelContext, w: InstallWorld) returns (r: Outcome<LevelContext>, calls: seq<ProviderCall>)
    ensures (r, calls) == InstallSpec(ctx, w)
  {
    var platform := GetPlatform(ctx.platformName);
    if platform.Raised? {
      return Raised(platform.exc), [];
    }
    var paths;
    paths, calls := Setup(ctx, w, WorkPath(ctx, w));
    if paths.Raised? {
      return Raised(paths.exc), calls;
    }
    var endpoint := InstallFromRepo(paths.value, JString(EndpointRepo), EndpointName);
    calls := calls + [endpoint];
    var done := w.install(endpoint);
    if done.Raised? {
      return Raised(done.exc), calls;
    }
    var cuda := GetCudaPackages(w.cudaFiles);
    if cuda.Raised? {
      return Raised(cuda.exc), calls;
    }
    var packages := cuda.value;
    if EnvSet(w.env, "COMFY_TEST_GPU") {
      packages := [];
    }
    var envVars := GetEnvVars(w.env, w.envFile);
    if envVars.Raised? {
      return Raised(envVars.exc), calls;
    }
    r := Ok(WithUpdates(ctx, InstallUpdates(platform.value, paths.value, packages, envVars.value)));
  }
}
