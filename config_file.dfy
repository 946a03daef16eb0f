/**
 * The test configuration and how it is read from an already parsed
 * `comfy-test.toml` document: defaults, the `workflows`/`workflow`
 * precedence, "all" discovery, legacy workflow keys and the per-platform
 * sections.
 */
module ConfigFile {
  import opened Base
  import opened Strings
  import opened Json
  import opened Paths
  import opened Sorting

  /** The test levels, in the order the pipeline runs them. */
  datatype Level = Syntax | Install | Registration | Instantiation | StaticCapture | Validation | Execution

  /** `TestLevel.value`: the name used in the config file. */
  function LevelValue(l: Level): string
  {
    match l
    case Syntax => "syntax"
    case Install => "install"
    case Registration => "registration"
    case Instantiation => "instantiation"
    case StaticCapture => "static_capture"
    case Validation => "validation"
    case Execution => "execution"
  }

  /** `TestLevel(v)`: the level whose value is `v`; anything else raises ValueError. */
  function ParseLevel(v: Json): (r: Outcome<Level>)
    ensures r.Ok? ==> v == JString(LevelValue(r.value))
  {
    if v == JString("syntax") then Ok(Syntax)
    else if v == JString("install") then Ok(Install)
    else if v == JString("registration") then Ok(Registration)
    else if v == JString("instantiation") then Ok(Instantiation)
    else if v == JString("static_capture") then Ok(StaticCapture)
    else if v == JString("validation") then Ok(Validation)
    else if v == JString("execution") then Ok(Execution)
    else PyFail("ValueError", Repr(v) + " is not a valid TestLevel")
  }

  lemma ParseLevelValue(l: Level)
    ensures ParseLevel(JString(LevelValue(l))) == Ok(l)
  {
  }

  /** The `[test.workflows]` section. `timeout` is None when the file does not set it. */
  datatype WorkflowConfig = WorkflowConfig(
    run: seq<Path>,
    screenshot: seq<Path>,
    files: seq<Path>,
    file: Option<Path>,
    timeout: Option<Json>)

  datatype PlatformTestConfig = PlatformTestConfig(enabled: Json, skipWorkflow: Json, portableVersion: Json)

  /** The configuration values, as the file gives them. */
  datatype TestConfig = TestConfig(
    name: Json,
    comfyuiVersion: Json,
    pythonVersion: Json,
    cpuOnly: Json,
    timeout: Json,
    levels: seq<Level>,
    workflow: WorkflowConfig,
    linux: PlatformTestConfig,
    windows: PlatformTestConfig,
    windowsPortable: PlatformTestConfig)

  /** The level names used when the file names none. */
  const DefaultLevelValues: seq<Json> := [JString("syntax"), JString("install"), JString("registration"),
                                         JString("instantiation"), JString("validation"), JString("execution")]

  /** What the parser may look at in the node directory: the file names in `workflows/`, if it exists. */
  datatype BaseDir = BaseDir(path: Path, workflowsDir: Option<seq<string>>)

  /** `[TestLevel(l) for l in raw]`. */
  function ParseLevels(raw: seq<Json>): (r: Outcome<seq<Level>>)
    ensures r.Ok? ==> |r.value| == |raw| && forall k :: 0 <= k < |raw| ==> ParseLevel(raw[k]) == Ok(r.value[k])
  {
    if raw == [] then Ok([])
    else
      var init :- ParseLevels(raw[..|raw| - 1]);
      var last :- ParseLevel(raw[|raw| - 1]);
      Ok(init + [last])
  }

  /** A list whose every item names a level parses. */
  lemma {:induction false} ParseLevelsOk(raw: seq<Json>)
    requires forall k :: 0 <= k < |raw| ==> ParseLevel(raw[k]).Ok?
    ensures ParseLevels(raw).Ok?
  {
    if raw != [] {
      ParseLevelsOk(raw[..|raw| - 1]);
    }
  }

  /** `base_dir / f` for a value that must be text. */
  function JoinValue(base: Path, f: Json): Outcome<Path>
  {
    if f.JString? then Ok(JoinPath(base, f.s))
    else TypeError("unsupported operand type(s) for /: 'PosixPath' and '" + TypeName(f) + "'")
  }

  /** `[base_dir / f for f in value]`. */
  function JoinAll(base: Path, fs: seq<Json>): (r: Outcome<seq<Path>>)
    ensures r.Ok? ==> (|r.value| == |fs|
      && forall k :: 0 <= k < |fs| ==> fs[k].JString? && r.value[k] == JoinPath(base, fs[k].s))
  {
    if fs == [] then Ok([])
    else
      var init :- JoinAll(base, fs[..|fs| - 1]);
      var last :- JoinValue(base, fs[|fs| - 1]);
      Ok(init + [last])
  }

  /** The `*.json` files of a listing. */
  function JsonFiles(names: seq<string>): (r: seq<string>)
    ensures forall n <- r :: n in names && EndsWith(n, ".json")
    ensures forall n <- names :: EndsWith(n, ".json") ==> n in r
  {
    if names == [] then []
    else (if EndsWith(names[0], ".json") then [names[0]] else []) + JsonFiles(names[1..])
  }

  function JoinNames(dir: Path, names: seq<string>): (r: seq<Path>)
    ensures |r| == |names| && forall k :: 0 <= k < |names| ==> r[k] == JoinPath(dir, names[k])
  {
    if names == [] then [] else [JoinPath(dir, names[0])] + JoinNames(dir, names[1..])
  }

  /** `resolve_workflows`: "all" is the sorted `*.json` files of `workflows/` (none without it); otherwise a list of paths. */
  function ResolveWorkflows(base: BaseDir, value: Json): Outcome<seq<Path>>
  {
    if PyEq(value, JString("all")) then
      match base.workflowsDir
      case None => Ok([])
      case Some(names) => Ok(JoinNames(JoinPath(base.path, "workflows"), SortStrings(JsonFiles(names))))
    else
      var fs :- Iter(value);
      JoinAll(base.path, fs)
  }

  /** `f(data[key]) if key in data else absent`. */
  function OptionalKey<T>(data: Json, key: string, f: Json -> Outcome<T>, absent: T): (r: Outcome<T>)
    ensures data.JObject? && DictLookup(data.fields, key).None? ==> r == Ok(absent)
    ensures data.JObject? && DictLookup(data.fields, key).Some? ==> r == f(DictLookup(data.fields, key).value)
  {
    var has :- Has(data, key);
    if has then (var v :- At(data, key); f(v)) else Ok(absent)
  }

  /** `[base_dir / f for f in value]`, for the legacy `files`. */
  function JoinList(base: Path, v: Json): (r: Outcome<seq<Path>>)
    ensures v.JList? && r.Ok? ==>
      |r.value| == |v.items| && forall k :: 0 <= k < |v.items| ==> v.items[k].JString? && r.value[k] == JoinPath(base, v.items[k].s)
  {
    var fs :- Iter(v);
    JoinAll(base, fs)
  }

  /** `base_dir / data["file"]`, for the legacy `file`. */
  function FileOf(base: Path, v: Json): (r: Outcome<Option<Path>>)
    ensures r.Ok? <==> v.JString?
    ensures r.Ok? ==> r.value == Some(JoinPath(base, v.s))
  {
    var p :- JoinValue(base, v);
    Ok(Some(p))
  }

  /**
   * `_parse_workflow_config`: each key that is absent leaves its field
   * empty; the legacy `files` and `file` are joined under the base
   * directory; `timeout` is passed on only when the key is present.
   */
  function ParseWorkflowConfig(data: Json, base: BaseDir): (r: Outcome<WorkflowConfig>)
    ensures data.JObject? && r.Ok? ==>
      && (r.value.timeout.Some? <==> DictLookup(data.fields, "timeout").Some?)
      && (r.value.timeout.Some? ==> r.value.timeout.value == DictLookup(data.fields, "timeout").value)
      && (DictLookup(data.fields, "run").None? ==> r.value.run == [])
      && (DictLookup(data.fields, "screenshot").None? ==> r.value.screenshot == [])
      && (DictLookup(data.fields, "files").None? ==> r.value.files == [])
      && (r.value.file.Some? <==> DictLookup(data.fields, "file").Some?)
    ensures data.JObject? && r.Ok? ==>
      var f := DictLookup(data.fields, "file");
      f.Some? ==> f.value.JString? && r.value.file == Some(JoinPath(base.path, f.value.s))
    ensures data.JObject? && r.Ok? ==>
      var fs := DictLookup(data.fields, "files");
      fs.Some? && fs.value.JList? ==>
        |r.value.files| == |fs.value.items|
        && forall k :: 0 <= k < |fs.value.items| ==>
             fs.value.items[k].JString? && r.value.files[k] == JoinPath(base.path, fs.value.items[k].s)
  {
    var run :- OptionalKey(data, "run", v => ResolveWorkflows(base, v), []);
    var screenshot :- OptionalKey(data, "screenshot", v => ResolveWorkflows(base, v), []);
    var files :- OptionalKey(data, "files", v => JoinList(base.path, v), []);
    var file :- OptionalKey(data, "file", v => FileOf(base.path, v), None);
    var timeout :- OptionalKey(data, "timeout", v => Ok(Some(v)), None);
    Ok(WorkflowConfig(run, screenshot, files, file, timeout))
  }

  /** A value `resolve_workflows` accepts: "all", or a list of path strings. */
  predicate Resolvable(v: Json)
  {
    v == JString("all") || (v.JList? && forall f <- v.items :: f.JString?)
  }

  /**
   * A workflow table whose `run` and `screenshot` are resolvable, whose
   * `files` is a list of strings and whose `file` is a string always parses.
   */
  lemma ParseWorkflowConfigOk(fields: Items, base: BaseDir)
    requires DictLookup(fields, "run").Some? ==> Resolvable(DictLookup(fields, "run").value)
    requires DictLookup(fields, "screenshot").Some? ==> Resolvable(DictLookup(fields, "screenshot").value)
    requires DictLookup(fields, "files").Some? ==>
      DictLookup(fields, "files").value.JList? && forall f <- DictLookup(fields, "files").value.items :: f.JString?
    requires DictLookup(fields, "file").Some? ==> DictLookup(fields, "file").value.JString?
    ensures ParseWorkflowConfig(JObject(fields), base).Ok?
  {
    var data := JObject(fields);
    if DictLookup(fields, "run").Some? {
      ResolvableOk(base, DictLookup(fields, "run").value);
    }
    assert OptionalKey(data, "run", v => ResolveWorkflows(base, v), []).Ok?;
    if DictLookup(fields, "screenshot").Some? {
      ResolvableOk(base, DictLookup(fields, "screenshot").value);
    }
    assert OptionalKey(data, "screenshot", v => ResolveWorkflows(base, v), []).Ok?;
    if DictLookup(fields, "files").Some? {
      JoinAllOfTexts(base.path, DictLookup(fields, "files").value.items);
    }
    assert OptionalKey(data, "files", v => JoinList(base.path, v), []).Ok?;
    assert OptionalKey(data, "file", v => FileOf(base.path, v), None).Ok?;
  }

  /** `resolve_workflows` accepts `"all"` and every list of names. */
  lemma ResolvableOk(base: BaseDir, v: Json)
    requires Resolvable(v)
    ensures ResolveWorkflows(base, v).Ok?
  {
    if v != JString("all") {
      assert !PyEq(v, JString("all"));
      JoinAllOfTexts(base.path, v.items);
    }
  }

  /** A list of names resolves to the same names under the base directory, in the same order. */
  lemma ResolveList(base: BaseDir, names: seq<string>)
    ensures ResolveWorkflows(base, JList(Texts(names))) == Ok(JoinNames(base.path, names))
  {
    JoinAllTexts(base.path, names);
  }

  lemma JoinAllTexts(base: Path, ss: seq<string>)
    ensures JoinAll(base, Texts(ss)) == Ok(JoinNames(base, ss))
  {
    JoinAllOfTexts(base, Texts(ss));
    var r := JoinAll(base, Texts(ss)).value;
    var t := Texts(ss);
    assert forall k :: 0 <= k < |ss| ==> t[k].s == ss[k];
    assert forall k :: 0 <= k < |ss| ==> r[k] == JoinNames(base, ss)[k];
    assert r == JoinNames(base, ss);
  }

  lemma {:induction false} JoinAllOfTexts(base: Path, fs: seq<Json>)
    requires forall f <- fs :: f.JString?
    ensures JoinAll(base, fs).Ok?
  {
    if fs != [] {
      JoinAllOfTexts(base, fs[..|fs| - 1]);
    }
  }

  /** `"all"` finds exactly the sorted `*.json` files of `workflows/`, and none without that directory. */
  lemma ResolveAll(base: BaseDir)
    ensures base.workflowsDir.None? ==> ResolveWorkflows(base, JString("all")) == Ok([])
    ensures base.workflowsDir.Some? ==>
      var r := ResolveWorkflows(base, JString("all")).value;
      var names := SortStrings(JsonFiles(base.workflowsDir.value));
      && |r| == |names|
      && (forall k :: 0 <= k < |r| ==> r[k] == JoinPath(JoinPath(base.path, "workflows"), names[k]))
      && (forall i, j :: 0 <= i < j < |names| ==> StrLe(names[i], names[j]))
      && multiset(names) == multiset(JsonFiles(base.workflowsDir.value))
  {
    if base.workflowsDir.Some? {
      SortStringsSorted(JsonFiles(base.workflowsDir.value));
    }
  }

  /** `_parse_platform_config`: the section's `enabled` key, else the fallback; `skip_workflow` defaults to false. */
  function ParsePlatformConfig(data: Json, enabled: Json): (r: Outcome<PlatformTestConfig>)
    ensures r.Ok? <==> data.JObject?
    ensures data.JObject? && DictLookup(data.fields, "enabled").None? ==> r.value.enabled == enabled
    ensures data.JObject? && DictLookup(data.fields, "enabled").Some? ==>
      r.value.enabled == DictLookup(data.fields, "enabled").value
    ensures data.JObject? && DictLookup(data.fields, "skip_workflow").None? ==> r.value.skipWorkflow == JBool(false)
  {
    var e :- Get(data, "enabled", enabled);
    Ok(PlatformTestConfig(e, Get(data, "skip_workflow", JBool(false)).value,
                          Get(data, "comfyui_portable_version", JNull).value))
  }

  /** One platform's config: `platforms.get(name, True)` is the fallback for its own section. */
  function PlatformSection(test: Items, platforms: Json, name: string): Outcome<PlatformTestConfig>
  {
    var fallback :- Get(platforms, name, JBool(true));
    ParsePlatformConfig(Get(JObject(test), name, JObject([])).value, fallback)
  }

  /** `_parse_config`: a missing or empty `[test]` section is a ConfigError. */
  function ParseConfig(data: Items, base: BaseDir): (r: Outcome<TestConfig>)
    ensures !Truthy(DictLookupOr(data, "test")) ==>
      r == Fail(ConfigErr, "Missing [test] section in config file",
                Text("Your comfy-test.toml must have a [test] section with at least a name"))
  {
    var test := DictLookupOr(data, "test");
    if !Truthy(test) then
      Fail(ConfigErr, "Missing [test] section in config file",
           Text("Your comfy-test.toml must have a [test] section with at least a name"))
    else if !test.JObject? then AttributeError(test, "get")
    else ParseTest(test.fields, base)
  }

  /** The values of the `[test]` table that have plain defaults. */
  datatype Basics = Basics(name: Json, comfyuiVersion: Json, pythonVersion: Json, cpuOnly: Json, timeout: Json)

  function ParseBasics(test: Items, base: BaseDir): (r: Basics)
    ensures DictLookup(test, "name").None? ==> r.name == JString(Name(base.path))
    ensures DictLookup(test, "comfyui_version").None? ==> r.comfyuiVersion == JString("latest")
    ensures DictLookup(test, "python_version").None? ==> r.pythonVersion == JString("3.10")
    ensures DictLookup(test, "cpu_only").None? ==> r.cpuOnly == JBool(true)
    ensures DictLookup(test, "timeout").None? ==> r.timeout == JInt(300)
  {
    var t := JObject(test);
    Basics(Get(t, "name", JString(Name(base.path))).value, Get(t, "comfyui_version", JString("latest")).value,
           Get(t, "python_version", JString("3.10")).value, Get(t, "cpu_only", JBool(true)).value,
           Get(t, "timeout", JInt(300)).value)
  }

  /** The `levels` list, all six default levels when absent. */
  function TestLevels(test: Items): Outcome<seq<Level>>
  {
    var rawItems :- Iter(Get(JObject(test), "levels", JList(DefaultLevelValues)).value);
    ParseLevels(rawItems)
  }

  /** The table the workflow config is read from: `workflows` when non-empty, else `workflow` when non-empty, else none. */
  function WorkflowSection(test: Items): Json
  {
    var workflowsData := Get(JObject(test), "workflows", JObject([])).value;
    var workflowData := Get(JObject(test), "workflow", JObject([])).value;
    if Truthy(workflowsData) then workflowsData
    else if Truthy(workflowData) then workflowData
    else JObject([])
  }

  function ParseTest(test: Items, base: BaseDir): Outcome<TestConfig>
  {
    var levels :- TestLevels(test);
    var platforms := Get(JObject(test), "platforms", JObject([])).value;
    var workflow :- ParseWorkflowConfig(WorkflowSection(test), base);
    var linux :- PlatformSection(test, platforms, "linux");
    var windows :- PlatformSection(test, platforms, "windows");
    var portable :- PlatformSection(test, platforms, "windows_portable");
    var b := ParseBasics(test, base);
    Ok(TestConfig(b.name, b.comfyuiVersion, b.pythonVersion, b.cpuOnly, b.timeout, levels, workflow, linux, windows, portable))
  }

  /** `data.get(k, {})` on the top-level mapping. */
  function DictLookupOr(data: Items, k: string): Json
  {
    match DictLookup(data, k)
    case Some(v) => v
    case None => JObject([])
  }

  /** The default levels: the six levels other than STATIC_CAPTURE, in canonical order. */
  lemma DefaultLevels(test: Items)
    requires DictLookup(test, "levels").None?
    ensures TestLevels(test) == Ok([Syntax, Install, Registration, Instantiation, Validation, Execution])
  {
    DefaultLevelsParse();
    assert Get(JObject(test), "levels", JList(DefaultLevelValues)) == Ok(JList(DefaultLevelValues));
  }

  lemma DefaultLevelsParse()
    ensures ParseLevels(DefaultLevelValues) == Ok([Syntax, Install, Registration, Instantiation, Validation, Execution])
  {
    var d := DefaultLevelValues;
    assert ParseLevel(d[0]) == Ok(Syntax) && ParseLevel(d[1]) == Ok(Install) && ParseLevel(d[2]) == Ok(Registration);
    assert ParseLevel(d[3]) == Ok(Instantiation) && ParseLevel(d[4]) == Ok(Validation) && ParseLevel(d[5]) == Ok(Execution);
    ParseLevelsOk(d);
    var r := ParseLevels(d).value;
    assert ParseLevel(d[0]) == Ok(r[0]) && ParseLevel(d[1]) == Ok(r[1]) && ParseLevel(d[2]) == Ok(r[2]);
    assert ParseLevel(d[3]) == Ok(r[3]) && ParseLevel(d[4]) == Ok(r[4]) && ParseLevel(d[5]) == Ok(r[5]);
    assert |r| == |d| == 6;
    assert r == [Syntax, Install, Registration, Instantiation, Validation, Execution];
  }

  /** A non-empty `workflows` table wins over the legacy `workflow` table; an empty one leaves `workflow` in force. */
  lemma WorkflowsTakesPrecedence(test: Items)
    ensures Truthy(Get(JObject(test), "workflows", JObject([])).value) ==>
      WorkflowSection(test) == Get(JObject(test), "workflows", JObject([])).value
    ensures !Truthy(Get(JObject(test), "workflows", JObject([])).value)
            && Truthy(Get(JObject(test), "workflow", JObject([])).value) ==>
      WorkflowSection(test) == Get(JObject(test), "workflow", JObject([])).value
    ensures DictLookup(test, "workflows").None? && DictLookup(test, "workflow").None? ==>
      WorkflowSection(test) == JObject([])
  {
  }

  /** Without a section, a platform is enabled unless the `platforms` table says otherwise, and runs its workflows. */
  lemma PlatformDefaults(test: Items, platforms: Items, name: string)
    requires DictLookup(test, name).None?
    ensures var r := PlatformSection(test, JObject(platforms), name);
      && r.Ok?
      && r.value.enabled == (if DictLookup(platforms, name).Some? then DictLookup(platforms, name).value else JBool(true))
      && r.value.skipWorkflow == JBool(false)
  {
    assert DictLookup([], "enabled").None? && DictLookup([], "skip_workflow").None?;
  }

  /**
   * `discover_config`: the first of the file names (the default list when
   * none are given) that exists in the node directory is loaded; when none
   * exists, ConfigError.
   */
  method DiscoverConfig(nodeDir: Path, fileNames: seq<string>, existing: set<Path>,
                        load: Path -> Outcome<TestConfig>)
    returns (r: Outcome<TestConfig>)
    ensures r == DiscoverSpec(nodeDir, fileNames, existing, load)
  {
    var names := if fileNames == [] then ConfigFileNames else fileNames;
    var i := 0;
    while i < |names|
      invariant 0 <= i <= |names|
      invariant FirstExisting(nodeDir, names, existing) == FirstExisting(nodeDir, names[i..], existing)
    {
      assert names[i..] == [names[i]] + names[i + 1..];
      var path := JoinPath(nodeDir, names[i]);
      if path in existing {
        return load(path);
      }
      i := i + 1;
    }
    return Fail(ConfigErr, "No config file found in " + nodeDir,
                Text("Searched for: " + Join(", ", names) + "\nCreate a comfy-test.toml file or specify --config path"));
  }

  const ConfigFileNames: seq<string> := ["comfy-test.toml"]

  /** The first name whose file exists. */
  function FirstExisting(nodeDir: Path, names: seq<string>, existing: set<Path>): (r: Option<Path>)
    ensures r.Some? ==> r.value in existing && exists k :: 0 <= k < |names| && r.value == JoinPath(nodeDir, names[k])
    ensures r.None? ==> forall n <- names :: JoinPath(nodeDir, n) !in existing
  {
    if names == [] then None
    else if JoinPath(nodeDir, names[0]) in existing then Some(JoinPath(nodeDir, names[0]))
    else FirstExisting(nodeDir, names[1..], existing)
  }

  function DiscoverSpec(nodeDir: Path, fileNames: seq<string>, existing: set<Path>,
                        load: Path -> Outcome<TestConfig>): Outcome<TestConfig>
  {
    var names := if fileNames == [] then ConfigFileNames else fileNames;
    match FirstExisting(nodeDir, names, existing)
    case Some(p) => load(p)
    case None => Fail(ConfigErr, "No config file found in " + nodeDir,
                      Text("Searched for: " + Join(", ", names) + "\nCreate a comfy-test.toml file or specify --config path"))
  }

  /**
   * Discovery loads the first candidate that exists, in the order given;
   * only when none exists does it raise ConfigError.
   */
  lemma DiscoverLoadsFirstExisting(nodeDir: Path, fileNames: seq<string>, existing: set<Path>,
                                   load: Path -> Outcome<TestConfig>, k: nat)
    requires var names := if fileNames == [] then ConfigFileNames else fileNames;
      k < |names| && JoinPath(nodeDir, names[k]) in existing
      && forall j :: 0 <= j < k ==> JoinPath(nodeDir, names[j]) !in existing
    ensures var names := if fileNames == [] then ConfigFileNames else fileNames;
      DiscoverSpec(nodeDir, fileNames, existing, load) == load(JoinPath(nodeDir, names[k]))
  {
    var names := if fileNames == [] then ConfigFileNames else fileNames;
    FirstExistingIsFirst(nodeDir, names, existing, k);
  }

  lemma {:induction false} FirstExistingIsFirst(nodeDir: Path, names: seq<string>, existing: set<Path>, k: nat)
    requires k < |names| && JoinPath(nodeDir, names[k]) in existing
    requires forall j :: 0 <= j < k ==> JoinPath(nodeDir, names[j]) !in existing
    ensures FirstExisting(nodeDir, names, existing) == Some(JoinPath(nodeDir, names[k]))
  {
    if k > 0 {
      FirstExistingIsFirst(nodeDir, names[1..], existing, k - 1);
    }
  }

  lemma DiscoverWithoutFile(nodeDir: Path, fileNames: seq<string>, existing: set<Path>,
                            load: Path -> Outcome<TestConfig>)
    requires var names := if fileNames == [] then ConfigFileNames else fileNames;
      forall n <- names :: JoinPath(nodeDir, n) !in existing
    ensures var r := DiscoverSpec(nodeDir, fileNames, existing, load);
      r.Raised? && r.exc.Typed? && r.exc.kind == ConfigErr
      && StartsWith(r.exc.message, "No config file found")
  {
  }
}
