# comfy-test, modelled in Dafny

comfy-test checks that a ComfyUI custom node installs, registers, instantiates
and runs. A test run works through an ordered list of levels: SYNTAX, INSTALL,
REGISTRATION, INSTANTIATION, STATIC_CAPTURE, VALIDATION and EXECUTION. Each
level reads the shared `LevelContext` and returns an updated copy, or raises a
`TestError`. This project models the parts of comfy-test that decide what
happens, and proves properties about them:

- the level context and its `with_updates` copy;
- the levels themselves (syntax scan, install, registration, instantiation,
  validation, execution);
- the workflow validator (schema, graph and introspection phases) and the
  workflow runner's polling loop;
- the ComfyUI server wrapper;
- the `comfy-test.toml` parser and the environment-file reader;
- the orchestrating test manager and the older monolithic test manager;
- the node-discovery probe, the model-usage tracker and the VRAM monitor;
- the local and VM runners' file handling (gitignore upkeep, copy filters,
  log splitting, chunked upload, result fetching);
- the screenshot module's frame, retry and capture bookkeeping.

Exceptions are values. An operation that can raise returns an `Outcome`:
either `Ok(value)`, or `Raised(exc)` holding a typed comfy-test error (its
class, message and details) or any other Python exception (its type name and
text). Processes, HTTP calls, browsers, clocks and the file system do not
appear in the model. What they return is passed in as a parameter, and pattern
matchers (fnmatch, the log regexes) are function parameters.

Modules follow the source files. `base.dfy`, `strings.dfy`, `json.dfy`,
`paths.dfy` and `sorting.dfy` hold the Python semantics the rest relies on:
`str` methods, dict-from-JSON lookups, `pathlib` names, and sorting.

## Model

| member | source | states |
|---|---|---|
| Validator.ValidateValue | src/comfy_test/comfyui/validator.py:153-208 | checking one widget value raises only when a number is compared with a bound that is not a number (Python's `<` TypeError) |
| Validator.EnumValueCheck | src/comfy_test/comfyui/validator.py:166-173 | a list-typed input accepts the value exactly when the input is an image or file upload, or the value is among the allowed values; otherwise it reports "not in allowed values" |
| Validator.NumericValueCheck | src/comfy_test/comfyui/validator.py:175-195 | an INT or FLOAT input rejects a non-number with "expected INT/FLOAT"; with numeric or absent bounds it accepts exactly the values within the inclusive min/max; a reported minimum or maximum violation really lies below or above that bound |
| Validator.CheckNumberBounds | src/comfy_test/comfyui/validator.py:175-184 | the shared INT/FLOAT check: a type error for non-numbers, and acceptance exactly within the bounds |
| Validator.OtherValueCheck | src/comfy_test/comfyui/validator.py:197-208 | STRING accepts exactly strings, BOOLEAN exactly booleans, every other input type accepts anything |
| Validator.StarInputConsumesWidget | src/comfy_test/comfyui/validator.py:127-137 | an input of type "*" or INT consumes a widget value and an upper-case connection type such as IMAGE does not |
| Validator.NextConsumer | src/comfy_test/comfyui/validator.py:127-143 | the widget value index of a consuming input equals the number of consuming inputs before it, so values are matched to widget inputs in order |
| Validator.MergeInputs | src/comfy_test/comfyui/validator.py:119-122 | `{**required, **optional}` succeeds exactly when both are dicts and is the dict of their combined items (optional overrides, first-occurrence order) |
| Validator.CheckWidget | src/comfy_test/comfyui/validator.py:139-149 | one widget input yields at most one error, reported for this node at the schema level |
| Validator.WidgetSetup | src/comfy_test/comfyui/validator.py:116-124 | the widget walk can start only when the node and the schema are dicts |
| Validator.ValidateWidgets | src/comfy_test/comfyui/validator.py:109-151 | the widget loop returns exactly the errors, or the exception, of the widget walk specification |
| Validator.WalkRestWithoutLength | src/comfy_test/comfyui/validator.py:139 | when some input consumes a widget, `len(widgets_values)` of a value without a length raises its TypeError |
| Validator.WalkRestDone | src/comfy_test/comfyui/validator.py:139-141 | the walk stops without further errors when the widget inputs or the widget values run out |
| Validator.WalkRestStep | src/comfy_test/comfyui/validator.py:127-149 | one walk step checks the next consuming input against the next value and continues, or propagates the exception |
| Validator.WalkWidgets | src/comfy_test/comfyui/validator.py:127-151 | the loop over consuming inputs computes the walk specification |
| Validator.CollectKeepsRaise | src/comfy_test/comfyui/validator.py:88-107 | once a node's check raises, the phase raises that exception whatever the later nodes are |
| Validator.CollectItemRaise | src/comfy_test/comfyui/validator.py:88-107 | after error-free earlier nodes, a node that raises makes the phase raise its exception, and otherwise its errors are appended |
| Validator.CollectedErrorHasSource | src/comfy_test/comfyui/validator.py:88-107 | every error a phase reports comes from one of the workflow's nodes |
| Validator.CollectRaisesIfAnyItemRaises | src/comfy_test/comfyui/validator.py:88-107 | if any node's check raises, the whole phase raises |
| Validator.NodeSchemaErrors | src/comfy_test/comfyui/validator.py:88-104 | a node whose type is not in object_info yields exactly one "Unknown node type" schema error |
| Validator.ValidateSchema | src/comfy_test/comfyui/validator.py:84-107 | the schema loop computes the schema phase specification |
| Validator.HasNode | src/comfy_test/comfyui/validator.py:218-237 | `key in nodes_by_id` succeeds exactly for hashable keys and is true exactly when a node has that id |
| Validator.SingleTypeAccepts | src/comfy_test/comfyui/validator.py:307-310 | a target type without a comma accepts only its stripped self |
| Validator.ValidateConnection | src/comfy_test/comfyui/validator.py:263-312 | a reported type mismatch has a target type other than "*", an output type other than "*", and an output type not among the comma-separated accepted types; slot errors name the numeric slot that is out of range |
| Validator.ConnectionDecision | src/comfy_test/comfyui/validator.py:275-312 | for integer slots: a source slot past the schema's outputs gives exactly "Output slot … does not exist" for the source type; then a target slot past the node's inputs gives exactly "Input slot … does not exist" for the target type; with both in range, the link is accepted iff the output or target type is "*" or the output type is one of the target's stripped comma-separated types, and a string target type that does not match gives exactly the type mismatch naming both node types and both slot types |
| Validator.LinkErrors | src/comfy_test/comfyui/validator.py:221-259 | links shorter than six items are ignored; a link yields at most one error; a missing source or target node is reported as such |
| Validator.TypeCheckNeedsKnownTypes | src/comfy_test/comfyui/validator.py:245-259 | a type error on a link is reported only when both end nodes exist and both node types are known to object_info |
| Validator.ValidateGraph | src/comfy_test/comfyui/validator.py:210-261 | the link loop computes the graph phase specification |
| Validator.OutputErrors | src/comfy_test/comfyui/validator.py:363-378 | outputs that are not a list are reported; non-empty output names whose count differs from the outputs' count are reported; nothing else is |
| Validator.AtNode | src/comfy_test/comfyui/validator.py:337-386 | every message is reported for the same node and phase, one error per message, in order |
| Validator.SchemaShapeErrors | src/comfy_test/comfyui/validator.py:335-343 | a schema's shape can be checked only when the schema is a dict |
| Validator.ShapeMessages | src/comfy_test/comfyui/validator.py:345-386 | the introspection reports a non-dict `required` or `optional` exactly when it is truthy and not a dict, and a missing FUNCTION exactly when it is falsy, plus every output message |
| Validator.SchemaShapeInputNotDict | src/comfy_test/comfyui/validator.py:336-343 | a non-dict `input` is reported by itself, with its type name |
| Validator.NodeIntrospectionErrors | src/comfy_test/comfyui/validator.py:325-331 | a node of an unknown type gets no introspection errors |
| Validator.ValidateIntrospection | src/comfy_test/comfyui/validator.py:314-389 | the introspection loop computes the introspection phase specification |
| Validator.Validate | src/comfy_test/comfyui/validator.py:48-68 | `validate` computes the three-phase specification |
| Validator.ValidateCombinesPhases | src/comfy_test/comfyui/validator.py:27-29 | validation succeeds exactly when all three phases do; its errors are the schema, graph and introspection errors in that order, with no warnings; it is valid exactly when every phase found nothing; otherwise it raises the first phase's exception |
| Validator.ShapeErrorMeansSchemaRaises | src/comfy_test/comfyui/validator.py:119-122 | a node for which the introspection would report a non-dict `input`, `required` or `optional` makes the schema phase raise |
| Validator.InputShapeErrorsNeverReported | src/comfy_test/comfyui/validator.py:48-68 | whenever `validate` returns, none of its errors is an input-shape message: those introspection branches can never be reported |
| Json.MergeKeepsPosition | src/comfy_test/comfyui/validator.py:121 | in `{**required, **optional}` a required input keeps its position even when optional repeats it |
| Json.MergeTakesLaterValue | src/comfy_test/comfyui/validator.py:121 | in the merged inputs a key present in optional takes optional's spec, and otherwise required's |
| Json.PyLess | src/comfy_test/comfyui/validator.py:182-185 | comparing a number with a bound succeeds iff the bound is a number (bool included), and then compares their values; anything else raises TypeError |
| ConfigFile.ParseLevel | src/comfy_test/test/config_file.py:200 | a parsed level is the one whose value string was given |
| ConfigFile.ParseLevelValue | src/comfy_test/test/config_file.py:200 | every level's own value string parses back to that level (round trip) |
| ConfigFile.ParseLevels | src/comfy_test/test/config_file.py:200 | the parsed list has one level per raw entry, in order, each parsed from its entry |
| ConfigFile.ParseLevelsOk | src/comfy_test/test/config_file.py:200 | the list parses whenever every entry does |
| ConfigFile.JoinAll | src/comfy_test/test/config_file.py:269 | joining entries under the base directory succeeds only for string entries and keeps their order |
| ConfigFile.JsonFiles | src/comfy_test/test/config_file.py:267 | the glob keeps exactly the directory's names that end in ".json" |
| ConfigFile.JoinNames | src/comfy_test/test/config_file.py:269 | each name is joined under the directory, in order |
| ConfigFile.ResolveList | src/comfy_test/test/config_file.py:263-269 | a list of names resolves to those names under the base directory, in order |
| ConfigFile.JoinAllOfTexts | src/comfy_test/test/config_file.py:269 | a list made only of strings always resolves |
| ConfigFile.ResolveAll | src/comfy_test/test/config_file.py:264-268 | "all" without a workflows directory gives no workflows; with one, it gives its ".json" files, sorted and complete (a permutation of the matches), under `workflows/` |
| ConfigFile.OptionalKey | src/comfy_test/test/config_file.py:270-272 | an absent key leaves the field at its empty value; a present key is parsed from its value |
| ConfigFile.JoinList | src/comfy_test/test/config_file.py:275-277 | the legacy `files` list becomes its entries joined under the base directory, one for one and in order, and only string entries are accepted |
| ConfigFile.FileOf | src/comfy_test/test/config_file.py:280-282 | the legacy `file` is accepted iff it is a string, and becomes that path under the base directory |
| ConfigFile.ParseWorkflowConfig | src/comfy_test/test/config_file.py:246-296 | absent `run`, `screenshot` and `files` keys give empty lists; `file` is set iff the key is present, and is then its string joined under the base directory; each `files` entry is joined under the base directory in order; `timeout` is passed on iff the key is present, with its value |
| ConfigFile.ParseWorkflowConfigOk | src/comfy_test/test/config_file.py:246-296 | a workflow section parses whenever `run` and `screenshot` are "all" or lists of strings, `files` is a list of strings and `file` is a string |
| ConfigFile.ResolvableOk | src/comfy_test/test/config_file.py:261-267 | `resolve_workflows` accepts "all" and every list of strings |
| ConfigFile.ParsePlatformConfig | src/comfy_test/test/config_file.py:299-305 | a platform section parses exactly when it is a table; its `enabled` is its own key or else the fallback, and `skip_workflow` defaults to false |
| ConfigFile.ParseConfig | src/comfy_test/test/config_file.py:183-189 | a missing or empty `[test]` section raises the ConfigError "Missing [test] section in config file" with its hint |
| ConfigFile.ParseBasics | src/comfy_test/test/config_file.py:192-196 | absent keys take their defaults: the directory's name, "latest", "3.10", cpu-only true, timeout 300 |
| ConfigFile.DefaultLevels | src/comfy_test/test/config_file.py:199-200 | without a `levels` key the configuration runs SYNTAX, INSTALL, REGISTRATION, INSTANTIATION, VALIDATION and EXECUTION, in that order |
| ConfigFile.DefaultLevelsParse | src/comfy_test/test/config_file.py:199-200 | the six default level names parse to those six levels |
| ConfigFile.WorkflowsTakesPrecedence | src/comfy_test/test/config_file.py:206-214 | a non-empty `workflows` section is used over the legacy `workflow` section, which is used only when `workflows` is empty |
| ConfigFile.PlatformDefaults | src/comfy_test/test/config_file.py:218-229 | a platform with no section of its own is enabled by `platforms.<name>`, true by default, and does not skip workflows |
| ConfigFile.DiscoverConfig | src/comfy_test/test/config_file.py:95-136 | the search loop computes the discovery specification |
| ConfigFile.FirstExisting | src/comfy_test/test/config_file.py:127-130 | a found file exists and is one of the candidate names under the node directory; none found means no candidate exists |
| ConfigFile.DiscoverLoadsFirstExisting | src/comfy_test/test/config_file.py:125-130 | discovery loads the first candidate, in priority order, that exists (the default names when none are given) |
| ConfigFile.FirstExistingIsFirst | src/comfy_test/test/config_file.py:127-130 | the search returns the earliest existing candidate |
| ConfigFile.DiscoverWithoutFile | src/comfy_test/test/config_file.py:132-136 | when no candidate exists, discovery raises a ConfigError "No config file found ..." |
| ComfyEnv.RepoOf | src/comfy_test/common/comfy_env.py:36-41 | a requirement names a repository only when its value is a string (the repository itself) or a table (its `repo` key, "" when absent) |
| ComfyEnv.GetNodeReqs | src/comfy_test/common/comfy_env.py:13-45 | a missing or unparsable comfy-env-root.toml gives no requirements; otherwise the loop computes the requirement list specification |
| ComfyEnv.NodeReqsMembers | src/comfy_test/common/comfy_env.py:35-45 | (name, repo) is listed exactly when some entry of that name has a string value, or a table value, whose repository is non-empty and equals repo |
| ComfyEnv.NodeReqsOrdered | src/comfy_test/common/comfy_env.py:35-45 | there are never more requirements than entries, and each comes from an entry of the same name, at strictly increasing positions, so the table order is kept |
| ComfyEnv.GetEnvVars | src/comfy_test/common/comfy_env.py:48-76 | outside CI (neither CI nor GITHUB_ACTIONS set) and for a missing or unparsable file the result is empty |
| ComfyEnv.EnvMapLookup | src/comfy_test/common/comfy_env.py:76 | a key is in the result exactly when the table has it, mapped to the text of its value |
| ComfyEnv.EnvVarsAreTable | src/comfy_test/common/comfy_env.py:63-76 | in CI the variables are exactly the keys of the `[env_vars]` table, each mapped to its value's text |
| ComfyEnv.NormalisePackages | src/comfy_test/common/comfy_env.py:106-108 | the package loop computes the name normalisation specification |
| ComfyEnv.GetCudaPackages | src/comfy_test/common/comfy_env.py:79-110 | the loop over every comfy-env.toml computes the CUDA package specification |
| ComfyEnv.NormaliseRaisesOnPrefix | src/comfy_test/common/comfy_env.py:106-108 | a package entry that raises stops the collection with that exception |
| ComfyEnv.CudaRaisesOnPrefix | src/comfy_test/common/comfy_env.py:95-110 | a file whose packages raise stops the whole collection with that exception |
| ComfyEnv.NormalisedNames | src/comfy_test/common/comfy_env.py:106-108 | each package is a string and is recorded with every "-" replaced by "_", in order |
| ComfyEnv.CudaNamesHaveNoDash | src/comfy_test/common/comfy_env.py:95-110 | no collected CUDA package name contains "-" |
| ComfyEnv.IgnoredFilesContributeNothing | src/comfy_test/common/comfy_env.py:97-105 | a file that is unparsable, or has no `[cuda]` package list, changes nothing |
| Context.NewContext | src/comfy_test/orchestration/context.py:20-39 | a new context holds the given configuration, node directory, platform name, log and output base, and every accumulated field starts empty |
| Context.FieldsOf | src/comfy_test/orchestration/context.py:57-63 | the fields an update list names are exactly the fields of its updates |
| Context.ApplyKeepsOthers | src/comfy_test/orchestration/context.py:57-63 | one update changes no field other than its own |
| Context.WithUpdates | src/comfy_test/orchestration/context.py:57-63 | `with_updates()` with no updates gives back an equal context |
| Context.NamedFieldsReplaced | src/comfy_test/orchestration/context.py:57-63 | every field named in `with_updates` takes the new value |
| Context.UnnamedFieldsKept | src/comfy_test/orchestration/context.py:57-63 | every field not named in `with_updates` keeps its old value |
| Results.Passed | src/comfy_test/orchestration/manager.py:310 | a passed result has no error and no details |
| Results.FailureResult | src/comfy_test/orchestration/manager.py:315-322 | a failed result carries the error's message; a TestError also passes its details, and any other exception gives only its text |
| NodeDiscovery.DiscoveryLaunch | src/comfy_test/test/node_discovery.py:176-194 | the probe runs the given Python in the ComfyUI directory with a 60-second timeout, and the node path has its backslashes turned into "/" |
| NodeDiscovery.DiscoverNodes | src/comfy_test/test/node_discovery.py:84-231 | the discovery result is the specification applied to the probe process's outcome |
| NodeDiscovery.DiscoveryOkIff | src/comfy_test/test/node_discovery.py:195-231 | discovery succeeds exactly when the probe finished with exit code 0, printed a JSON object and reported success; the result is its `nodes`, or [] when absent |
| NodeDiscovery.DiscoveryProcessFailures | src/comfy_test/test/node_discovery.py:195-205 | a timed-out probe raises "Node discovery timed out"; a non-zero exit raises "Failed to import custom node" with the process output as details |
| NodeDiscovery.NoJsonLineIsInvalid | src/comfy_test/test/node_discovery.py:207-222 | output without a line starting with "{" raises "Node discovery returned invalid JSON" |
| NodeDiscovery.FailedImportCarriesError | src/comfy_test/test/node_discovery.py:224-229 | a report with a false `success` raises "Failed to import custom node" with "Import error: " and the reported error, "Unknown error" when none |
| RegistrationLevel.RegisteredNodes | src/comfy_test/orchestration/levels/registration.py:57-58 | the registered node list exists exactly when object_info is a dict, and is its keys in order |
| RegistrationLevel.RegistrationUpdates | src/comfy_test/orchestration/levels/registration.py:61-65 | the level's context update names each field at most once |
| RegistrationLevel.Stored | src/comfy_test/comfyui/server.py:128-143 | the server keeps every output line, in order, with its trailing whitespace stripped |
| RegistrationLevel.FromImport | src/comfy_test/orchestration/levels/registration.py:23 | `from module import names` succeeds exactly when the module defines every name, and otherwise raises ImportError |
| RegistrationLevel.CallKeywords | src/comfy_test/orchestration/levels/registration.py:31-38 | a call succeeds exactly when the callee has a parameter for every keyword argument, and otherwise raises TypeError |
| RegistrationLevel.RegistrationWith | src/comfy_test/orchestration/levels/registration.py:7-65 | a failed import ends the level with the import's exception; for a managed server a rejected keyword ends it with the TypeError |
| RegistrationLevel.RegistrationAsWritten | src/comfy_test/orchestration/levels/registration.py:23 | the level as written always raises ImportError |
| RegistrationLevel.ImportFinding | src/comfy_test/orchestration/levels/registration.py:23 | as written, every run raises "cannot import name 'ExternalComfyUIServer' from 'comfy_test.comfyui.server'" |
| RegistrationLevel.EnvVarsFinding | src/comfy_test/orchestration/levels/registration.py:31-38 | with that class added, a managed server still fails: `ComfyUIServer.__init__` has no `env_vars` parameter |
| RegistrationLevel.RegistrationMended | src/comfy_test/orchestration/levels/registration.py:7-65 | with the class defined and `env_vars` accepted, the level is the registration specification |
| RegistrationLevel.RegisterOkIff | src/comfy_test/orchestration/levels/registration.py:41-65 | once the server object exists, registration succeeds exactly when the server started, printed no import error, and served object_info as a dict |
| RegistrationLevel.ManagedImportFailure | src/comfy_test/orchestration/levels/registration.py:46-53 | a started server that printed an import error line fails the level with the import failure built from those lines, unless stopping the server raises, in which case that exception propagates |
| RegistrationLevel.RegisterOkContext | src/comfy_test/orchestration/levels/registration.py:61-65 | after success the context holds the server, its API client and the node list, and every other field is unchanged |
| RegistrationLevel.ReadOutput | src/comfy_test/comfyui/server.py:115-146 | reading the server's output appends the stripped lines and changes nothing else |
| RegistrationLevel.RunManaged | src/comfy_test/orchestration/levels/registration.py:26-65 | a level that starts its own server computes the mended registration specification (RegistrationLevel.RegistrationMended); a launch that raises leaves no process; the server keeps its process on success or on a failed readiness wait; on an import failure the process has been handed to the platform to stop, the API is gone, and the process is cleared iff that stop returned |
| RegistrationLevel.Run | src/comfy_test/orchestration/levels/registration.py:7-65 | the level computes the mended registration specification; it creates a server exactly when no external server URL is set, with the same guarantees on that server as RegistrationLevel.RunManaged |
| Driver.Rank | src/comfy_test/orchestration/manager.py:36-44 | a level's rank is its position in the fixed execution order |
| Driver.NormalizePlatform | src/comfy_test/orchestration/manager.py:209 | the normalised platform name has the same length and contains no "-" and no upper-case letter |
| Driver.NormalizeIdempotent | src/comfy_test/orchestration/manager.py:209 | normalising a platform name twice gives the same name as normalising it once |
| Driver.UpTo | src/comfy_test/orchestration/manager.py:212-215 | the `--level` filter keeps exactly the configured levels ranked no later than the maximum |
| Driver.WithoutSetup | src/comfy_test/orchestration/manager.py:221-222 | with an external server, SYNTAX and INSTALL are dropped and every other level is kept |
| Driver.InOrder | src/comfy_test/orchestration/manager.py:226 | walking the execution order selects exactly the levels that are both in the order and selected |
| Driver.ScheduleCanonical | src/comfy_test/orchestration/manager.py:298-301 | the levels run are exactly the selected ones, each once, in strictly increasing rank, at most seven |
| Driver.SelectionBounds | src/comfy_test/orchestration/manager.py:209-226 | with a maximum level, no later level is requested and every earlier configured one is; the scheduled levels are the resolved ones minus SYNTAX and INSTALL when a server URL is given |
| Driver.StartLines | src/comfy_test/orchestration/manager.py:116-123 | a level start logs an empty line, the "[i/n] NAME" line and a rule of 40 dashes |
| Driver.ImplicitMarker | src/comfy_test/orchestration/manager.py:120 | the " (implicit)" marker appears exactly for levels added by dependency resolution |
| Driver.DriveStops | src/comfy_test/orchestration/manager.py:298-322 | once a level raises, no later level runs and the outcome stays that failure |
| Driver.DriveCounts | src/comfy_test/orchestration/manager.py:116-123 | the level counter never exceeds the number of scheduled levels and reaches it exactly when no level failed |
| Driver.InferredPaths | src/comfy_test/orchestration/manager.py:258-276 | paths are inferred exactly when a server URL is given: work dir is the output base, custom nodes dir the node's parent, ComfyUI dir the given one, Python the portable one when it exists else the running interpreter |
| Driver.InitialContext | src/comfy_test/orchestration/manager.py:279-291 | the first context carries the configuration, node directory, platform, output base and the caller's options unchanged |
| Driver.DryRunSnoc | src/comfy_test/orchestration/manager.py:334-387 | a dry run logs each scheduled level's plan in order and counts only scheduled levels |
| Driver.PlatformOutcome | src/comfy_test/orchestration/manager.py:182-332 | the result names the normalised platform; a dry run passes with "Dry run"; otherwise it passes exactly when no level raised, a failure is reported from the raised error, and the context's server is the one stopped |
| Driver.EnabledNames | src/comfy_test/orchestration/manager.py:167-170 | exactly the enabled platforms are run, in order |
| Driver.PlatformResultIgnoresLog | src/comfy_test/orchestration/manager.py:182-332 | a platform's result does not depend on what was logged before it |
| Driver.RunAllResults | src/comfy_test/orchestration/manager.py:136-180 | `run_all` returns one result per enabled platform, in order, each the result of running that platform without a work directory, since `run_all` has no such option |
| Driver.TestManager.constructor | src/comfy_test/orchestration/manager.py:63-83 | a new manager has an empty session log and zero level counters |
| Driver.TestManager.Log | src/comfy_test/orchestration/manager.py:89-109 | logging appends one message to the session log and leaves the counters alone |
| Driver.TestManager.LogAll | src/comfy_test/orchestration/manager.py:89-109 | logging several messages appends them in order |
| Driver.TestManager.LogLevelStart | src/comfy_test/orchestration/manager.py:116-123 | a level start increments the level index and logs its three start lines |
| Driver.TestManager.RunLevels | src/comfy_test/orchestration/manager.py:298-306 | the level loop ends in the context, error, counter and log of the level-loop specification |
| Driver.TestManager.RunLevel | src/comfy_test/orchestration/manager.py:299-306 | one scheduled level logs its start, runs, and logs PASSED or stops with its error, as one specification step |
| Driver.TestManager.DryRun | src/comfy_test/orchestration/manager.py:334-387 | a dry run passes with "Dry run", logs the plan of every scheduled level and leaves the counters alone |
| Driver.TestManager.RunPlatform | src/comfy_test/orchestration/manager.py:182-332 | running a platform produces the result, stopped server, counters and log of the platform specification |
| Driver.TestManager.RunLive | src/comfy_test/orchestration/manager.py:246-332 | a non-dry run produces the result and log of the live-run specification |
| Driver.TestManager.RunAll | src/comfy_test/orchestration/manager.py:136-180 | running all platforms produces the results and log of the all-platforms specification |
| ExecutionLevel.FilterAsWritten | src/comfy_test/orchestration/levels/execution.py:78-82 | the filter as written keeps only configured workflows whose file name is the filter: a `Path` never equals a `str` |
| ExecutionLevel.FilterKeepsMatches | src/comfy_test/orchestration/levels/execution.py:78-82 | the intended filter keeps exactly the configured workflows whose path, or whose file name, is the filter |
| ExecutionLevel.HandleAsWritten | src/comfy_test/orchestration/levels/execution.py:194-201 | the handler as written records a caught exception only if it is a TestError; any other caught exception turns into an AttributeError on `e.message` |
| ExecutionLevel.Handle | src/comfy_test/orchestration/levels/execution.py:194-201 | the intended handler records every caught exception with its text and lets every other exception propagate unchanged; with screenshots disabled everything is caught |
| ExecutionLevel.CountStatus | src/comfy_test/orchestration/levels/execution.py:244-245 | a status count never exceeds the number of records |
| ExecutionLevel.SummaryOf | src/comfy_test/orchestration/levels/execution.py:250-254 | the summary's total is the number of records, and passed plus failed never exceeds it |
| ExecutionLevel.CountSkippedApart | src/comfy_test/orchestration/levels/execution.py:244-255 | every record is exactly one of passed, failed or skipped |
| ExecutionLevel.ErrorLines | src/comfy_test/orchestration/levels/execution.py:266-270 | the error details have one "name: error" line per failed workflow |
| ExecutionLevel.Finished | src/comfy_test/orchestration/levels/execution.py:188-193 | a run counts as finished exactly when `run_workflow` returned, and otherwise keeps the run's exception |
| ExecutionLevel.ReadStatus | src/comfy_test/orchestration/levels/execution.py:188-193 | as written, reading `result.status` after `run_workflow` always raises: a returned dict gives AttributeError naming its type and `status`, and an exception of the run passes through unchanged |
| ExecutionLevel.AsWrittenWorld | src/comfy_test/orchestration/levels/execution.py:188-193 | the as-written level sees the same GPU, screenshot mode and capture, and every run followed by the `status` read |
| ExecutionLevel.ExecutionSpec | src/comfy_test/orchestration/levels/execution.py:51-272 | a passing level returns the context unchanged |
| ExecutionLevel.ExecuteAsWritten | src/comfy_test/orchestration/levels/execution.py:51-272 | the level as written, with its name-only filter, its `status` read and its `e.message` handler, returns the context unchanged whenever it passes |
| ExecutionLevel.RunOne | src/comfy_test/orchestration/levels/execution.py:144-237 | one loop pass computes the intended level's step for that workflow, in which a run that returns is a pass |
| ExecutionLevel.Run | src/comfy_test/orchestration/levels/execution.py:51-272 | the level computes the intended execution specification, outcome and written report (the as-written level is ExecutionLevel.ExecuteAsWritten) |
| ExecutionLevel.RunLoop | src/comfy_test/orchestration/levels/execution.py:144-237 | the workflow loop computes the intended loop specification |
| ExecutionLevel.LoopKeepsRaise | src/comfy_test/orchestration/levels/execution.py:140-241 | an exception that escapes one workflow ends the loop with that exception |
| ExecutionLevel.StepRecord | src/comfy_test/orchestration/levels/execution.py:156-229 | one workflow adds exactly one record named by its stem: "skipped" exactly for a GPU workflow without a GPU, "pass" exactly when its run returned (in the intended level); one error entry exactly for a failure |
| ExecutionLevel.LoopRecordsEveryWorkflow | src/comfy_test/orchestration/levels/execution.py:144-237 | a completed loop has one record per workflow, in order, with the statuses above, and one error entry per failed record |
| ExecutionLevel.LoopCompletesWithoutScreenshots | src/comfy_test/orchestration/levels/execution.py:129-131 | with screenshots disabled every exception is caught, so the loop always completes |
| ExecutionLevel.SummaryCounts | src/comfy_test/orchestration/levels/execution.py:244-255 | in the written report, total = passed + failed + skipped = the number of workflow records |
| ExecutionLevel.ExecutionOkIff | src/comfy_test/orchestration/levels/execution.py:66-272 | the intended level passes exactly when no workflows are configured, or the platform skips workflows, or the filter leaves some workflow and none of them fails |
| ExecutionLevel.FilterByPathFinding | src/comfy_test/orchestration/levels/execution.py:78-84 | filtering by a workflow's full configured path selects nothing as written, and selects that workflow as intended |
| ExecutionLevel.MissingFileFinding | src/comfy_test/orchestration/levels/execution.py:129-131 | with screenshots disabled, a missing workflow file makes the level as written fail with AttributeError and write no report, while the intended level reports a WorkflowExecutionError naming the file |
| ExecutionLevel.CompletedRunFinding | src/comfy_test/orchestration/levels/execution.py:188-198 | with screenshots disabled, a workflow whose run returns makes the level as written fail with AttributeError on `message` and write no report |
| ExecutionLevel.CompletedRunPasses | src/comfy_test/orchestration/levels/execution.py:188-255 | the same run under the intended level is one passing record, summary 1 of 1 passed, and the level succeeds |
| ExecutionLevel.NoPassWhenAttemptsRaise | src/comfy_test/orchestration/levels/execution.py:156-229 | when every try block raises, no record of a completed loop is a pass |
| ExecutionLevel.AsWrittenNeverPasses | src/comfy_test/orchestration/levels/execution.py:144-255 | as written, with screenshots disabled, any report the level writes holds no passing workflow |
| ExecutionLevel.CountStatusZero | src/comfy_test/orchestration/levels/execution.py:244-245 | a status counts zero iff no record has it |
| Paths.RFindDot | src/comfy_test/test/manager.py:1010 | the position of the last '.', or -1 when there is none |
| Paths.LastDot | src/comfy_test/test/manager.py:1010 | where the name's suffix starts: the last '.' when it is neither the first nor the final character, otherwise 0 for no suffix |
| Paths.StemSuffixName | src/comfy_test/test/manager.py:1010 | `Path.stem` followed by `Path.suffix` is the name; a suffix is a '.' followed by at least one character and no other '.'; a name ending in '.' is all stem |
| InstallLevel.GetPlatform | src/comfy_test/orchestration/levels/install.py:18-33 | a known name gives the platform of that name; any other name raises the TestError "Unknown platform: <name>" |
| InstallLevel.GetPlatformOfName | src/comfy_test/orchestration/levels/install.py:18-31 | each of the four platforms is found under its own name |
| InstallLevel.FindPython | src/comfy_test/orchestration/levels/install.py:143-152 | the portable platform uses `python_embeded/python.exe` beside the ComfyUI directory when that folder exists, and otherwise the one two levels up; every other platform uses the running interpreter |
| InstallLevel.RunCallsPrefix | src/comfy_test/orchestration/levels/install.py:164-166 | the calls made are a prefix of the planned ones: all of them on success, otherwise up to and including the call that raised |
| InstallLevel.RunCallsOkIff | src/comfy_test/orchestration/levels/install.py:164-166 | a sequence of provider calls succeeds exactly when every call does, and every call before the last one made succeeded |
| InstallLevel.DependencyCalls | src/comfy_test/orchestration/levels/install.py:161-166 | one repository install per node requirement, in order, with its repository and name |
| InstallLevel.ExistingPaths | src/comfy_test/orchestration/levels/install.py:107-116 | with an existing ComfyUI the paths are the work path, the resolved ComfyUI directory and its `custom_nodes` |
| InstallLevel.InstallUpdates | src/comfy_test/orchestration/levels/install.py:92-97 | the level's context update names each field at most once |
| InstallLevel.UnknownPlatformInstallsNothing | src/comfy_test/orchestration/levels/install.py:53 | an unknown platform fails before any provider call |
| InstallLevel.SetupOnlyWithoutComfyUIDir | src/comfy_test/orchestration/levels/install.py:64-67 | ComfyUI is set up first exactly when no existing ComfyUI directory is given |
| InstallLevel.SetupOkCalls | src/comfy_test/orchestration/levels/install.py:100-140 | a successful setup makes, in order, the optional ComfyUI setup, the node install and one install per node requirement, each succeeding |
| InstallLevel.InstallOkEndsWithEndpoint | src/comfy_test/orchestration/levels/install.py:69-75 | a successful INSTALL ends by installing the validation endpoint from its repository, after the setup calls |
| InstallLevel.InstallUpdatesFields | src/comfy_test/orchestration/levels/install.py:92-97 | the update sets platform, paths, CUDA packages and environment variables, and keeps every other field |
| InstallLevel.InstallOkContext | src/comfy_test/orchestration/levels/install.py:77-97 | a successful INSTALL records the platform, paths, the CUDA packages to mock (none when COMFY_TEST_GPU is set) and the environment variables, and changes nothing else |
| InstallLevel.InstallDependencies | src/comfy_test/orchestration/levels/install.py:155-166 | the dependency loop makes the planned calls and stops at the first failure, as specified |
| InstallLevel.InstallNodeWithDependencies | src/comfy_test/orchestration/levels/install.py:118-121 | installing the node and then its dependencies follows the specification |
| InstallLevel.Setup | src/comfy_test/orchestration/levels/install.py:63-67 | the setup step computes the setup specification |
| InstallLevel.Run | src/comfy_test/orchestration/levels/install.py:36-97 | the level computes the INSTALL specification, outcome and provider calls |
| InstantiationLevel.PackagesToMock | src/comfy_test/orchestration/levels/instantiation.py:118-122 | the packages to mock are the context's when it has any; otherwise none under COMFY_TEST_GPU, else those found in the comfy-env files |
| InstantiationLevel.LaunchFor | src/comfy_test/orchestration/levels/instantiation.py:125-140 | the probe can launch only when the context has paths; it runs their Python in the ComfyUI directory with a 60-second timeout, names the node by its directory, mocks the given packages, flags a GPU runner exactly when COMFY_TEST_GPU is "1", and passes the custom-nodes path with "/" separators |
| InstantiationLevel.LastJsonIndex | src/comfy_test/orchestration/levels/instantiation.py:150-155 | the chosen line starts with "{" after stripping, and no later line does |
| InstantiationLevel.LastJsonLine | src/comfy_test/orchestration/levels/instantiation.py:150-157 | no JSON line is found exactly when no line starts with "{"; a found line starts with "{" |
| InstantiationLevel.LastJsonLineSnoc | src/comfy_test/orchestration/levels/instantiation.py:152-155 | a later JSON line replaces the earlier choice |
| InstantiationLevel.FindJsonLine | src/comfy_test/orchestration/levels/instantiation.py:150-155 | the scan loop picks the last JSON line of the stripped output |
| InstantiationLevel.ErrorLine | src/comfy_test/orchestration/levels/instantiation.py:166-168 | an error entry gives a "  - node: error" line exactly when it has both keys |
| InstantiationLevel.ErrorLines | src/comfy_test/orchestration/levels/instantiation.py:166-168 | one line per error entry, in order, and the list fails if any entry does |
| InstantiationLevel.InstantiationFailure | src/comfy_test/orchestration/levels/instantiation.py:165-172 | a report without success always raises |
| InstantiationLevel.InstantiationSpec | src/comfy_test/orchestration/levels/instantiation.py:99-175 | a passing level returns the context unchanged |
| InstantiationLevel.Run | src/comfy_test/orchestration/levels/instantiation.py:99-175 | the level computes the INSTANTIATION specification |
| InstantiationLevel.ReportOkIff | src/comfy_test/orchestration/levels/instantiation.py:142-172 | the probe passes exactly when it exited 0, printed a JSON line that parses to an object, and that object reports success |
| InstantiationLevel.NonZeroExitFails | src/comfy_test/orchestration/levels/instantiation.py:142-147 | a non-zero exit raises "Instantiation test failed" with the process output |
| InstantiationLevel.MissingReportFails | src/comfy_test/orchestration/levels/instantiation.py:149-162 | a clean exit whose output has no JSON line, or whose last JSON line does not parse, raises "Instantiation test returned invalid JSON" with the process output |
| InstantiationLevel.FailureListsEveryError | src/comfy_test/orchestration/levels/instantiation.py:165-172 | a failed report raises "Node instantiation failed for N node(s)" with one detail line per reported error |
| InstantiationLevel.ChildMocks | src/comfy_test/orchestration/levels/instantiation.py:118-140 | when the probe passes, the level passes, and the probe mocked the context's packages, none under COMFY_TEST_GPU, or the discovered ones |
| LegacyManager.StateJson | src/comfy_test/test/manager.py:36-41 | the saved document is an object with exactly the five `TestState` fields, each once |
| LegacyManager.SaveState | src/comfy_test/test/manager.py:36-41 | saving writes `state.json` under the work directory and changes no other file |
| LegacyManager.FirstUnexpected | src/comfy_test/test/manager.py:53 | the first key that is not a `TestState` field, if any (`TestState(**data)` rejects it) |
| LegacyManager.Missing | src/comfy_test/test/manager.py:53 | the `TestState` fields the document lacks |
| LegacyManager.StateFromJson | src/comfy_test/test/manager.py:51-53 | a state is built only from an object that has every field; any other document raises TypeError |
| LegacyManager.TestStateOf | src/comfy_test/test/manager.py:53 | a document holding every field builds a state |
| LegacyManager.LoadState | src/comfy_test/test/manager.py:44-53 | loading raises the TestError "No state file found" exactly when `state.json` does not exist |
| LegacyManager.SaveLoadRoundTrip | src/comfy_test/test/manager.py:36-53 | loading right after saving gives back the saved state |
| LegacyManager.FirstUnexpectedFields | src/comfy_test/test/manager.py:23-31 | the saved field names contain nothing unexpected |
| LegacyManager.StateFromJsonRoundTrip | src/comfy_test/test/manager.py:40-53 | building a state from its own saved document gives it back |
| LegacyManager.LegacyIndex | src/comfy_test/test/manager.py:188-190 | `order.index(l)` finds exactly the five listed levels, at their position; any other level raises |
| LegacyManager.KeepUpTo | src/comfy_test/test/manager.py:191 | the comprehension succeeds exactly when every configured level is in the legacy order, and otherwise raises ValueError |
| LegacyManager.LegacyRequestedAsWritten | src/comfy_test/test/manager.py:187-191 | without `--level` the configured levels are used; with one, the filter works exactly when it and all configured levels are in the five-level order, and otherwise raises ValueError |
| LegacyManager.LegacyFilterFinding | src/comfy_test/test/manager.py:188-191 | a configuration listing VALIDATION (every configuration without `levels` does) makes the filter as written raise ValueError for every `--level`; the rank-based filter keeps VALIDATION exactly when it comes no later than the maximum |
| LegacyManager.LegacyIndexMonotone | src/comfy_test/test/manager.py:188-191 | the legacy order and the full level order rank the legacy levels alike |
| LegacyManager.LegacyFilterAgrees | src/comfy_test/test/manager.py:187-191 | wherever the filter as written does not raise, it keeps exactly what the rank-based filter keeps |
| LegacyManager.LegacyStart | src/comfy_test/test/manager.py:184-221 | the legacy run continues past its opening only when it is not a dry run, runs the resolved requested levels, and has an installation level or a workflow to run |
| LegacyManager.LegacyEarlyPass | src/comfy_test/test/manager.py:206-221 | with nothing needing an installation and no workflows, the run passes right after SYNTAX; a failed SYNTAX fails the run with its error |
| LegacyManager.ProblemColumnIsFirst | src/comfy_test/test/manager.py:561-563 | the reported column is 1-based and points at the first occurrence of the character |
| LegacyManager.LineProblemsCount | src/comfy_test/test/manager.py:560-569 | a line gets one report per problematic character present, and none exactly when it has none |
| LegacyManager.Present | src/comfy_test/test/manager.py:561-562 | exactly the problematic characters that occur in the line |
| LegacyManager.LinesProblemsEmptyIff | src/comfy_test/test/manager.py:560-569 | a file has no reports exactly when every line is free of the seven characters |
| LegacyManager.LegacyFileEntryNoneIff | src/comfy_test/test/manager.py:545-574 | a file contributes no issue exactly when it is skipped, or decodes as UTF-8 and has no problematic character |
| LegacyManager.LegacyEntriesEmptyIff | src/comfy_test/test/manager.py:545-574 | there are no issues exactly when every file is clean |
| LegacyManager.LegacyUnicodeOkIff | src/comfy_test/test/manager.py:522-586 | the unicode check passes exactly when every file is clean, and otherwise raises a TestError |
| LegacyManager.LegacyScanLine | src/comfy_test/test/manager.py:561-569 | the per-character loop reports the line's problems |
| LegacyManager.LegacyScanFile | src/comfy_test/test/manager.py:545-574 | the per-file scan produces the file's issue entry |
| LegacyManager.LegacyCheckUnicode | src/comfy_test/test/manager.py:522-586 | the scan over all files computes the unicode check |
| LegacyManager.LegacySyntax | src/comfy_test/test/manager.py:496-520 | SYNTAX passes exactly when pyproject.toml or requirements.txt exists and every Python file is clean; otherwise it raises a TestError |
| LegacyManager.LegacyCheckSyntax | src/comfy_test/test/manager.py:496-520 | the syntax method computes that check |
| LegacyManager.DepCalls | src/comfy_test/test/manager.py:831-836 | one repository install per node requirement, in order |
| LegacyManager.PathOf | src/comfy_test/test/manager.py:887-892 | `Path(s)` of a saved field works exactly for a string and keeps it |
| LegacyManager.StatePaths | src/comfy_test/test/manager.py:886-892 | paths are rebuilt from the saved state exactly when its three paths are strings, under the given work directory |
| LegacyManager.ProbeFor | src/comfy_test/test/manager.py:670-687 | the probe gets the custom-nodes path with "/" separators, the node's directory name and a 60-second timeout |
| LegacyManager.InstallNodeReqs | src/comfy_test/test/manager.py:831-836 | the dependency loop makes the planned calls and stops at the first failure |
| LegacyManager.RunInstall | src/comfy_test/test/manager.py:812-861 | the single INSTALL level computes its step specification, including a raising `get_node_reqs` or `get_cuda_packages` |
| LegacyManager.CheckProbe | src/comfy_test/test/manager.py:689-719 | checking the probe's output computes the report check |
| LegacyManager.RunServerLevel | src/comfy_test/test/manager.py:876-1046 | a single server level computes its step specification, with EXECUTION through LegacyManager.RunExecution and its results.json written to the store |
| LegacyManager.RunInstallLevel | src/comfy_test/test/manager.py:811-818 | INSTALL without a work directory raises the "work_dir required for install level" TestError; otherwise it runs the install steps |
| LegacyManager.RunLaterLevel | src/comfy_test/test/manager.py:863-877 | a server level raises "work_dir required" without a work directory, then "skip_setup required for levels after install" without skip_setup, and only otherwise loads the saved state |
| LegacyManager.RunFromState | src/comfy_test/test/manager.py:876-877 | a state that fails to load ends the level with that exception and no call; a loaded state runs the server steps |
| LegacyManager.RunLevelSteps | src/comfy_test/test/manager.py:799-877 | dispatches on the level: SYNTAX, INSTALL or a server level, each against its step specification |
| LegacyManager.RunSingleLevel | src/comfy_test/test/manager.py:759-1058 | `run_single_level` computes the single-level specification; with LegacyManager.LegacyExecutionOkIff, LegacyManager.LegacyExecutionReport and LegacyManager.ServerExecution this pins down how EXECUTION ends and what it writes |
| LegacyManager.NotInConfigSkipped | src/comfy_test/test/manager.py:793-795 | a level missing from the configuration passes as "Skipped - not in config" and does nothing |
| LegacyManager.InstallNeedsWorkDir | src/comfy_test/test/manager.py:812-817 | INSTALL without a work directory fails with "work_dir required for install level" and does nothing |
| LegacyManager.InstallSavesState | src/comfy_test/test/manager.py:812-861 | a successful INSTALL made the setup, node and dependency calls and saved a state that loads back as the installed paths and CUDA packages (none in GPU mode) |
| LegacyManager.InstallStepsOk | src/comfy_test/test/manager.py:822-857 | successful install steps saved the installed state and made exactly the setup, node and dependency calls |
| LegacyManager.LaterLevelsNeedSavedState | src/comfy_test/test/manager.py:864-874 | a server level without a work directory, or without skip-setup, fails and does nothing |
| LegacyManager.ServerFromSavedState | src/comfy_test/test/manager.py:876-907 | a server level starts the server from the saved paths and CUDA packages, stops it after a successful start, writes no state, and changes no file but EXECUTION's results.json |
| LegacyManager.InstallThenServer | src/comfy_test/test/manager.py:849-907 | after a successful INSTALL, a later server level starts the server on the installed paths with the saved mock packages |
| LegacyManager.KeepUpToAgrees | src/comfy_test/test/manager.py:188-191 | when the maximum and every configured level are among the five legacy levels, the filter keeps exactly the levels up to the maximum, in configured order |
| LegacyManager.InstallComfyEnvRaises | src/comfy_test/test/manager.py:828-839 | once the node is installed, a raising `get_node_reqs` ends INSTALL before any dependency call, and a raising `get_cuda_packages` ends it after all of them; neither saves a state |
| LegacyManager.WriteReport | src/comfy_test/test/manager.py:1022-1036 | a report is written to `<node>/.comfy-test/results.json` and no other file changes; without a report nothing changes |
| LegacyManager.RunExecution | src/comfy_test/test/manager.py:927-1043 | the EXECUTION branch computes its specification: nothing to do without workflows or when the platform skips them, a fatal browser setup raises, otherwise the loop, the report and the aggregated error |
| LegacyManager.RunWorkflow | src/comfy_test/test/manager.py:976-1016 | one pass of the loop body: a screenshot workflow is captured to `<stem>_executed.png`, any other is run and its `result['status']` read; a pass or a caught failure is recorded, any other exception escapes |
| LegacyManager.RunWorkflows | src/comfy_test/test/manager.py:975-1016 | the loop over the configured workflows computes the loop specification, stopping at the first exception the clause does not name |
| LegacyManager.LegacyLoopKeepsRaise | src/comfy_test/test/manager.py:975-1020 | once a prefix of the loop raises, the whole loop raises the same exception |
| LegacyManager.LegacyLoopOkIff | src/comfy_test/test/manager.py:975-1016 | the loop reaches its end iff every workflow's try block ends normally or with WorkflowError, TestTimeoutError or ScreenshotError |
| LegacyManager.LegacyLoopRecords | src/comfy_test/test/manager.py:975-1016 | a completed loop has one record per workflow, in order, named by its stem, "pass" iff its try block ended normally and otherwise "fail" with the message; none is skipped, and there is one error entry per failure |
| LegacyManager.LegacyExecutionOkIff | src/comfy_test/test/manager.py:927-1043 | EXECUTION passes iff there is nothing to run, or the browser setup fails only with ImportError (or is not needed) and every workflow's try block ends normally; a report is written iff the loop reaches its end |
| LegacyManager.LegacyExecutionReport | src/comfy_test/test/manager.py:1022-1043 | a written report covers every configured workflow in order with the record each should get, passed and failed add up to the total, and the level fails iff some workflow failed, with "Workflow execution failed (N error(s))" and one detail line per failure |
| LegacyManager.ServerExecution | src/comfy_test/test/manager.py:876-1046 | with the server up, EXECUTION ends as the branch does, the server is stopped either way, and results.json holds the branch's report iff it wrote one |
| ModelTracker.ShouldSkipFileIff | src/comfy_test/orchestration/model_tracker.py:26-44 | a file is skipped exactly when its name starts with the placeholder prefix or ends in ".lock", or one of its directories is `.locks` or `refs` (the substring tests are proved equal to a directory test) |
| ModelTracker.ContainsDirIff | src/comfy_test/orchestration/model_tracker.py:37-41 | "/d/" occurs in "/" + path exactly when d is one of the path's directories |
| ModelTracker.IndexOfSub | src/comfy_test/orchestration/model_tracker.py:62 | the index of the first occurrence of the separator, or the length when there is none |
| ModelTracker.CacheRepoRoundTrip | src/comfy_test/orchestration/model_tracker.py:61-64 | "models--ORG--REPO" is read back as (ORG, REPO) |
| ModelTracker.PartsSourceNone | src/comfy_test/orchestration/model_tracker.py:59-69 | a path has no source exactly when none of its parts is a cache directory, and a found source comes from one of its parts |
| ModelTracker.InferSourceSpec | src/comfy_test/orchestration/model_tracker.py:47-70 | the source is unknown exactly when no part of any file is a HuggingFace cache directory; otherwise it is the repository of the first file that has one |
| ModelTracker.GroupWeights | src/comfy_test/orchestration/model_tracker.py:94-137 | summing a weight over the folders' lists is summing it over every reported file |
| ModelTracker.GroupSums | src/comfy_test/orchestration/model_tracker.py:139-163 | the folders' file counts add up to the number of reported files and their sizes to the total size |
| ModelTracker.FoldersSpec | src/comfy_test/orchestration/model_tracker.py:144-160 | one folder report per name, in the given order, each built from that name's files |
| ModelTracker.FolderOfSpec | src/comfy_test/orchestration/model_tracker.py:145-160 | a folder's files are its records sorted by size, largest first, with none lost or added; its size is their sum and its source is inferred from their paths |
| ModelTracker.FoldersOfNames | src/comfy_test/orchestration/model_tracker.py:144 | folders are reported once each, in sorted name order, exactly for the folders that have files |
| ModelTracker.GroupKey | src/comfy_test/orchestration/model_tracker.py:130-137 | a folder has a list exactly when the walk kept some file in it, and the list is those files in walk order |
| ModelTracker.FoldersOfOrder | src/comfy_test/orchestration/model_tracker.py:144-147 | report folders have strictly increasing names and are exactly the folders holding kept files |
| ModelTracker.FoldersOfContents | src/comfy_test/orchestration/model_tracker.py:145-160 | every reported folder is non-empty, sorted by size and a permutation of its kept files, with its size and source as above |
| ModelTracker.ReportFolders | src/comfy_test/orchestration/model_tracker.py:73-173 | a missing models directory gives an empty report with zero totals; otherwise the folders are sorted and unique, cover exactly the folders with kept files, and each has the contents above |
| ModelTracker.ReportTotals | src/comfy_test/orchestration/model_tracker.py:141-170 | the totals count every kept file of the walk once and add up their sizes |
| ModelTracker.KeepFile | src/comfy_test/orchestration/model_tracker.py:98-137 | one walked file is kept, as its top folder and record, exactly by the filter specification |
| ModelTracker.GroupWalk | src/comfy_test/orchestration/model_tracker.py:94-137 | the walk loop groups the kept files by folder, in walk order |
| ModelTracker.BuildFolders | src/comfy_test/orchestration/model_tracker.py:139-163 | the output loop builds the folder reports and their running totals |
| ModelTracker.BuildModelsReport | src/comfy_test/orchestration/model_tracker.py:73-173 | `build_models_report` computes the report specification |
| VramMonitor.ChildGraph | src/comfy_test/common/vram_monitor.py:23-32 | the reported children graph has an entry exactly for each process that `pgrep -P` listed (a failed query contributes no edges) |
| VramMonitor.QueryChildren | src/comfy_test/common/vram_monitor.py:23-32 | the children read for a parent are exactly that parent's children in the reported graph |
| VramMonitor.EnqueueChildren | src/comfy_test/common/vram_monitor.py:27-32 | after visiting a parent, the found set is the old set plus its children, stays inside the smallest closed set, and only new children are queued, each once |
| VramMonitor.DescendantPids | src/comfy_test/common/vram_monitor.py:16-35 | the breadth-first search returns exactly the root's process tree: the smallest set holding the root and closed under reported children; each pid is visited once |
| VramMonitor.LineEntries | src/comfy_test/common/vram_monitor.py:46-58 | one parse result per output line, in order |
| VramMonitor.CollectLastEntry | src/comfy_test/common/vram_monitor.py:46-58 | a pid has a usage entry iff some line parsed for it, and its value is the one on the last such line |
| VramMonitor.CollectLines | src/comfy_test/common/vram_monitor.py:46-58 | the per-line loop builds the same map as folding the parsed lines in order |
| VramMonitor.GpuVramPerPid | src/comfy_test/common/vram_monitor.py:38-60 | per-process usage is the fold of the parsed lines when nvidia-smi exits 0, and empty otherwise |
| VramMonitor.TotalVram | src/comfy_test/common/vram_monitor.py:63-75 | total memory is the first line's integer when the query succeeds and that line parses, and 0 on a failed query, a non-zero exit or unparsable output |
| VramMonitor.TreeUsage | src/comfy_test/common/vram_monitor.py:158-165 | the tree total is the sum of usage over the tree's pids, and the process count is the number of tree pids that use memory |
| VramMonitor.SafeName | src/comfy_test/common/vram_monitor.py:127 | the log file's workflow part keeps its length and holds no path separator |
| VramMonitor.Monitor.constructor | src/comfy_test/common/vram_monitor.py:91-107 | a new monitor keeps its root, node and workflow, reads the total once, and starts with no peak, no thread, no log and no samples |
| VramMonitor.Monitor.Start | src/comfy_test/common/vram_monitor.py:121-134 | with no GPU total nothing starts; otherwise the sampling thread runs and the CSV log named node_workflow_timestamp is open with only its header row |
| VramMonitor.Monitor.Stop | src/comfy_test/common/vram_monitor.py:136-144 | stopping sets the stop event, closes the log and returns the peak, which is at least every sample taken |
| VramMonitor.Monitor.RecordSample | src/comfy_test/common/vram_monitor.py:167-168 | the sample joins the history and the peak becomes the larger of the old peak and the sample, so every sample stays at or below the peak |
| VramMonitor.Monitor.Sample | src/comfy_test/common/vram_monitor.py:146-173 | one sample appends the tree's total (over the root's process tree, or over every GPU process without a root), raises the peak to it when larger, and adds one log row only when the log is open |
| Server.UrlFor | src/comfy_test/comfyui/server.py:58-61 | the base URL is the loopback address followed by the port's decimal digits |
| Server.MockEnv | src/comfy_test/comfyui/server.py:92-97 | no mock packages give no extra environment; otherwise exactly the package list and the strict-imports flag "1" are set |
| Server.MockEnvRoundTrip | src/comfy_test/comfyui/server.py:92-97 | splitting the mock-package variable on commas gives back the package list when no name holds a comma |
| Server.ImportErrorsExactly | src/comfy_test/comfyui/server.py:229-247 | a line is reported as an import error iff it is a captured line that matches one of the import-failure markers |
| Server.Broadcast | src/comfy_test/comfyui/server.py:72-76 | a message reaches the main log first and then every extra listener in registration order |
| Server.RemoveFirst | src/comfy_test/comfyui/server.py:67-70 | removing an absent listener changes nothing; removing a present one drops exactly one occurrence |
| Server.RemoveAfterAdd | src/comfy_test/comfyui/server.py:63-70 | adding a new listener and then removing it restores the listener list |
| Server.ReadyIffHealthy | src/comfy_test/comfyui/server.py:148-194 | waiting succeeds iff some poll reports healthy before the deadline with no earlier poll showing the process exited |
| Server.ReadyTimesOut | src/comfy_test/comfyui/server.py:188-194 | with no time left the wait raises the timeout error |
| Server.ComfyUIServer.constructor | src/comfy_test/comfyui/server.py:36-56 | a new server keeps its port and mock packages and has no process, API, output thread, listeners or captured output |
| Server.ComfyUIServer.AddLogListener | src/comfy_test/comfyui/server.py:63-65 | the listener is appended and nothing else changes |
| Server.ComfyUIServer.RemoveLogListener | src/comfy_test/comfyui/server.py:67-70 | the first occurrence of the listener is removed, if any, and nothing else changes |
| Server.ComfyUIServer.LogAll | src/comfy_test/comfyui/server.py:72-76 | the message is delivered to the main log and to every extra listener, and nothing else changes |
| Server.ComfyUIServer.ReceiveLine | src/comfy_test/comfyui/server.py:125-131 | a server output line is captured right-stripped and broadcast with the "  [ComfyUI] " prefix |
| Server.ComfyUIServer.Start | src/comfy_test/comfyui/server.py:78-113 | a second start raises "Server already started" and changes nothing; a first start hands the mock environment to the platform's `start_server`; if that raises, the exception propagates with no process and no reader thread; otherwise the process is kept, the reader started, and the readiness wait's outcome returned, with the API stored only on success |
| Server.ComfyUIServer.WaitForReady | src/comfy_test/comfyui/server.py:148-194 | the outcome is the readiness specification's; the API is stored only on success, and the reader thread is told to stop when the process exits |
| Server.ComfyUIServer.Stop | src/comfy_test/comfyui/server.py:196-214 | stopping a server never started returns and changes nothing; otherwise the reader thread is told to stop, the API is dropped and the process is handed to the platform's `stop_server`, whose outcome is returned; the process is forgotten iff that call returns, so a stop that raises leaves it set |
| Server.ComfyUIServer.GetApi | src/comfy_test/comfyui/server.py:216-227 | the API is returned iff the server is ready; otherwise "Server is not running" is raised |
| Server.ComfyUIServer.GetImportErrors | src/comfy_test/comfyui/server.py:229-247 | the result is the import-error lines of the captured output, in order |
| Server.StopTwice | src/comfy_test/comfyui/server.py:196-199 | stopping twice stops the process at most once and leaves no process or API |
| Server.StopRetried | src/comfy_test/comfyui/server.py:196-214 | a stop the platform refuses raises and keeps the process, so the next stop hands the same process over again and then clears it |
| Workflow.SelectPrompt | src/comfy_test/comfyui/workflow.py:95-105 | a document with a "prompt" key runs that value; otherwise an API-format document runs as is, and a litegraph document is converted with the server's node definitions, whose failure propagates |
| Workflow.FormatErrorMessages | src/comfy_test/comfyui/workflow.py:222-234 | no messages give "Unknown error"; formatting can fail only with a Python exception |
| Workflow.MessageTexts | src/comfy_test/comfyui/workflow.py:227-232 | one text per message, in order |
| Workflow.FormatStringMessages | src/comfy_test/comfyui/workflow.py:222-234 | plain string messages are joined with "; " |
| Workflow.FormatFailsOnlyOnNonTextMessage | src/comfy_test/comfyui/workflow.py:227-234 | formatting a message list fails iff some message is a dict whose "message" value is not a string |
| Workflow.FirstNodeError | src/comfy_test/comfyui/workflow.py:208-215 | finds the first output carrying an error, with no error in any output before it |
| Workflow.CheckOutputs | src/comfy_test/comfyui/workflow.py:207-215 | the outputs pass iff they form a dict with no erroring node output; a failure is a WorkflowError or a Python exception |
| Workflow.CheckOutputsFirstFailure | src/comfy_test/comfyui/workflow.py:208-215 | the first output whose `error` is truthy raises WorkflowError "Node <id> failed" for that node, carrying the workflow name and the error's text |
| Workflow.SuccessResult | src/comfy_test/comfyui/workflow.py:189-195 | a successful run reports status "success", its prompt id and the history's outputs |
| Workflow.Inspect | src/comfy_test/comfyui/workflow.py:185-215 | one history entry either finishes the wait with a success result for this prompt or fails with a WorkflowError or a Python exception, or lets the wait continue |
| Workflow.InspectCases | src/comfy_test/comfyui/workflow.py:185-215 | status "success" returns the dict with status "success", the prompt id and the entry's outputs (or an empty dict); status "error" raises WorkflowError "Workflow execution failed: " followed by the formatted messages; any other status keeps polling when there are no outputs and otherwise checks them for a failed node; an entry with neither status nor outputs keeps polling |
| Workflow.InterruptedIffTimedOut | src/comfy_test/comfyui/workflow.py:165-172 | a finished wait interrupted the server iff it raised the timeout error |
| Workflow.NoTimeoutNoInterrupt | src/comfy_test/comfyui/workflow.py:158-172 | without a timeout the wait never interrupts the server, whatever judges the history |
| Workflow.DeadlineEndsWait | src/comfy_test/comfyui/workflow.py:165-172 | once a poll reaches the timeout the wait has finished, whatever judges the history |
| Workflow.WaitForCompletion | src/comfy_test/comfyui/workflow.py:138-220 | the polling loop finishes exactly as the wait specification over the same polls, judged by `Inspect`; with Workflow.WaitDecidedAt and Workflow.WaitPendingIff, which hold for any judge, this pins down what it returns or raises |
| Workflow.WaitDecidedAt | src/comfy_test/comfyui/workflow.py:165-215 | when every earlier iteration let the wait continue, the first iteration before the deadline whose history settles the prompt decides the wait: its success result is returned, or its exception raised, without interrupting the server |
| Workflow.WaitPendingIff | src/comfy_test/comfyui/workflow.py:165-220 | the wait is still polling after the observed iterations iff every one of them was before the deadline and had no history or one that keeps polling |
| Workflow.WaitContinues | src/comfy_test/comfyui/workflow.py:174-220 | an iteration before the deadline with no history, or one that keeps polling, hands the wait to the next iteration |
| Workflow.WaitSettles | src/comfy_test/comfyui/workflow.py:185-215 | an iteration before the deadline whose history settles the prompt ends the wait with that result or exception, without interrupting the server |
| Workflow.Settled | src/comfy_test/comfyui/workflow.py:189-215 | a settled history returns its result or raises its exception |
| Workflow.RunWorkflowFrom | src/comfy_test/comfyui/workflow.py:86-107 | a missing workflow file raises FileNotFoundError naming it; the server is interrupted only for a loaded document |
| Workflow.RunWorkflow | src/comfy_test/comfyui/workflow.py:67-136 | loading, prompt selection, queueing and waiting behave as the run specification |
| Workflow.WaitResultIsDict | src/comfy_test/comfyui/workflow.py:138-220 | a wait that returns yields a dict whose status is "success" and whose prompt id is the one waited for |
| Workflow.RunResultIsDict | src/comfy_test/comfyui/workflow.py:67-136 | a workflow run that returns gives back a dict whose status is "success" |
| SyntaxLevel.LineIssuesEmptyIff | src/comfy_test/orchestration/levels/syntax.py:89-97 | a line yields no issue iff every character encodes in cp1252 |
| SyntaxLevel.LineIssuesCount | src/comfy_test/orchestration/levels/syntax.py:89-97 | a line yields one issue per character that cp1252 cannot encode |
| SyntaxLevel.LinesIssuesEmptyIff | src/comfy_test/orchestration/levels/syntax.py:88-97 | a file's lines yield no issue iff every line is clean |
| SyntaxLevel.FileEntryNoneIff | src/comfy_test/orchestration/levels/syntax.py:75-100 | a file contributes no entry iff it is skipped, or it decodes as UTF-8 and every line is clean |
| SyntaxLevel.UnicodeCheckOkIff | src/comfy_test/orchestration/levels/syntax.py:55-108 | the cp1252 check passes iff every scanned file is clean |
| SyntaxLevel.EntriesEmptyIff | src/comfy_test/orchestration/levels/syntax.py:67-102 | no issue is collected iff every file is clean |
| SyntaxLevel.SkippedFilesIgnored | src/comfy_test/orchestration/levels/syntax.py:70-80 | a file under a skipped, `_env_` or dot directory never changes the issues |
| SyntaxLevel.ScanLine | src/comfy_test/orchestration/levels/syntax.py:90-97 | the column loop collects exactly the line's issues |
| SyntaxLevel.ScanFile | src/comfy_test/orchestration/levels/syntax.py:76-100 | the per-file loop produces exactly the file's entry |
| SyntaxLevel.CheckUnicodeCharacters | src/comfy_test/orchestration/levels/syntax.py:55-106 | the scan over all files raises exactly when the cp1252 check does, with the same message |
| SyntaxLevel.CheckProjectStructure | src/comfy_test/orchestration/levels/syntax.py:31-52 | the structure check passes iff pyproject.toml or requirements.txt exists, and otherwise raises a TestError |
| SyntaxLevel.Run | src/comfy_test/orchestration/levels/syntax.py:10-28 | the level returns the context unchanged iff a dependency file exists and every file is clean; the structure error comes first |
| ValidationLevel.ResolveWorkflowPath | src/comfy_test/orchestration/levels/validation.py:88-93 | an absolute workflow path is kept, a relative one is joined to the node directory |
| ValidationLevel.ResolveIsJoin | src/comfy_test/orchestration/levels/validation.py:88-93 | resolving agrees with pathlib's join |
| ValidationLevel.ErrorTexts | src/comfy_test/orchestration/levels/validation.py:61 | one text per validation error, in order |
| ValidationLevel.VerdictCases | src/comfy_test/orchestration/levels/validation.py:50-77 | a missing file fails with "File not found", invalid JSON with "Invalid JSON: " and the decoder's message, and a raising validator with the exception's text |
| ValidationLevel.Failures | src/comfy_test/orchestration/levels/validation.py:45-77 | at most one failure per workflow |
| ValidationLevel.FailuresBy | src/comfy_test/orchestration/levels/validation.py:45-77 | at most one failure per workflow, whatever judges them |
| ValidationLevel.FailuresByMembers | src/comfy_test/orchestration/levels/validation.py:45-77 | for any verdict, a (name, reason) pair is reported iff some workflow has that name and that verdict |
| ValidationLevel.FailuresByEmptyIff | src/comfy_test/orchestration/levels/validation.py:45-77 | for any verdict, nothing is reported iff every workflow passes |
| ValidationLevel.FailureLines | src/comfy_test/orchestration/levels/validation.py:82 | one detail line per failure |
| ValidationLevel.ValidationSpec | src/comfy_test/orchestration/levels/validation.py:11-85 | success returns the context unchanged; no workflows succeed at once; workflows without an API raise the REGISTRATION-first TestError |
| ValidationLevel.CheckWorkflow | src/comfy_test/orchestration/levels/validation.py:50-77 | one workflow's verdict and log lines are those of the specification |
| ValidationLevel.LogErrors | src/comfy_test/orchestration/levels/validation.py:61-66 | the error loop logs exactly the specified lines |
| ValidationLevel.Run | src/comfy_test/orchestration/levels/validation.py:11-85 | the level's outcome and log are those of the specification |
| ValidationLevel.VerdictNoneIff | src/comfy_test/orchestration/levels/validation.py:50-67 | a workflow passes iff its file loads and all three validation phases report no error |
| ValidationLevel.FailuresAreFailingWorkflows | src/comfy_test/orchestration/levels/validation.py:45-77 | a (name, reason) pair is reported iff some configured workflow has that name and fails for that reason |
| ValidationLevel.FailuresEmptyIff | src/comfy_test/orchestration/levels/validation.py:45-77 | nothing is reported iff every configured workflow passes |
| ValidationLevel.ResultLogBounded | src/comfy_test/orchestration/levels/validation.py:62-66 | a failing workflow logs its error count, at most five errors, and an "... and N more" line exactly when more exist |
| ValidationLevel.ValidationOkIff | src/comfy_test/orchestration/levels/validation.py:11-85 | the level succeeds iff there are no workflows, or the API is set, the node definitions load and every workflow passes |
| Gitignore.PatternsSpec | src/comfy_test/local_runner.py:41-52 | a pattern is read iff some line, stripped, is neither blank nor a comment and gives it with trailing '/' removed; no pattern ends with '/' or starts with '#' |
| Gitignore.ReadLine | src/comfy_test/vm_runner.py:248-251 | reading one line gives the line's pattern, or none for a blank line or a comment |
| Gitignore.ReadLines | src/comfy_test/vm_runner.py:247-251 | the loop over the lines collects exactly their patterns, in file order |
| Gitignore.ReadPatterns | src/comfy_test/vm_runner.py:242-252 | a missing .gitignore gives no pattern; otherwise the patterns of its lines |
| LocalRunner.EnsureGitignore | src/comfy_test/local_runner.py:15-24 | the new .gitignore is the one the specification gives for the existing file and the pattern |
| LocalRunner.GitignoreAfterHolds | src/comfy_test/local_runner.py:15-24 | afterwards the file holds the pattern without its trailing '/', and an existing file is only appended to |
| LocalRunner.GitignoreIdempotent | src/comfy_test/local_runner.py:18-22 | ensuring the pattern a second time leaves the file unchanged |
| LocalRunner.AnyPatternHits | src/comfy_test/local_runner.py:66-74 | the pattern loop stops with a hit iff some pattern matches the name or its path relative to the copied tree |
| LocalRunner.IgnoreFunc | src/comfy_test/local_runner.py:54-76 | the ignore callback returns exactly the names the specification ignores, in order |
| LocalRunner.IgnoredNamesSpec | src/comfy_test/local_runner.py:54-76 | a name is ignored iff it is listed and the ignore rule holds for it; no name is added |
| LocalRunner.FilterIgnoresIff | src/comfy_test/local_runner.py:33-78 | a name is skipped iff it is always ignored or some .gitignore pattern matches its name or its relative path; the '/'-suffix branch can never fire because patterns lose their trailing '/' |
| LocalRunner.SplitLogLines | src/comfy_test/local_runner.py:96-116 | the line loop writes the same sections and count as the splitting specification |
| LocalRunner.SplitLogByWorkflow | src/comfy_test/local_runner.py:81-116 | a missing log writes nothing and returns 0; otherwise the log's lines are split as specified |
| LocalRunner.WrittenSectionAt | src/comfy_test/local_runner.py:100-114 | any run of lines from a start marker may be written to that workflow's log file |
| LocalRunner.WrittenSectionGrow | src/comfy_test/local_runner.py:100-114 | a section written from a prefix of the log stays a section of the longer log |
| LocalRunner.StepWrites | src/comfy_test/local_runner.py:100-114 | each write of one step is a run of lines that starts at its workflow's start marker |
| LocalRunner.StepOpen | src/comfy_test/local_runner.py:100-114 | an open section is always the lines from its start marker to the current line |
| LocalRunner.SplitRunInv | src/comfy_test/local_runner.py:96-116 | splitting any log keeps the section invariant |
| LocalRunner.SplitLogSections | src/comfy_test/local_runner.py:81-116 | the returned count equals the number of files written, and every file holds a run of log lines beginning at its workflow's start marker |
| LocalRunner.NoStartNoEffect | src/comfy_test/local_runner.py:100-114 | a log with no start marker writes nothing |
| LocalRunner.PlainLineWritesNothing | src/comfy_test/local_runner.py:108-110 | a line with neither marker writes nothing |
| LocalRunner.EndMarkerClosesSection | src/comfy_test/local_runner.py:108-114 | an end marker inside a section writes that section, including the end line, and closes it |
| LocalRunner.StartMarkerOpensSection | src/comfy_test/local_runner.py:101-107 | a start marker writes any open non-empty section and opens a new one holding only this line |
| VmRunner.GpuAddressSpec | src/comfy_test/vm_runner.py:107-112 | an address is found iff some line names an NVIDIA VGA or 3D controller, and it is the first word of the first such line |
| VmRunner.IsGpuLineCheck | src/comfy_test/vm_runner.py:109 | the line test is the NVIDIA and VGA-or-3D-controller condition |
| VmRunner.FirstGpuAddress | src/comfy_test/vm_runner.py:107-112 | the line loop returns the first GPU line's address |
| VmRunner.FindGpuDevice | src/comfy_test/vm_runner.py:99-115 | no lspci output gives none; otherwise the first GPU line's address |
| VmRunner.ChunkCount | src/comfy_test/vm_runner.py:306-307 | there are as many chunks as 30000-character steps needed to cover the text, and none for empty text |
| VmRunner.ChunkAt | src/comfy_test/vm_runner.py:307 | chunk i is the text slice starting at i times the chunk size |
| VmRunner.ChunkLengths | src/comfy_test/vm_runner.py:307 | every chunk but the last has the full size, and no chunk is empty |
| VmRunner.ChunksConcat | src/comfy_test/vm_runner.py:307 | joining the chunks gives back the text |
| VmRunner.CopyFileWithProgress | src/comfy_test/vm_runner.py:300-338 | the upload loop sends the same scripts and returns the same result as the upload specification |
| VmRunner.SendAllSnoc | src/comfy_test/vm_runner.py:322-336 | sending one more script happens only while every earlier script succeeded |
| VmRunner.SendAllStopped | src/comfy_test/vm_runner.py:334-336 | after a failing script nothing more is sent |
| VmRunner.SendAllSpec | src/comfy_test/vm_runner.py:317-338 | the scripts sent are a prefix; the upload succeeds iff every script succeeds, and otherwise stops at the first failing one |
| VmRunner.ReplayIssued | src/comfy_test/vm_runner.py:311-333 | running the first n scripts leaves the remote file holding the first n chunks joined |
| VmRunner.UploadSpec | src/comfy_test/vm_runner.py:300-338 | empty content raises IndexError before sending anything; otherwise the first script writes the first chunk, the rest append to the same file, and success leaves the remote file holding exactly the content |
| VmRunner.SkipAsWrittenDropsAll | src/comfy_test/vm_runner.py:353-357 | as written, a node directory under an always-skipped directory name archives no file at all |
| VmRunner.SkipAsWrittenExample | src/comfy_test/vm_runner.py:353-367 | as written, "nodes.py" in ".venv" is dropped although nothing should skip it |
| VmRunner.SkipFileAgrees | src/comfy_test/vm_runner.py:353-367 | outside an always-skipped directory, the corrected test agrees with the written one |
| VmRunner.ArchivedSpec | src/comfy_test/vm_runner.py:353-370 | a file is archived iff it is found and not skipped; nothing is added |
| VmRunner.ShouldSkip | src/comfy_test/vm_runner.py:355-367 | the skip loop decides exactly the corrected skip test |
| VmRunner.ArchiveEntries | src/comfy_test/vm_runner.py:340-370 | the archive holds exactly the files the corrected test keeps, with the .gitignore's patterns |
| VmRunner.LocalResultPathOfChild | src/comfy_test/vm_runner.py:618-619 | a result file below the results directory lands at its relative path under the output directory, with '\\' turned into '/' |
| VmRunner.FetchesSpec | src/comfy_test/vm_runner.py:616-620 | a file is fetched iff it is a non-blank listed line, and it goes to its mapped local path |
| VmRunner.ResultFetchOf | src/comfy_test/vm_runner.py:617-620 | one listing line gives its fetch, or none when blank |
| VmRunner.FetchLines | src/comfy_test/vm_runner.py:616-620 | the listing loop gives exactly the specified fetches, in order |
| VmRunner.FetchResults | src/comfy_test/vm_runner.py:609-620 | a failed listing fetches nothing; otherwise the non-blank lines of the stripped listing are fetched |
| Screenshot.DedupeFrames | src/comfy_test/reporting/screenshot.py:183-194 | the frame loop keeps exactly the frames the deduplication specification keeps |
| Screenshot.DedupeEnds | src/comfy_test/reporting/screenshot.py:183-194 | deduplication empties only an empty list, keeps the first frame and the last frame's hash, and only keeps frames it was given |
| Screenshot.DedupeHasNoRuns | src/comfy_test/reporting/screenshot.py:183-194 | no two consecutive kept frames have the same hash |
| Screenshot.DedupeKeepsHashes | src/comfy_test/reporting/screenshot.py:183-194 | every distinct image of the input is still present after deduplication |
| Screenshot.DedupeNoRuns | src/comfy_test/reporting/screenshot.py:183-194 | a list with no consecutive duplicates is left unchanged |
| Screenshot.DedupeIdempotent | src/comfy_test/reporting/screenshot.py:183-194 | deduplicating twice is the same as deduplicating once |
| Screenshot.ScreenshotWithRetry | src/comfy_test/reporting/screenshot.py:452-474 | the attempt loop returns the same outcome and makes the same attempts and waits as the retry specification |
| Screenshot.RetrySucceeds | src/comfy_test/reporting/screenshot.py:463-466 | the first successful attempt ends the retries at once with success |
| Screenshot.RetryExhausted | src/comfy_test/reporting/screenshot.py:462-474 | when every attempt fails, each is made once and a ScreenshotError carrying the last failure is raised |
| Screenshot.RetrySpec | src/comfy_test/reporting/screenshot.py:452-474 | the screenshot succeeds iff one of the allowed attempts succeeds; it stops at the first success, and otherwise raises the retry failure after all attempts |
| Screenshot.WorkflowScreenshot.constructor | src/comfy_test/reporting/screenshot.py:341-358 | the server URL is kept without trailing '/', and there is no browser, page or console log yet |
| Screenshot.WorkflowScreenshot.Start | src/comfy_test/reporting/screenshot.py:360-419 | starting with a browser running changes nothing; otherwise it succeeds iff Playwright, the browser and the page all open, a raising step returns its exception, and only the handles opened before it are kept |
| Screenshot.WorkflowScreenshot.Stop | src/comfy_test/reporting/screenshot.py:476-486 | the page, the browser and Playwright are closed in that order, each only if open, and all are cleared |
| Screenshot.DecimalOfNat | src/comfy_test/reporting/screenshot.py:1495 | the decimal digits of a frame number read back as that number |
| Screenshot.DecimalLeadingZeros | src/comfy_test/reporting/screenshot.py:1495 | leading zeros do not change the value of a decimal string |
| Screenshot.Pad3Value | src/comfy_test/reporting/screenshot.py:1495 | the frame number padded to three digits reads back as the frame number |
| Screenshot.FrameNameInjective | src/comfy_test/reporting/screenshot.py:1495 | different frame numbers give different frame file names |
| Screenshot.FramePathInjective | src/comfy_test/reporting/screenshot.py:1495 | different frame numbers give different frame paths in the output directory |
| Screenshot.FrameRecorder.constructor | src/comfy_test/reporting/screenshot.py:1483-1486 | a recorder starts with no last hash, frame number 0 and no frames |
| Screenshot.FrameRecorder.SaveFrameIfNew | src/comfy_test/reporting/screenshot.py:1488-1507 | a frame is saved iff its hash differs from the last saved one; a saved frame takes the next numbered path and its metadata, and an unsaved one changes nothing |
| Screenshot.FramePathsDistinct | src/comfy_test/reporting/screenshot.py:1488-1507 | the saved frames never overwrite one another |
| Screenshot.EmbedChunksSpec | src/comfy_test/reporting/screenshot.py:1072-1104 | the workflow text is always embedded first, and the prompt text too iff every key is a decimal string, as in API format |
| Screenshot.CaptureWorkflows | src/comfy_test/reporting/screenshot.py:1919-1932 | the capture loop returns exactly what the capture specification gives |
| Screenshot.CaptureAllStops | src/comfy_test/reporting/screenshot.py:1925-1932 | an exception other than a ScreenshotError ends the loop; later workflows do not matter |
| Screenshot.CaptureSkipsFailure | src/comfy_test/reporting/screenshot.py:1927-1932 | a workflow whose capture raises a ScreenshotError contributes nothing and the loop continues |
| Screenshot.CaptureAllSpec | src/comfy_test/reporting/screenshot.py:1889-1934 | when captures only succeed or raise ScreenshotError, the result lists exactly the successfully saved images |

## Left out

- Processes, threads and sockets are not modelled. This covers the server's output-reader thread, selectors, the VRAM monitor's polling thread, the progress spinner, the resource monitor and faulthandler. Their output lines, exit codes and probe output are inputs.
- The ComfyUI HTTP client, the Playwright browser calls, the in-page JavaScript, WinRM, QEMU, websockify, act and docker are collaborators. Only the values they return are modelled.
- The platform providers (`platforms/*`, `test/platform/*`) are collaborators. A call to one is recorded as a value, and its outcome is an input.
- TOML and JSON parsing are not modelled: the model works on parsed documents. Base64 encoding (section 4 of RFC 4648) is treated as opaque text; PIL images and MD5 hashes are opaque, with hashes given as strings.
- `fnmatch`, the log-splitting regexes, `unicodedata.name` and `repr` of a character are function parameters.
- cp1252 encodability, `str.isupper` and `str.isdigit` are defined over ASCII and the cp1252 table only. No Unicode case or digit classes are modelled.
- Wall-clock time is replaced by polls. `time.time()` and the sleeps become a sequence of polls, each carrying the elapsed time it observed, and a bound on how many polls the loop makes. Timestamps, durations, the log's "[mm:ss] " prefix and the original log callback are not modelled.
- Floating point is not modelled: `_human_size`, resource averages, duration rounding and pass rates are left out. Validator numbers are reals, and `str()` of a float is written in fixed-point with at most 17 decimals.
- `TestLevel.resolve_dependencies` and the level enumeration live in `common/config.py`, which is not part of this model. The resolver is a parameter, and the level names are taken as they are used.
- `common/errors.py` is not part of this model. The error classes the levels raise are assumed to be `TestError` subclasses, as the driver's `except TestError` implies, and `str(e)` of one is taken to be its message.
- The STATIC_CAPTURE level runner (`orchestration/levels/static_capture.py`) only delegates to the screenshot collaborator. The driver treats it as an opaque runner.
- The old screenshot module `src/comfy_test/screenshot.py`, the HTML report, `report.py`, and the CLI and its path wizards are not part of this model.
- The legacy manager's `run_platform` is modelled up to its level selection and early SYNTAX pass. Its installation and server stages beyond that point, the workflow loop included, repeat what `run_single_level` does, so only that method models them.
- The legacy manager imports `get_node_reqs` and `get_cuda_packages` from `test/comfy_env.py`, and its configuration from `test/config.py`; neither file is part of this model. What the two functions return or raise, and the `execution_screenshot` list, are inputs of the legacy world.
- LegacyManager.RunExecution: the `timestamp` and `duration_seconds` fields of results.json, the per-workflow `.log` files and the created directories are not modelled, and `ws.stop()` in the `finally` clause is taken not to raise.
- LegacyManager.RunExecution: an ImportError raised by `ws.start()` after the browser object exists leaves `ws` set, so `ws.stop()` still runs; the model only records that screenshots are switched off.
- ExecutionLevel.ExecutionSpec: the server's log listener is not modelled. A workflow skipped for lack of a GPU leaves the listener it registered (execution.py line 150) in place, because only the run path removes it (line 166).
- `verify_only` in the legacy manager and the `with`-statement entry and exit of the server and screenshot classes are not modelled separately.
- ExecutionLevel.Run: computes the intended level. As written, without screenshots, every workflow whose run returns fails at the `result.status` read; ExecutionLevel.ExecuteAsWritten models that, and ExecutionLevel.CompletedRunFinding shows it.
- ExecutionLevel.RunOne: computes the intended step, in which a run that returns is a pass; the as-written step reads `result.status` first (ExecutionLevel.ReadStatus).
- ExecutionLevel.RunLoop: computes the intended loop; the as-written loop sees every run through ExecutionLevel.ReadStatus.
- ExecutionLevel.StepRecord: states the intended step; as written, without screenshots, no step records a pass (ExecutionLevel.AsWrittenNeverPasses).
- ExecutionLevel.LoopRecordsEveryWorkflow: states the intended loop; as written, without screenshots, no record is a pass.
- ExecutionLevel.ExecutionOkIff: states when the intended level passes; as written, the level passes only with screenshots enabled, or with no workflow left to run.
- RegistrationLevel.RegisterOkIff: describes the level once a server object exists; as written the import on line 23 fails first (RegistrationLevel.ImportFinding).
- RegistrationLevel.RunManaged: computes the mended level. The context's `env_vars` are not passed to the managed server, because the server class has no such parameter (RegistrationLevel.EnvVarsFinding).
- RegistrationLevel.Run: computes the mended level; the level as written is RegistrationLevel.RegistrationAsWritten, which always raises ImportError.
- ExecutionLevel.ExecutionSpec: the level is entered with the server and API client that REGISTRATION stored, so `ctx.server` and `ctx.api` (execution.py lines 122, 141, 146 and 150) are taken to be set; the AttributeError a run without them would raise is not modelled.
- ConfigFile.ParseConfig: the `TestConfig` constructor lives in `common/config.py`, which is not part of this model, and is taken never to raise, so the `ValueError` to `ConfigError("Invalid configuration", ...)` wrap is not modelled.
- ModelTracker.FolderOfSpec: sorting by size is proved to give a sorted permutation. Stability among equal sizes is not stated.
- The file system is a map from paths to file contents, and directory walks (`rglob`, `os.walk`) are their result lists. Symlink checks are flags on the walked records.

## Findings

| source | as written | input that shows it | evidently intended | confidence | as-written member | corrected member |
|---|---|---|---|---|---|---|
| src/comfy_test/orchestration/levels/execution.py:78-84 | `w == ctx.workflow_filter` compares a `Path` with a `str`, which is never equal, so only the file-name test can match | the filter "/node/workflows/basic.json" with that workflow configured: nothing matches and "Workflow not found" is raised | a full path that names a configured workflow selects it | not executed | ExecutionLevel.FilterByPathFinding | ExecutionLevel.FilterKeepsMatches |
| src/comfy_test/orchestration/levels/execution.py:129-131, 194-201 | with screenshots disabled `ScreenshotError` is bound to `Exception`, so the handler catches every exception and then reads `e.message` | a configured workflow file that is missing: FileNotFoundError is caught, and reading `.message` raises AttributeError out of the level | every exception the handler catches is recorded as that workflow's failure with its text, and the loop goes on | not executed | ExecutionLevel.MissingFileFinding | ExecutionLevel.ExecutionSpec |
| src/comfy_test/test/manager.py:188-191 | the max-level filter looks each configured level up in a five-level list that lacks VALIDATION | any `--level` with the default levels, which include VALIDATION: `order.index` raises ValueError before the run starts | configured levels up to the maximum, in the full level order | not executed | LegacyManager.LegacyFilterFinding | LegacyManager.LegacyFilterAgrees |
| src/comfy_test/vm_runner.py:353-367 | the always-skip test inspects every part of the absolute file path, not the path relative to the node directory | a node directory named ".venv" holding "nodes.py" with no patterns: the file is skipped, and so is every other file | only directories inside the node directory are skipped | not executed | VmRunner.SkipAsWrittenExample | VmRunner.SkipFileAgrees |
| src/comfy_test/orchestration/levels/execution.py:129-131, 188-198 | without screenshots the loop logs `result.status`, but `run_workflow` returns a dict, which has no such attribute | one configured workflow whose run returns: AttributeError on `status` is caught, and reading `.message` raises AttributeError out of the level, so no results are written | a run that returns is recorded as a pass | not executed | ExecutionLevel.CompletedRunFinding | ExecutionLevel.CompletedRunPasses |
| src/comfy_test/orchestration/levels/registration.py:23, 31-38 | the level imports `ExternalComfyUIServer`, which the server module does not define, and passes `env_vars` to a constructor without that parameter | any run: ImportError; with the class added, a managed server: TypeError on `env_vars` | the level imports what exists and builds the managed server | not executed | RegistrationLevel.ImportFinding | RegistrationLevel.RegistrationMended |
