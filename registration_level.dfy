/**
 * The REGISTRATION level: start the managed ComfyUI server (or connect to an
 * external one), refuse the node if the server output shows an import
 * failure, and record the node types the server registered.
 *
 * The managed server is the `Server.ComfyUIServer` state machine, driven with
 * the readiness polls and the output lines it sees. The external server's
 * class is not part of this model: its start outcome and import errors are
 * inputs.
 *
 * As written, the level imports a class the server module does not define
 * and passes the managed server a keyword its constructor does not take;
 * `RegistrationWith` models both steps, `RegistrationAsWritten` is the level
 * with the server module as it is, and `RegistrationSpec` the level with
 * both mended.
 */
module RegistrationLevel {
  import opened Base
  import opened Strings
  import opened Json
  import opened Context
  import opened Server

  /** The port a managed server listens on. */
  const DefaultPort := 8188
  /** The seconds `start` waits for readiness. */
  const StartTimeout := 60

  /** What the servers the level may use will do. */
  datatype ServerInputs = ServerInputs(
    launch: Outcome<Process>,          // the process the provider launches, or what its launch raises
    halt: Outcome<()>,                 // how the provider's stop of that process ends
    poll: nat -> ReadyPoll,            // the readiness polls
    ticks: nat,                        // polls before the start timeout
    output: seq<string>,               // raw output lines read before the import check
    externalStart: Outcome<()>,        // how connecting to an external server ends
    externalHalt: Outcome<()>,         // how stopping the external server ends
    externalImportErrors: seq<string>, // the import errors an external server reports
    objectInfo: Outcome<Json>)         // the `/object_info` answer

  /** An external server is used when a non-empty server URL was given. */
  predicate UsesExternal(ctx: LevelContext)
  {
    ctx.serverUrl.Some? && ctx.serverUrl.value != ""
  }

  function ImportFailure(errors: seq<string>): Outcome<LevelContext>
  {
    Fail(TestErr, "Node import failed (" + NatToString(|errors|) + " error(s))", Text(Join("\n", errors)))
  }

  /** `tuple(object_info.keys())`. */
  function RegisteredNodes(objectInfo: Json): (r: Outcome<seq<string>>)
    ensures r.Ok? <==> objectInfo.JObject?
    ensures r.Ok? ==> r.value == DictKeys(objectInfo.fields)
  {
    if objectInfo.JObject? then Ok(DictKeys(objectInfo.fields)) else AttributeError(objectInfo, "keys")
  }

  function RegistrationUpdates(handle: ServerHandle, nodes: seq<string>): (us: seq<Update>)
    ensures DistinctFields(us)
  {
    [SetServer(Some(handle)), SetApi(Some(ApiHandle(handle))), SetRegisteredNodes(nodes)]
  }

  /**
   * The level once the server is chosen: its start, the import check (which
   * stops the server, `halt` being how that stop ends, before failing), and
   * the node list.
   */
  function Register(ctx: LevelContext, handle: ServerHandle, started: Outcome<()>, importErrors: seq<string>,
                    halt: Outcome<()>, objectInfo: Outcome<Json>): Outcome<LevelContext>
  {
    if started.Raised? then Raised(started.exc)
    else if importErrors != [] then (if halt.Raised? then Raised(halt.exc) else ImportFailure(importErrors))
    else
      var info :- objectInfo;
      var nodes :- RegisteredNodes(info);
      Ok(WithUpdates(ctx, RegistrationUpdates(handle, nodes)))
  }

  /** Output lines as the reader stores them. */
  function Stored(output: seq<string>): (r: seq<string>)
    ensures |r| == |output| && forall k :: 0 <= k < |output| ==> r[k] == RStrip(output[k])
  {
    if output == [] then [] else [RStrip(output[0])] + Stored(output[1..])
  }

  /** How `start` ends for the managed server: the provider's launch, then the wait for readiness. */
  function ManagedStart(inp: ServerInputs): Outcome<()>
  {
    if inp.launch.Raised? then Raised(inp.launch.exc) else ReadyFrom(inp.poll, 0, inp.ticks, StartTimeout)
  }

  /** The REGISTRATION level, with `serverId` naming the managed server it would create. */
  function RegistrationSpec(ctx: LevelContext, serverId: nat, inp: ServerInputs): Outcome<LevelContext>
  {
    if UsesExternal(ctx) then
      Register(ctx, ExternalServer(ctx.serverUrl.value), inp.externalStart, inp.externalImportErrors, inp.externalHalt, inp.objectInfo)
    else
      Register(ctx, ManagedServer(serverId), ManagedStart(inp), ImportErrors(Stored(inp.output)), inp.halt, inp.objectInfo)
  }

  // ----- the level as written ----------------------------------------------

  /** The module the level imports its server classes from. */
  const ServerModule := "comfy_test.comfyui.server"
  /** The names that module defines. */
  const ServerModuleNames: set<string> := {"ComfyUIServer"}
  /** The names the level imports from it, in order. */
  const ImportedNames := ["ComfyUIServer", "ExternalComfyUIServer"]
  /** The parameters of `ComfyUIServer.__init__`. */
  const ServerParams: set<string> := {"platform", "paths", "config", "port", "cuda_mock_packages", "log_callback"}
  /** The keyword arguments the level passes to `ComfyUIServer`, in order. */
  const ServerKeywords := ["cuda_mock_packages", "log_callback", "env_vars"]

  /** `from module import names`: the first name the module does not define raises ImportError. */
  function FromImport(defined: set<string>, names: seq<string>, moduleName: string): (r: Outcome<()>)
    ensures r.Ok? <==> forall k :: 0 <= k < |names| ==> names[k] in defined
    ensures r.Raised? ==> r.exc.Untyped? && r.exc.pyType == "ImportError"
  {
    if names == [] then Ok(())
    else if names[0] !in defined then PyFail("ImportError", "cannot import name '" + names[0] + "' from '" + moduleName + "'")
    else FromImport(defined, names[1..], moduleName)
  }

  /** A call with keyword arguments: the first keyword the callee has no parameter for raises TypeError. */
  function CallKeywords(params: set<string>, keywords: seq<string>, callee: string): (r: Outcome<()>)
    ensures r.Ok? <==> forall k :: 0 <= k < |keywords| ==> keywords[k] in params
    ensures r.Raised? ==> r.exc.Untyped? && r.exc.pyType == "TypeError"
  {
    if keywords == [] then Ok(())
    else if keywords[0] !in params then PyFail("TypeError", callee + "() got an unexpected keyword argument '" + keywords[0] + "'")
    else CallKeywords(params, keywords[1..], callee)
  }

  /**
   * The level against a server module that defines `defined` and a managed
   * server class whose constructor takes `params`: the import comes first,
   * then, for a managed server, the constructor call, then `Register`.
   */
  function RegistrationWith(defined: set<string>, params: set<string>, ctx: LevelContext, serverId: nat,
                            inp: ServerInputs): (r: Outcome<LevelContext>)
    ensures FromImport(defined, ImportedNames, ServerModule).Raised? ==> r == Raised(FromImport(defined, ImportedNames, ServerModule).exc)
    ensures && FromImport(defined, ImportedNames, ServerModule).Ok?
            && !UsesExternal(ctx)
            && CallKeywords(params, ServerKeywords, "ComfyUIServer.__init__").Raised?
            ==> r == Raised(CallKeywords(params, ServerKeywords, "ComfyUIServer.__init__").exc)
  {
    var imported :- FromImport(defined, ImportedNames, ServerModule);
    if UsesExternal(ctx) then
      Register(ctx, ExternalServer(ctx.serverUrl.value), inp.externalStart, inp.externalImportErrors, inp.externalHalt, inp.objectInfo)
    else
      var constructed :- CallKeywords(params, ServerKeywords, "ComfyUIServer.__init__");
      Register(ctx, ManagedServer(serverId), ManagedStart(inp), ImportErrors(Stored(inp.output)), inp.halt, inp.objectInfo)
  }

  /** The level as written, against the server module as it is. */
  function RegistrationAsWritten(ctx: LevelContext, serverId: nat, inp: ServerInputs): (r: Outcome<LevelContext>)
    ensures r.Raised? && r.exc.Untyped? && r.exc.pyType == "ImportError"
  {
    assert ImportedNames[1] !in ServerModuleNames;
    RegistrationWith(ServerModuleNames, ServerParams, ctx, serverId, inp)
  }

  /** As written, every run of the level stops at its import: the server module has no `ExternalComfyUIServer`. */
  lemma ImportFinding(ctx: LevelContext, serverId: nat, inp: ServerInputs)
    ensures RegistrationAsWritten(ctx, serverId, inp) ==
      PyFail("ImportError", "cannot import name '" + "ExternalComfyUIServer" + "' from '" + "comfy_test.comfyui.server" + "'")
  {
    assert ImportedNames[0] in ServerModuleNames && ImportedNames[1..][0] !in ServerModuleNames;
    var msg := "cannot import name '" + "ExternalComfyUIServer" + "' from '" + ServerModule + "'";
    assert FromImport(ServerModuleNames, ImportedNames[1..], ServerModule) == PyFail("ImportError", msg);
    assert FromImport(ServerModuleNames, ImportedNames, ServerModule) == PyFail("ImportError", msg);
  }

  /** With that class added, a managed server still cannot be built: its constructor has no `env_vars`. */
  lemma EnvVarsFinding(ctx: LevelContext, serverId: nat, inp: ServerInputs)
    requires !UsesExternal(ctx)
    ensures RegistrationWith(ServerModuleNames + {"ExternalComfyUIServer"}, ServerParams, ctx, serverId, inp) ==
      PyFail("TypeError", "ComfyUIServer.__init__" + "() got an unexpected keyword argument '" + "env_vars" + "'")
  {
    var kws := ServerKeywords;
    assert kws[1..][1..][1..] == [] && kws[1..][1..][0] == "env_vars" && "env_vars" !in ServerParams;
    var msg := "ComfyUIServer.__init__" + "() got an unexpected keyword argument '" + "env_vars" + "'";
    assert kws[0] in ServerParams && kws[1..][0] in ServerParams;
    assert CallKeywords(ServerParams, kws[1..][1..], "ComfyUIServer.__init__") == PyFail("TypeError", msg);
    assert CallKeywords(ServerParams, kws[1..], "ComfyUIServer.__init__") == PyFail("TypeError", msg);
    assert CallKeywords(ServerParams, kws, "ComfyUIServer.__init__") == PyFail("TypeError", msg);
    assert FromImport(ServerModuleNames + {"ExternalComfyUIServer"}, ImportedNames, ServerModule).Ok?;
  }

  /** With the class defined and the keyword accepted, the level is `RegistrationSpec`. */
  lemma RegistrationMended(ctx: LevelContext, serverId: nat, inp: ServerInputs)
    ensures RegistrationWith(ServerModuleNames + {"ExternalComfyUIServer"}, ServerParams + {"env_vars"}, ctx, serverId, inp) ==
      RegistrationSpec(ctx, serverId, inp)
  {
    assert FromImport(ServerModuleNames + {"ExternalComfyUIServer"}, ImportedNames, ServerModule).Ok?;
    assert CallKeywords(ServerParams + {"env_vars"}, ServerKeywords, "ComfyUIServer.__init__").Ok?;
  }

  // ----- properties --------------------------------------------------------

  /** The level succeeds iff the server started, no import failed, and the node list is a dict. */
  lemma RegisterOkIff(ctx: LevelContext, handle: ServerHandle, started: Outcome<()>, importErrors: seq<string>,
                      halt: Outcome<()>, objectInfo: Outcome<Json>)
    ensures Register(ctx, handle, started, importErrors, halt, objectInfo).Ok? <==>
      started.Ok? && importErrors == [] && objectInfo.Ok? && objectInfo.value.JObject?
  {
  }

  /**
   * A managed server whose output shows an import failure fails the level
   * with a TestError, unless stopping that server raises first.
   */
  lemma ManagedImportFailure(ctx: LevelContext, serverId: nat, inp: ServerInputs, k: nat)
    requires !UsesExternal(ctx) && ManagedStart(inp).Ok?
    requires k < |inp.output| && IsImportError(RStrip(inp.output[k]))
    ensures RegistrationSpec(ctx, serverId, inp) ==
      if inp.halt.Raised? then Raised(inp.halt.exc) else ImportFailure(ImportErrors(Stored(inp.output)))
  {
    ImportErrorsExactly(Stored(inp.output), RStrip(inp.output[k]));
  }

  /** On success the context holds the server, its API client and the registered node names; nothing else changes. */
  lemma RegisterOkContext(ctx: LevelContext, handle: ServerHandle, nodes: seq<string>, f: Field)
    ensures var c := WithUpdates(ctx, RegistrationUpdates(handle, nodes));
      && c.server == Some(handle) && c.api == Some(ApiHandle(handle)) && c.registeredNodes == nodes
      && (f !in {FServer, FApi, FRegisteredNodes} ==> SameField(ctx, c, f))
  {
    var us := RegistrationUpdates(handle, nodes);
    var c1 := ctx.(server := Some(handle));
    var c2 := c1.(api := Some(ApiHandle(handle)));
    var c3 := c2.(registeredNodes := nodes);
    assert us[1..][1..][1..] == [];
    assert WithUpdates(c3, []) == c3;
    assert WithUpdates(c2, us[1..][1..]) == c3;
    assert WithUpdates(c1, us[1..]) == c3;
  }

  // ----- the level, as it runs ---------------------------------------------

  /** The reader thread's work before the import check: every output line, stored and logged. */
  method ReadOutput(server: ComfyUIServer, output: seq<string>)
    requires server.Valid()
    modifies server
    ensures server.Valid()
    ensures server.outputLines == old(server.outputLines) + Stored(output)
    ensures server.process == old(server.process) && server.api == old(server.api) && server.stopped == old(server.stopped)
  {
    ghost var before := server.outputLines;
    var i := 0;
    while i < |output|
      invariant i <= |output|
      invariant server.Valid()
      invariant server.outputLines == before + Stored(output[..i])
      invariant server.process == old(server.process)
      invariant server.api == old(server.api)
      invariant server.stopped == old(server.stopped)
    {
      ghost var stored := Stored(output[..i]);
      assert Stored(output[..i + 1]) == stored + [RStrip(output[i])] by {
        assert output[..i + 1] == output[..i] + [output[i]];
      }
      server.ReceiveLine(output[i]);
      assert server.outputLines == before + stored + [RStrip(output[i])];
      i := i + 1;
    }
    assert output[..i] == output;
  }

  /** The managed-server path of `run`. */
  method RunManaged(ctx: LevelContext, serverId: nat, inp: ServerInputs) returns (r: Outcome<LevelContext>, server: ComfyUIServer)
    ensures r == Register(ctx, ManagedServer(serverId), ManagedStart(inp), ImportErrors(Stored(inp.output)), inp.halt, inp.objectInfo)
    ensures fresh(server) && server.Valid()
    ensures inp.launch.Raised? ==> server.process.None? && server.stopped == []
    ensures r.Ok? ==> inp.launch.Ok? && server.process == Some(inp.launch.value) && server.api.Some?
    ensures inp.launch.Ok? && ManagedStart(inp).Raised? ==> server.process == Some(inp.launch.value)
    ensures ManagedStart(inp).Ok? && ImportErrors(Stored(inp.output)) != [] ==>
      && inp.launch.Ok? && server.stopped == [inp.launch.value] && server.api.None?
      && (server.process.None? <==> inp.halt.Ok?)
  {
    server := new ComfyUIServer(DefaultPort, ctx.cudaPackages);
    var started := server.Start(inp.launch, inp.poll, inp.ticks, StartTimeout);
    if started.Raised? {
      return Raised(started.exc), server;
    }
    assert ManagedStart(inp).Ok?;
    ReadOutput(server, inp.output);
    assert [] + Stored(inp.output) == Stored(inp.output);
    var errors := server.GetImportErrors();
    assert errors == ImportErrors(Stored(inp.output));
    if errors != [] {
      var halted := server.Stop(inp.halt);
      if halted.Raised? {
        return Raised(halted.exc), server;
      }
      return ImportFailure(errors), server;
    }
    if inp.objectInfo.Raised? {
      return Raised(inp.objectInfo.exc), server;
    }
    var nodes := RegisteredNodes(inp.objectInfo.value);
    if nodes.Raised? {
      return Raised(nodes.exc), server;
    }
    r := Ok(WithUpdates(ctx, RegistrationUpdates(ManagedServer(serverId), nodes.value)));
  }

  /**
   * `run`. For a managed server, `server` is the server it created: stopped
   * when imports failed, and left running when the start itself failed.
   */
  method Run(ctx: LevelContext, serverId: nat, inp: ServerInputs) returns (r: Outcome<LevelContext>, server: ComfyUIServer?)
    ensures r == RegistrationSpec(ctx, serverId, inp)
    ensures UsesExternal(ctx) <==> server == null
    ensures server != null ==> fresh(server) && server.Valid()
    ensures server != null && inp.launch.Raised? ==> server.process.None? && server.stopped == []
    ensures server != null && inp.launch.Ok? && ManagedStart(inp).Raised? ==> server.process == Some(inp.launch.value)
    ensures server != null && ManagedStart(inp).Ok? && ImportErrors(Stored(inp.output)) != [] ==>
      && inp.launch.Ok? && server.stopped == [inp.launch.value] && server.api.None?
      && (server.process.None? <==> inp.halt.Ok?)
  {
    if UsesExternal(ctx) {
      r := Register(ctx, ExternalServer(ctx.serverUrl.value), inp.externalStart, inp.externalImportErrors, inp.externalHalt, inp.objectInfo);
      return r, null;
    }
    r, server := RunManaged(ctx, serverId, inp);
  }
}
