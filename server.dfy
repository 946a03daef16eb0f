/**
 * The managed ComfyUI server: a small state machine over the server process,
 * the API client that is set once the server answers, the output-reader
 * thread, the captured output lines and the extra log listeners. Launching
 * and stopping the process belong to the platform provider; the model records
 * which process each call was given. The readiness wait observes a sequence of
 * polls, one per loop iteration before the deadline.
 */
module Server {
  import opened Base
  import opened Strings

  /** A process handle returned by the platform provider. */
  datatype Process = Process(pid: nat)

  /** An API client for a base URL. */
  datatype Api = Api(baseUrl: string)

  /** Who receives a server log message: the main log callback or an extra listener. */
  datatype Listener = MainLog | Extra(id: nat)

  /** What one iteration of the readiness wait observes. */
  datatype ReadyPoll =
    | Exited(code: int)          // the process has ended
    | Healthy                    // the health check passed
    | NotHealthy                 // the health check answered false
    | HealthFailed(error: string) // the health check raised

  /** `base_url`: the loopback address on the server's port. */
  function UrlFor(port: int): (url: string)
    ensures StartsWith(url, "http://127.0.0.1:")
    ensures url[|"http://127.0.0.1:"|..] == IntToString(port)
  {
    "http://127.0.0.1:" + IntToString(port)
  }

  /** The extra environment for the server process: the mock list and strict imports, only when there are packages to mock. */
  function MockEnv(packages: seq<string>): (env: map<string, string>)
    ensures packages == [] ==> env == map[]
    ensures packages != [] ==> env.Keys == {"COMFY_TEST_MOCK_PACKAGES", "COMFY_TEST_STRICT_IMPORTS"}
    ensures packages != [] ==> env["COMFY_TEST_STRICT_IMPORTS"] == "1"
  {
    if packages == [] then map[]
    else map["COMFY_TEST_MOCK_PACKAGES" := Join(",", packages), "COMFY_TEST_STRICT_IMPORTS" := "1"]
  }

  /** The server process can read the mock list back: splitting the variable on ',' gives the packages. */
  lemma MockEnvRoundTrip(packages: seq<string>)
    requires packages != [] && forall p <- packages :: ',' !in p
    ensures Split(MockEnv(packages)["COMFY_TEST_MOCK_PACKAGES"], ',') == packages
  {
    SplitJoin(packages, ',');
  }

  /** An output line reports a failed custom-node import. */
  predicate IsImportError(line: string)
  {
    (Contains(line, "Cannot import") && Contains(line, "module for custom nodes")) || Contains(line, "IMPORT FAILED")
  }

  /** The import-failure lines, in output order. */
  function ImportErrors(lines: seq<string>): seq<string>
  {
    if lines == [] then []
    else ImportErrors(lines[..|lines| - 1]) + (if IsImportError(lines[|lines| - 1]) then [lines[|lines| - 1]] else [])
  }

  /** Exactly the import-failure lines are reported. */
  lemma {:induction false} ImportErrorsExactly(lines: seq<string>, line: string)
    ensures line in ImportErrors(lines) <==> line in lines && IsImportError(line)
    ensures |ImportErrors(lines)| <= |lines|
  {
    if lines != [] {
      ImportErrorsExactly(lines[..|lines| - 1], line);
      assert lines == lines[..|lines| - 1] + [lines[|lines| - 1]];
    }
  }

  /** The messages `_log_all` delivers: first the main log, then each listener in order. */
  function Broadcast(listeners: seq<nat>, msg: string): (d: seq<(Listener, string)>)
    ensures |d| == |listeners| + 1 && d[0] == (MainLog, msg)
    ensures forall k :: 0 <= k < |listeners| ==> d[k + 1] == (Extra(listeners[k]), msg)
  {
    if listeners == [] then [(MainLog, msg)]
    else Broadcast(listeners[..|listeners| - 1], msg) + [(Extra(listeners[|listeners| - 1]), msg)]
  }

  /** `list.remove(x)` guarded by `x in list`: the first occurrence goes, if there is one. */
  function RemoveFirst(xs: seq<nat>, x: nat): (r: seq<nat>)
    ensures x !in xs ==> r == xs
    ensures x in xs ==> multiset(r) == multiset(xs) - multiset{x} && |r| == |xs| - 1
  {
    if xs == [] then []
    else if xs[0] == x then
      assert xs == [xs[0]] + xs[1..];
      xs[1..]
    else
      assert xs == [xs[0]] + xs[1..];
      [xs[0]] + RemoveFirst(xs[1..], x)
  }

  /** Removing a listener that was just added restores the list. */
  lemma {:induction false} RemoveAfterAdd(xs: seq<nat>, x: nat)
    requires x !in xs
    ensures RemoveFirst(xs + [x], x) == xs
  {
    if xs != [] {
      assert (xs + [x])[1..] == xs[1..] + [x];
      RemoveAfterAdd(xs[1..], x);
    }
  }

  /** The outcome of the readiness wait from iteration `k` on, given `ticks` iterations before the deadline. */
  function ReadyFrom(poll: nat -> ReadyPoll, k: nat, ticks: nat, timeout: int): Outcome<()>
    decreases ticks - k
  {
    if k >= ticks then
      Fail(TimeoutErr, "Server did not become ready within " + IntToString(timeout) + " seconds", NoDetails)
    else
      match poll(k)
      case Exited(code) => Fail(ServerErr, "ComfyUI server exited unexpectedly", Text("Exit code: " + IntToString(code)))
      case Healthy => Ok(())
      case _ => ReadyFrom(poll, k + 1, ticks, timeout)
  }

  /** The wait succeeds iff some poll before the deadline passes the health check and no earlier poll saw the process exit. */
  lemma {:induction false} ReadyIffHealthy(poll: nat -> ReadyPoll, k: nat, ticks: nat, timeout: int)
    ensures ReadyFrom(poll, k, ticks, timeout).Ok? <==>
      exists i :: k <= i < ticks && poll(i).Healthy? && forall j :: k <= j < i ==> !poll(j).Exited? && !poll(j).Healthy?
    decreases ticks - k
  {
    if k < ticks && !poll(k).Exited? && !poll(k).Healthy? {
      ReadyIffHealthy(poll, k + 1, ticks, timeout);
      if ReadyFrom(poll, k, ticks, timeout).Ok? {
        var i :| k + 1 <= i < ticks && poll(i).Healthy? && forall j :: k + 1 <= j < i ==> !poll(j).Exited? && !poll(j).Healthy?;
        assert forall j :: k <= j < i ==> !poll(j).Exited? && !poll(j).Healthy?;
      }
      if exists i :: k <= i < ticks && poll(i).Healthy? && forall j :: k <= j < i ==> !poll(j).Exited? && !poll(j).Healthy? {
        var i :| k <= i < ticks && poll(i).Healthy? && forall j :: k <= j < i ==> !poll(j).Exited? && !poll(j).Healthy?;
        assert i != k;
      }
    }
  }

  /** With no iteration left before the deadline, the wait times out. */
  lemma ReadyTimesOut(poll: nat -> ReadyPoll, timeout: int)
    ensures ReadyFrom(poll, 0, 0, timeout).RaisedKind(TimeoutErr)
  {
  }

  class ComfyUIServer {
    const port: int
    const cudaMockPackages: seq<string>
    var process: Option<Process>
    var api: Option<Api>
    var outputThread: bool
    var stopOutputThread: bool
    var listeners: seq<nat>
    var outputLines: seq<string>
    /** Every message `_log_all` has delivered, with its receiver. */
    var delivered: seq<(Listener, string)>
    /** The extra environment the process was started with. */
    var startEnv: map<string, string>
    /** The processes handed to the provider's `stop_server`, in order. */
    var stopped: seq<Process>

    /** An API client and a reader thread exist only while a process does. */
    predicate Valid()
      reads this
    {
      (api.Some? ==> process.Some?) && (outputThread ==> process.Some?)
    }

    constructor(port: int, cudaMockPackages: seq<string>)
      ensures Valid()
      ensures this.port == port && this.cudaMockPackages == cudaMockPackages
      ensures process.None? && api.None? && !outputThread && !stopOutputThread
      ensures listeners == [] && outputLines == [] && delivered == [] && startEnv == map[] && stopped == []
    {
      this.port := port;
      this.cudaMockPackages := cudaMockPackages;
      process := None;
      api := None;
      outputThread := false;
      stopOutputThread := false;
      listeners := [];
      outputLines := [];
      delivered := [];
      startEnv := map[];
      stopped := [];
    }

    function BaseUrl(): string
      reads this
    {
      UrlFor(port)
    }

    method AddLogListener(l: nat)
      modifies this
      requires Valid()
      ensures Valid()
      ensures listeners == old(listeners) + [l]
      ensures process == old(process) && api == old(api) && outputLines == old(outputLines) && delivered == old(delivered)
      ensures outputThread == old(outputThread) && stopOutputThread == old(stopOutputThread)
      ensures startEnv == old(startEnv) && stopped == old(stopped)
    {
      listeners := listeners + [l];
    }

    method RemoveLogListener(l: nat)
      modifies this
      requires Valid()
      ensures Valid()
      ensures listeners == RemoveFirst(old(listeners), l)
      ensures process == old(process) && api == old(api) && outputLines == old(outputLines) && delivered == old(delivered)
      ensures outputThread == old(outputThread) && stopOutputThread == old(stopOutputThread)
      ensures startEnv == old(startEnv) && stopped == old(stopped)
    {
      if l in listeners {
        listeners := RemoveFirst(listeners, l);
      }
    }

    /** `_log_all`: the main log first, then every listener in order. */
    method LogAll(msg: string)
      modifies this
      requires Valid()
      ensures Valid()
      ensures delivered == old(delivered) + Broadcast(listeners, msg)
      ensures listeners == old(listeners) && process == old(process) && api == old(api) && outputLines == old(outputLines)
      ensures outputThread == old(outputThread) && stopOutputThread == old(stopOutputThread)
      ensures startEnv == old(startEnv) && stopped == old(stopped)
    {
      delivered := delivered + [(MainLog, msg)];
      var i := 0;
      while i < |listeners|
        invariant 0 <= i <= |listeners|
        invariant delivered == old(delivered) + Broadcast(listeners[..i], msg)
        invariant listeners == old(listeners) && process == old(process) && api == old(api) && outputLines == old(outputLines)
        invariant outputThread == old(outputThread) && stopOutputThread == old(stopOutputThread)
        invariant startEnv == old(startEnv) && stopped == old(stopped)
      {
        assert listeners[..i + 1][..i] == listeners[..i];
        delivered := delivered + [(Extra(listeners[i]), msg)];
        i := i + 1;
      }
      assert listeners[..i] == listeners;
    }

    /** What the output reader does with one line of server output: keep it without trailing whitespace, and log it. */
    method ReceiveLine(line: string)
      modifies this
      requires Valid()
      ensures Valid()
      ensures outputLines == old(outputLines) + [RStrip(line)]
      ensures delivered == old(delivered) + Broadcast(listeners, "  [ComfyUI] " + RStrip(line))
      ensures listeners == old(listeners) && process == old(process) && api == old(api)
      ensures outputThread == old(outputThread) && stopOutputThread == old(stopOutputThread)
      ensures startEnv == old(startEnv) && stopped == old(stopped)
    {
      var text := RStrip(line);
      outputLines := outputLines + [text];
      LogAll("  [ComfyUI] " + text);
    }

    /**
     * `start`: refuses a second start; otherwise asks the platform provider
     * to launch ComfyUI with the mock environment (`launch` is what its
     * `start_server` returns or raises), starts the reader and waits for
     * readiness. `ticks` is the number of wait iterations before the deadline
     * of `timeout` seconds.
     */
    method Start(launch: Outcome<Process>, poll: nat -> ReadyPoll, ticks: nat, timeout: int) returns (r: Outcome<()>)
      modifies this
      requires Valid()
      ensures Valid()
      ensures old(process).Some? ==> r == Fail(ServerErr, "Server already started", NoDetails)
      ensures old(process).Some? ==> process == old(process) && api == old(api) && startEnv == old(startEnv)
      ensures old(process).Some? ==> outputThread == old(outputThread) && stopOutputThread == old(stopOutputThread)
      ensures old(process).None? ==> startEnv == MockEnv(cudaMockPackages)
      ensures old(process).None? && launch.Raised? ==> r == Raised(launch.exc) && process.None? && api == old(api)
      ensures old(process).None? && launch.Raised? ==> outputThread == old(outputThread) && stopOutputThread == old(stopOutputThread)
      ensures old(process).None? && launch.Ok? ==> process == Some(launch.value) && outputThread
      ensures old(process).None? && launch.Ok? ==> r == ReadyFrom(poll, 0, ticks, timeout)
      ensures old(process).None? && launch.Ok? && r.Ok? ==> api == Some(Api(BaseUrl()))
      ensures old(process).None? && r.Raised? ==> api == old(api)
      ensures old(process).None? && launch.Ok? && r.RaisedKind(ServerErr) ==> stopOutputThread
      ensures listeners == old(listeners) && outputLines == old(outputLines) && delivered == old(delivered)
      ensures stopped == old(stopped)
    {
      if process.Some? {
        return Fail(ServerErr, "Server already started", NoDetails);
      }
      startEnv := MockEnv(cudaMockPackages);
      if launch.Raised? {
        return Raised(launch.exc);
      }
      process := Some(launch.value);
      stopOutputThread := false;
      outputThread := true;
      r := WaitForReady(poll, ticks, timeout);
    }

    /** `_wait_for_ready`: the API client is kept only once a health check passes. */
    method WaitForReady(poll: nat -> ReadyPoll, ticks: nat, timeout: int) returns (r: Outcome<()>)
      modifies this
      requires Valid() && process.Some?
      ensures Valid()
      ensures r == ReadyFrom(poll, 0, ticks, timeout)
      ensures r.Ok? ==> api == Some(Api(BaseUrl()))
      ensures r.Raised? ==> api == old(api)
      ensures r.RaisedKind(ServerErr) && outputThread ==> stopOutputThread
      ensures r.Raised? && !(r.RaisedKind(ServerErr) && outputThread) ==> stopOutputThread == old(stopOutputThread)
      ensures process == old(process) && outputThread == old(outputThread) && startEnv == old(startEnv)
      ensures listeners == old(listeners) && outputLines == old(outputLines) && delivered == old(delivered)
      ensures stopped == old(stopped)
    {
      var k := 0;
      while k < ticks
        invariant k <= ticks
        invariant ReadyFrom(poll, k, ticks, timeout) == ReadyFrom(poll, 0, ticks, timeout)
        invariant api == old(api) && stopOutputThread == old(stopOutputThread)
        invariant process == old(process) && outputThread == old(outputThread) && startEnv == old(startEnv)
        invariant listeners == old(listeners) && outputLines == old(outputLines) && delivered == old(delivered)
        invariant stopped == old(stopped)
        decreases ticks - k
      {
        match poll(k)
        case Exited(code) =>
          if outputThread {
            stopOutputThread := true;
          }
          return Fail(ServerErr, "ComfyUI server exited unexpectedly", Text("Exit code: " + IntToString(code)));
        case Healthy =>
          api := Some(Api(BaseUrl()));
          return Ok(());
        case _ =>
          k := k + 1;
      }
      return Fail(TimeoutErr, "Server did not become ready within " + IntToString(timeout) + " seconds", NoDetails);
    }

    /**
     * `stop`: nothing to do unless started; otherwise the reader thread and
     * the API client are dropped and the process is handed to the platform
     * provider (`halt` is what its `stop_server` returns or raises). The
     * process is forgotten only when the provider returns, so a stop that
     * raises leaves it in place for another attempt.
     */
    method Stop(halt: Outcome<()>) returns (r: Outcome<()>)
      modifies this
      requires Valid()
      ensures Valid()
      ensures old(process).None? ==> r == Ok(())
      ensures old(process).None? ==> process == old(process) && api == old(api) && outputThread == old(outputThread)
      ensures old(process).None? ==> stopped == old(stopped) && stopOutputThread == old(stopOutputThread)
      ensures old(process).Some? ==> r == halt && api.None? && !outputThread
      ensures old(process).Some? ==> (process.None? <==> halt.Ok?) && (halt.Raised? ==> process == old(process))
      ensures old(process).Some? ==> stopped == old(stopped) + [old(process).value]
      ensures old(process).Some? && old(outputThread) ==> stopOutputThread
      ensures old(process).Some? && !old(outputThread) ==> stopOutputThread == old(stopOutputThread)
      ensures listeners == old(listeners) && outputLines == old(outputLines) && delivered == old(delivered)
      ensures startEnv == old(startEnv)
    {
      if process.None? {
        return Ok(());
      }
      if outputThread {
        stopOutputThread := true;
        outputThread := false;
      }
      api := None;
      stopped := stopped + [process.value];
      if halt.Ok? {
        process := None;
      }
      r := halt;
    }

    /** `get_api`: the client, or ServerError when the server is not running. */
    function GetApi(): (r: Outcome<Api>)
      reads this
      ensures r.Raised? <==> api.None?
      ensures r.Ok? ==> Some(r.value) == api
      ensures r.Raised? ==> r == Fail(ServerErr, "Server is not running", NoDetails)
    {
      if api.None? then Fail(ServerErr, "Server is not running", NoDetails) else Ok(api.value)
    }

    /** `get_import_errors`: a scan of the captured output. */
    method GetImportErrors() returns (errors: seq<string>)
      ensures errors == ImportErrors(outputLines)
    {
      errors := [];
      var i := 0;
      while i < |outputLines|
        invariant 0 <= i <= |outputLines|
        invariant errors == ImportErrors(outputLines[..i])
      {
        assert outputLines[..i + 1][..i] == outputLines[..i];
        var line := outputLines[i];
        if Contains(line, "Cannot import") && Contains(line, "module for custom nodes") {
          errors := errors + [line];
        } else if Contains(line, "IMPORT FAILED") {
          errors := errors + [line];
        }
        i := i + 1;
      }
      assert outputLines[..i] == outputLines;
    }
  }

  /** Stopping twice stops the process once: the second call finds no process. */
  method StopTwice(s: ComfyUIServer)
    requires s.Valid()
    modifies s
    ensures |s.stopped| == |old(s.stopped)| + (if old(s.process).Some? then 1 else 0)
    ensures s.process.None? && s.api.None?
  {
    var first := s.Stop(Ok(()));
    var second := s.Stop(Ok(()));
  }

  /** A stop the provider refuses leaves the process, so the next stop hands the same process over again. */
  method StopRetried(s: ComfyUIServer, refusal: Exc) returns (first: Outcome<()>, second: Outcome<()>)
    requires s.Valid()
    modifies s
    ensures old(s.process).Some? ==> first == Raised(refusal) && second == Ok(())
    ensures old(s.process).Some? ==> s.stopped == old(s.stopped) + [old(s.process).value, old(s.process).value]
    ensures s.process.None? && s.api.None? && !s.outputThread
  {
    first := s.Stop(Raised(refusal));
    second := s.Stop(Ok(()));
  }
}
