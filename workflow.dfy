/**
 * Running one workflow against a live server: loading the file, picking the
 * prompt out of it, queueing it, and polling the history until the prompt
 * succeeds, fails, reports a failed node, or runs past its timeout. The API
 * calls are inputs: the queue call is a function of the prompt, and the wait
 * sees one `Poll` per iteration (the seconds elapsed and the history entry).
 */
module Workflow {
  import opened Base
  import opened Strings
  import opened Json
  import opened Paths

  /** A WorkflowError: its details carry the workflow file and the node error. */
  function WorkflowFailure<T>(message: string, workflowFile: string, nodeError: string): Outcome<T>
  {
    Fail(WorkflowErr, message, Lines([workflowFile, nodeError]))
  }

  /**
   * The prompt in a loaded workflow document: the value of its "prompt" key
   * if it has one, otherwise the document converted from the frontend format
   * if it is not already in API format, otherwise the document itself.
   */
  function SelectPrompt(data: Json, isApiFormat: Json -> bool, objectInfo: Outcome<Json>,
                        convert: (Json, Json) -> Outcome<Json>): (r: Outcome<Json>)
    ensures data.JObject? && DictLookup(data.fields, "prompt").Some? ==> r == Ok(DictLookup(data.fields, "prompt").value)
    ensures data.JObject? && DictLookup(data.fields, "prompt").None? && isApiFormat(data) ==> r == Ok(data)
    ensures data.JObject? && DictLookup(data.fields, "prompt").None? && !isApiFormat(data) && objectInfo.Ok? ==>
      r == convert(data, objectInfo.value)
    ensures data.JObject? && DictLookup(data.fields, "prompt").None? && !isApiFormat(data) && objectInfo.Raised? ==>
      r == Raised(objectInfo.exc)
  {
    var hasPrompt :- Has(data, "prompt");
    if hasPrompt then At(data, "prompt")
    else if !isApiFormat(data) then
      var info :- objectInfo;
      convert(data, info)
    else Ok(data)
  }

  /** `_format_error_messages`: "Unknown error" for no messages, else each message's text joined with "; ". */
  function FormatErrorMessages(messages: Json): (r: Outcome<string>)
    ensures !Truthy(messages) ==> r == Ok("Unknown error")
    ensures r.Raised? ==> r.exc.Untyped?
  {
    if !Truthy(messages) then Ok("Unknown error")
    else
      var items :- Iter(messages);
      StrJoin("; ", MessageTexts(items))
  }

  /** What is appended for one message: a dict's "message" (its `str` when absent), anything else's `str`. */
  function MessageText(m: Json): Json
  {
    if m.JObject? && DictLookup(m.fields, "message").Some? then DictLookup(m.fields, "message").value
    else JString(Str(m))
  }

  function MessageTexts(ms: seq<Json>): (r: seq<Json>)
    ensures |r| == |ms| && forall k :: 0 <= k < |ms| ==> r[k] == MessageText(ms[k])
  {
    if ms == [] then [] else [MessageText(ms[0])] + MessageTexts(ms[1..])
  }

  /** A list of plain string messages is joined as it is. */
  lemma FormatStringMessages(ss: seq<string>)
    requires ss != []
    ensures FormatErrorMessages(JList(Texts(ss))) == Ok(Join("; ", ss))
  {
    var ms := Texts(ss);
    assert MessageTexts(ms) == ms;
    StrJoinTexts("; ", ss);
  }

  /** Formatting fails only when a dict message carries a "message" that is not a string. */
  lemma {:induction false} FormatFailsOnlyOnNonTextMessage(messages: Json)
    requires Truthy(messages) && messages.JList?
    ensures FormatErrorMessages(messages).Raised? <==>
      exists k :: 0 <= k < |messages.items| && messages.items[k].JObject? &&
        DictLookup(messages.items[k].fields, "message").Some? && !DictLookup(messages.items[k].fields, "message").value.JString?
  {
    var ts := MessageTexts(messages.items);
    StrJoinOk("; ", ts);
    if FormatErrorMessages(messages).Raised? {
      var k :| 0 <= k < |ts| && !ts[k].JString?;
      assert ts[k] == MessageText(messages.items[k]);
    }
  }

  /** A component's output records a node error: a dict whose "error" is truthy. */
  predicate HasNodeError(output: Json)
  {
    output.JObject? && DictLookup(output.fields, "error").Some? && Truthy(DictLookup(output.fields, "error").value)
  }

  /** The position of the first output that records a node error, or the number of outputs. */
  function FirstNodeError(outputs: Items): (i: nat)
    ensures i <= |outputs|
    ensures i < |outputs| ==> HasNodeError(outputs[i].1)
    ensures forall j :: 0 <= j < i ==> !HasNodeError(outputs[j].1)
  {
    if outputs == [] then 0
    else if HasNodeError(outputs[0].1) then 0
    else 1 + FirstNodeError(outputs[1..])
  }

  /** `history["outputs"].items()` scanned for a failed node: the first one raises. */
  function CheckOutputs(outputs: Json, workflowName: string): (r: Outcome<Option<Json>>)
    ensures r.Ok? ==> r.value.None?
    ensures r.Raised? ==> r.exc.Untyped? || r.exc.kind == WorkflowErr
    ensures r.Ok? <==> outputs.JObject? && forall k :: 0 <= k < |ItemsOf(outputs.fields)| ==> !HasNodeError(ItemsOf(outputs.fields)[k].1)
  {
    if !outputs.JObject? then AttributeError(outputs, "items")
    else
      var items := ItemsOf(outputs.fields);
      var i := FirstNodeError(items);
      if i == |items| then Ok(None)
      else WorkflowFailure("Node " + items[i].0 + " failed", workflowName, Str(DictLookup(items[i].1.fields, "error").value))
  }

  /** The first output whose `error` is truthy fails the workflow, naming that node and carrying its error. */
  lemma CheckOutputsFirstFailure(outputs: Json, workflowName: string)
    ensures outputs.JObject? ==>
      var items := ItemsOf(outputs.fields);
      var i := FirstNodeError(items);
      i < |items| ==>
        CheckOutputs(outputs, workflowName)
        == WorkflowFailure("Node " + items[i].0 + " failed", workflowName, Str(DictLookup(items[i].1.fields, "error").value))
  {
  }

  /** The value `_wait_for_completion` returns on success. */
  function SuccessResult(promptId: string, outputs: Json): (v: Json)
    ensures v.JObject? && DictLookup(v.fields, "status") == Some(JString("success"))
    ensures DictLookup(v.fields, "prompt_id") == Some(JString(promptId))
    ensures DictLookup(v.fields, "outputs") == Some(outputs)
  {
    var fields := [("status", JString("success")), ("prompt_id", JString(promptId)), ("outputs", outputs)];
    DictLookupIsLastValue(fields, "status");
    DictLookupIsLastValue(fields, "prompt_id");
    DictLookupIsLastValue(fields, "outputs");
    assert fields[..2] == [fields[0], fields[1]] && fields[..2][..1] == [fields[0]];
    assert LastValue(fields, "status") == LastValue(fields[..2], "status") == LastValue(fields[..2][..1], "status");
    assert LastValue(fields, "prompt_id") == LastValue(fields[..2], "prompt_id");
    JObject([("status", JString("success")), ("prompt_id", JString(promptId)), ("outputs", outputs)])
  }

  /**
   * One history entry, judged: `Ok(Some(result))` when the prompt succeeded,
   * `Ok(None)` when it is still running, an exception when it failed.
   */
  function Inspect(history: Json, promptId: string, workflowName: string): (r: Outcome<Option<Json>>)
    ensures r.Raised? ==> r.exc.Untyped? || r.exc.kind == WorkflowErr
    ensures r.Ok? && r.value.Some? ==>
      (r.value.value.JObject? &&
       DictLookup(r.value.value.fields, "status") == Some(JString("success")) &&
       DictLookup(r.value.value.fields, "prompt_id") == Some(JString(promptId)))
  {
    var status :- Get(history, "status", JObject([]));
    var statusStr :- Get(status, "status_str", JString(""));
    if statusStr == JString("success") then
      Ok(Some(SuccessResult(promptId, Get(history, "outputs", JObject([])).value)))
    else if statusStr == JString("error") then
      var msg :- FormatErrorMessages(Get(status, "messages", JList([])).value);
      WorkflowFailure("Workflow execution failed: " + msg, workflowName, msg)
    else if DictLookup(history.fields, "outputs").None? then Ok(None)
    else CheckOutputs(DictLookup(history.fields, "outputs").value, workflowName)
  }

  /**
   * How `_wait_for_completion` judges one history entry: "success" returns
   * the result dict with the entry's outputs, "error" raises a WorkflowError
   * carrying the formatted messages, and any other status keeps polling
   * until outputs appear, which are then checked for a failed node; an
   * entry with neither status nor outputs keeps polling.
   */
  lemma InspectCases(history: Json, promptId: string, workflowName: string)
    ensures history.JObject? && Get(history, "status", JObject([])).value.JObject? ==>
      var r := Inspect(history, promptId, workflowName);
      var status := Get(history, "status", JObject([])).value;
      var statusStr := Get(status, "status_str", JString("")).value;
      var messages := FormatErrorMessages(Get(status, "messages", JList([])).value);
      var outputs := DictLookup(history.fields, "outputs");
      && (statusStr == JString("success") ==> r == Ok(Some(SuccessResult(promptId, Get(history, "outputs", JObject([])).value))))
      && (statusStr == JString("error") && messages.Ok? ==>
            r == WorkflowFailure("Workflow execution failed: " + messages.value, workflowName, messages.value))
      && (statusStr != JString("success") && statusStr != JString("error") && outputs.None? ==> r == Ok(None))
      && (statusStr != JString("success") && statusStr != JString("error") && outputs.Some? ==>
            r == CheckOutputs(outputs.value, workflowName))
    ensures history.JObject? && DictLookup(history.fields, "status").None? && DictLookup(history.fields, "outputs").None? ==>
      Inspect(history, promptId, workflowName) == Ok(None)
  {
  }

  /** What one iteration of the wait observes. */
  datatype Poll = Poll(elapsed: real, history: Option<Json>)

  /** Where the wait stands: it ended (and whether it interrupted the server), or it is still polling. */
  datatype Wait = Completed(outcome: Outcome<Json>, interrupted: bool) | Pending

  function TimeoutFailure(timeout: int): Outcome<Json>
  {
    Fail(TimeoutErr, "Workflow did not complete within " + IntToString(timeout) + " seconds", NoDetails)
  }

  /** How the wait judges one history entry: keep polling (`Ok(None)`), return a result, or raise. */
  type Judge = Json -> Outcome<Option<Json>>

  /** The judge `_wait_for_completion` uses for a prompt. */
  function InspectOf(promptId: string, workflowName: string): Judge
  {
    history => Inspect(history, promptId, workflowName)
  }

  /** One iteration that neither times out nor settles the prompt, so the wait polls again. */
  predicate Continues(judge: Judge, poll: Poll, timeout: Option<int>)
  {
    && !(timeout.Some? && poll.elapsed >= timeout.value as real)
    && (poll.history.None? || judge(poll.history.value) == Ok(None))
  }

  /** What the wait does with a judged history that settles the prompt: return the result or raise the exception. */
  function Settled(i: Outcome<Option<Json>>): (r: Outcome<Json>)
    requires i != Ok(None)
    ensures i.Raised? ==> r == Raised(i.exc)
    ensures i.Ok? ==> r == Ok(i.value.value)
  {
    if i.Raised? then Raised(i.exc) else Ok(i.value.value)
  }

  /** The wait from iteration `k` on, when `n` iterations are observed, with a given judge. */
  function WaitWith(judge: Judge, polls: nat -> Poll, k: nat, n: nat, timeout: Option<int>): Wait
    decreases n - k
  {
    if k >= n then Pending
    else if Continues(judge, polls(k), timeout) then WaitWith(judge, polls, k + 1, n, timeout)
    else if timeout.Some? && polls(k).elapsed >= timeout.value as real then Completed(TimeoutFailure(timeout.value), true)
    else Completed(Settled(judge(polls(k).history.value)), false)
  }

  /** The wait for a prompt from iteration `k` on. */
  function WaitFrom(polls: nat -> Poll, k: nat, n: nat, timeout: Option<int>, promptId: string, workflowName: string): Wait
  {
    WaitWith(InspectOf(promptId, workflowName), polls, k, n, timeout)
  }

  /** The server is interrupted exactly when the wait ends in a timeout. */
  lemma {:induction false} InterruptedIffTimedOut(polls: nat -> Poll, k: nat, n: nat, timeout: Option<int>, promptId: string, workflowName: string)
    ensures var w := WaitFrom(polls, k, n, timeout, promptId, workflowName);
      w.Completed? ==> (w.interrupted <==> w.outcome.RaisedKind(TimeoutErr))
    decreases n - k
  {
    if k < n && !(timeout.Some? && polls(k).elapsed >= timeout.value as real) {
      InterruptedIffTimedOut(polls, k + 1, n, timeout, promptId, workflowName);
    }
  }

  /** Without a timeout the wait never interrupts the server. */
  lemma {:induction false} NoTimeoutNoInterrupt(judge: Judge, polls: nat -> Poll, k: nat, n: nat)
    ensures var w := WaitWith(judge, polls, k, n, None);
      w.Completed? ==> !w.interrupted
    decreases n - k
  {
    if k < n {
      NoTimeoutNoInterrupt(judge, polls, k + 1, n);
    }
  }

  /** With a timeout, the wait has ended by the first observed iteration whose elapsed time reaches it. */
  lemma {:induction false} DeadlineEndsWait(judge: Judge, polls: nat -> Poll, k: nat, d: nat, n: nat, timeout: int)
    requires k <= d < n && polls(d).elapsed >= timeout as real
    ensures WaitWith(judge, polls, k, n, Some(timeout)).Completed?
    decreases d - k
  {
    if k < d {
      DeadlineEndsWait(judge, polls, k + 1, d, n, timeout);
    }
  }

  /** A wait that returns yields the finished history's dict, whose status is "success". */
  lemma {:induction false} WaitResultIsDict(polls: nat -> Poll, k: nat, n: nat, timeout: Option<int>, promptId: string, workflowName: string)
    ensures var w := WaitFrom(polls, k, n, timeout, promptId, workflowName);
      w.Completed? && w.outcome.Ok? ==>
        w.outcome.value.JObject? && DictLookup(w.outcome.value.fields, "status") == Some(JString("success")) &&
        DictLookup(w.outcome.value.fields, "prompt_id") == Some(JString(promptId))
    decreases n - k
  {
    if k < n && !(timeout.Some? && polls(k).elapsed >= timeout.value as real) {
      WaitResultIsDict(polls, k + 1, n, timeout, promptId, workflowName);
    }
  }

  /**
   * The first iteration, before the deadline, whose history settles the
   * prompt decides the wait: its result is returned, or its exception
   * raised, without interrupting the server.
   */
  lemma WaitDecidedAt(judge: Judge, polls: nat -> Poll, k: nat, d: nat, n: nat, timeout: Option<int>)
    requires k <= d < n
    requires forall j :: k <= j < d ==> Continues(judge, polls(j), timeout)
    requires !(timeout.Some? && polls(d).elapsed >= timeout.value as real)
    requires polls(d).history.Some? && judge(polls(d).history.value) != Ok(None)
    ensures WaitWith(judge, polls, k, n, timeout) == Completed(Settled(judge(polls(d).history.value)), false)
  {
    WaitSkips(judge, polls, k, d, n, timeout);
    WaitSettles(judge, polls, d, n, timeout);
  }

  /** Iterations that all let the wait continue hand it on to the first one after them. */
  lemma {:induction false} WaitSkips(judge: Judge, polls: nat -> Poll, k: nat, d: nat, n: nat, timeout: Option<int>)
    requires k <= d < n
    requires forall j :: k <= j < d ==> Continues(judge, polls(j), timeout)
    ensures WaitWith(judge, polls, k, n, timeout) == WaitWith(judge, polls, d, n, timeout)
    decreases d - k
  {
    if k < d {
      WaitSkips(judge, polls, k + 1, d, n, timeout);
    }
  }

  /** An iteration that lets the wait continue hands it on to the next one. */
  lemma WaitContinues(judge: Judge, polls: nat -> Poll, k: nat, n: nat, timeout: Option<int>)
    requires k < n && Continues(judge, polls(k), timeout)
    ensures WaitWith(judge, polls, k, n, timeout) == WaitWith(judge, polls, k + 1, n, timeout)
  {
  }

  /** An iteration before the deadline whose history settles the prompt ends the wait. */
  lemma WaitSettles(judge: Judge, polls: nat -> Poll, k: nat, n: nat, timeout: Option<int>)
    requires k < n && !(timeout.Some? && polls(k).elapsed >= timeout.value as real)
    requires polls(k).history.Some? && judge(polls(k).history.value) != Ok(None)
    ensures WaitWith(judge, polls, k, n, timeout) == Completed(Settled(judge(polls(k).history.value)), false)
  {
  }

  /** The wait is still polling after the observed iterations exactly when every one of them lets it continue. */
  lemma {:induction false} WaitPendingIff(judge: Judge, polls: nat -> Poll, k: nat, n: nat, timeout: Option<int>)
    ensures WaitWith(judge, polls, k, n, timeout) == Pending <==>
      forall j :: k <= j < n ==> Continues(judge, polls(j), timeout)
    decreases n - k
  {
    if k < n {
      WaitPendingIff(judge, polls, k + 1, n, timeout);
      if Continues(judge, polls(k), timeout) {
        assert (forall j :: k <= j < n ==> Continues(judge, polls(j), timeout))
          <==> (forall j :: k + 1 <= j < n ==> Continues(judge, polls(j), timeout));
      }
    }
  }

  /** `_wait_for_completion`, observing at most `n` iterations. */
  method WaitForCompletion(polls: nat -> Poll, n: nat, timeout: Option<int>, promptId: string, workflowName: string)
    returns (w: Wait)
    ensures w == WaitFrom(polls, 0, n, timeout, promptId, workflowName)
  {
    var k := 0;
    while k < n
      invariant k <= n
      invariant WaitFrom(polls, k, n, timeout, promptId, workflowName) == WaitFrom(polls, 0, n, timeout, promptId, workflowName)
      decreases n - k
    {
      var poll := polls(k);
      if timeout.Some? && poll.elapsed >= timeout.value as real {
        return Completed(TimeoutFailure(timeout.value), true);
      }
      if poll.history.Some? {
        var judged := Inspect(poll.history.value, promptId, workflowName);
        if judged.Raised? {
          return Completed(Raised(judged.exc), false);
        }
        if judged.value.Some? {
          return Completed(Ok(judged.value.value), false);
        }
      }
      k := k + 1;
    }
    return Pending;
  }

  /**
   * `run_workflow`: a missing file raises FileNotFoundError, a malformed one
   * the JSON decoder's error; otherwise the prompt is selected, queued, and
   * waited for.
   */
  function RunWorkflowFrom(path: Path, file: JsonFile, isApiFormat: Json -> bool, objectInfo: Outcome<Json>,
                           convert: (Json, Json) -> Outcome<Json>, queuePrompt: Json -> Outcome<string>,
                           polls: nat -> Poll, n: nat, timeout: Option<int>): (w: Wait)
    ensures file.Absent? ==> w == Completed(PyFail("FileNotFoundError", "Workflow file not found: " + path), false)
    ensures w.Completed? && w.interrupted ==> file.Document?
  {
    match file
    case Absent => Completed(PyFail("FileNotFoundError", "Workflow file not found: " + path), false)
    case Malformed(error) => Completed(PyFail("JSONDecodeError", error), false)
    case Document(data) =>
      match SelectPrompt(data, isApiFormat, objectInfo, convert)
      case Raised(e) => Completed(Raised(e), false)
      case Ok(prompt) =>
        match queuePrompt(prompt)
        case Raised(e) => Completed(Raised(e), false)
        case Ok(promptId) => WaitFrom(polls, 0, n, timeout, promptId, path)
  }

  method RunWorkflow(path: Path, file: JsonFile, isApiFormat: Json -> bool, objectInfo: Outcome<Json>,
                     convert: (Json, Json) -> Outcome<Json>, queuePrompt: Json -> Outcome<string>,
                     polls: nat -> Poll, n: nat, timeout: Option<int>) returns (w: Wait)
    ensures w == RunWorkflowFrom(path, file, isApiFormat, objectInfo, convert, queuePrompt, polls, n, timeout)
  {
    match file
    case Absent =>
      return Completed(PyFail("FileNotFoundError", "Workflow file not found: " + path), false);
    case Malformed(error) =>
      return Completed(PyFail("JSONDecodeError", error), false);
    case Document(data) =>
      var prompt := SelectPrompt(data, isApiFormat, objectInfo, convert);
      if prompt.Raised? {
        return Completed(Raised(prompt.exc), false);
      }
      var promptId := queuePrompt(prompt.value);
      if promptId.Raised? {
        return Completed(Raised(promptId.exc), false);
      }
      w := WaitForCompletion(polls, n, timeout, promptId.value, path);
  }

  /** A workflow run that returns gives back a dict whose "status" is "success". */
  lemma RunResultIsDict(path: Path, file: JsonFile, isApiFormat: Json -> bool, objectInfo: Outcome<Json>,
                        convert: (Json, Json) -> Outcome<Json>, queuePrompt: Json -> Outcome<string>,
                        polls: nat -> Poll, n: nat, timeout: Option<int>)
    ensures var w := RunWorkflowFrom(path, file, isApiFormat, objectInfo, convert, queuePrompt, polls, n, timeout);
      w.Completed? && w.outcome.Ok? ==>
        w.outcome.value.JObject? && DictLookup(w.outcome.value.fields, "status") == Some(JString("success"))
  {
    if file.Document? {
      var prompt := SelectPrompt(file.data, isApiFormat, objectInfo, convert);
      if prompt.Ok? && queuePrompt(prompt.value).Ok? {
        WaitResultIsDict(polls, 0, n, timeout, queuePrompt(prompt.value).value, path);
      }
    }
  }
}
