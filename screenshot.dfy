/**
 * The bookkeeping around browser screenshots of workflows: removing
 * consecutive duplicate frames, retrying a flaky screenshot, the browser
 * start/stop guards, recording execution frames under numbered names, the
 * API-format test for embedded metadata, and the multi-workflow capture
 * loop.
 *
 * The browser itself (Playwright), the images (PIL) and MD5 are not
 * modelled: a frame's hash, a screenshot attempt's outcome and a capture's
 * outcome are inputs.
 */
module Screenshot {
  import opened Base
  import opened Strings
  import opened Paths
  import opened Json

  // ----- _dedupe_frames --------------------------------------------------------------

  /** The frames kept: each frame whose hash differs from that of the frame just before it. */
  function Dedupe<F>(frames: seq<F>, hash: F -> string): seq<F>
  {
    if frames == [] then []
    else
      var n := |frames|;
      var init := Dedupe(frames[..n - 1], hash);
      if n > 1 && hash(frames[n - 2]) == hash(frames[n - 1]) then init else init + [frames[n - 1]]
  }

  /** No two neighbours share a hash. */
  predicate NoRuns<F>(xs: seq<F>, hash: F -> string)
  {
    forall i :: 0 <= i < |xs| - 1 ==> hash(xs[i]) != hash(xs[i + 1])
  }

  /** The loop of `_dedupe_frames`, which remembers the hash of the last frame kept. */
  method DedupeFrames<F>(frames: seq<F>, hash: F -> string) returns (unique: seq<F>)
    ensures unique == Dedupe(frames, hash)
  {
    if |frames| == 0 {
      return [];
    }
    unique := [];
    var lastHash: Option<string> := None;
    for i := 0 to |frames|
      invariant unique == Dedupe(frames[..i], hash)
      invariant lastHash == if i == 0 then None else Some(hash(frames[i - 1]))
    {
      assert frames[..i + 1][..i] == frames[..i];
      var h := hash(frames[i]);
      if lastHash != Some(h) {
        unique := unique + [frames[i]];
        lastHash := Some(h);
      }
    }
    assert frames[..|frames|] == frames;
  }

  /**
   * Empty stays empty. Otherwise the first frame is kept, the last frame
   * kept has the hash of the last frame, and only input frames are kept.
   */
  lemma {:induction false} DedupeEnds<F>(frames: seq<F>, hash: F -> string)
    ensures var r := Dedupe(frames, hash);
      && (frames == [] <==> r == [])
      && (frames != [] ==> r[0] == frames[0] && hash(r[|r| - 1]) == hash(frames[|frames| - 1]))
      && |r| <= |frames|
      && (forall f <- r :: f in frames)
  {
    if frames != [] {
      var n := |frames|;
      var init := frames[..n - 1];
      DedupeEnds(init, hash);
      assert forall f :: f in init ==> f in frames;
      if n > 1 {
        assert init[0] == frames[0] && init[n - 2] == frames[n - 2];
      }
    }
  }

  /** No two neighbours kept share a hash. */
  lemma {:induction false} DedupeHasNoRuns<F>(frames: seq<F>, hash: F -> string)
    ensures NoRuns(Dedupe(frames, hash), hash)
  {
    if frames != [] {
      var n := |frames|;
      var init := frames[..n - 1];
      DedupeHasNoRuns(init, hash);
      var ri := Dedupe(init, hash);
      var r := Dedupe(frames, hash);
      if r != ri {
        assert r == ri + [frames[n - 1]];
        if ri != [] {
          DedupeEnds(init, hash);
          assert init[n - 2] == frames[n - 2];
          assert hash(ri[|ri| - 1]) != hash(frames[n - 1]);
        }
        forall i | 0 <= i < |r| - 1 ensures hash(r[i]) != hash(r[i + 1]) {
          if i + 1 < |ri| {
            assert r[i] == ri[i] && r[i + 1] == ri[i + 1];
          }
        }
      }
    }
  }

  /** Every hash of the input survives. */
  lemma {:induction false} DedupeKeepsHashes<F>(frames: seq<F>, hash: F -> string)
    ensures forall f <- frames :: exists g <- Dedupe(frames, hash) :: hash(g) == hash(f)
  {
    if frames != [] {
      var n := |frames|;
      var init := frames[..n - 1];
      DedupeKeepsHashes(init, hash);
      var ri := Dedupe(init, hash);
      var r := Dedupe(frames, hash);
      forall f <- frames
        ensures exists g <- r :: hash(g) == hash(f)
      {
        if f in init {
          var g :| g in ri && hash(g) == hash(f);
          assert g in r;
        } else if r == ri {
          assert f == frames[n - 1];
          assert init[n - 2] == frames[n - 2] && frames[n - 2] in init;
          var g :| g in ri && hash(g) == hash(frames[n - 2]);
          assert g in r;
        } else {
          assert frames[n - 1] in r;
        }
      }
    }
  }

  /** A sequence without runs is left as it is. */
  lemma {:induction false} DedupeNoRuns<F>(xs: seq<F>, hash: F -> string)
    requires NoRuns(xs, hash)
    ensures Dedupe(xs, hash) == xs
  {
    if xs != [] {
      var init := xs[..|xs| - 1];
      assert NoRuns(init, hash) by {
        forall i | 0 <= i < |init| - 1 ensures hash(init[i]) != hash(init[i + 1]) {
          assert init[i] == xs[i] && init[i + 1] == xs[i + 1];
        }
      }
      DedupeNoRuns(init, hash);
      if |xs| > 1 {
        assert hash(xs[|xs| - 2]) != hash(xs[|xs| - 1]);
      }
    }
  }

  /** Deduplicating twice gives the same frames as deduplicating once. */
  lemma DedupeIdempotent<F>(frames: seq<F>, hash: F -> string)
    ensures Dedupe(Dedupe(frames, hash), hash) == Dedupe(frames, hash)
  {
    DedupeHasNoRuns(frames, hash);
    DedupeNoRuns(Dedupe(frames, hash), hash);
  }

  // ----- _screenshot_with_retry ------------------------------------------------------

  /** What the retry loop does: a screenshot attempt, or the one-second wait before the next. */
  datatype Step = Attempt(n: nat) | Wait

  /** `str(last_error)`: the error's text, "None" before any attempt. */
  function ErrorText(lastError: Option<string>): string
  {
    if lastError.None? then "None" else lastError.value
  }

  function RetryFailure(retries: int, lastError: Option<string>): Outcome<()>
  {
    Fail(ScreenshotErr, "Screenshot failed after " + IntToString(retries) + " attempts", Text(ErrorText(lastError)))
  }

  /**
   * The loop from attempt `k` on: the outcome and the steps taken.
   * `shoot(k)` is None when attempt `k` succeeds and the error text when it fails.
   */
  function Retry(k: nat, retries: int, shoot: nat -> Option<string>, lastError: Option<string>): (Outcome<()>, seq<Step>)
    decreases retries - k
  {
    if k >= retries then (RetryFailure(retries, lastError), [])
    else match shoot(k)
      case None => (Ok(()), [Attempt(k)])
      case Some(e) =>
        var wait := if k < retries - 1 then [Wait] else [];
        var rest := Retry(k + 1, retries, shoot, Some(e));
        (rest.0, [Attempt(k)] + wait + rest.1)
  }

  method ScreenshotWithRetry(retries: int, shoot: nat -> Option<string>) returns (r: Outcome<()>, steps: seq<Step>)
    ensures (r, steps) == Retry(0, retries, shoot, None)
  {
    var lastError: Option<string> := None;
    steps := [];
    var attempt: nat := 0;
    while attempt < retries
      invariant Retry(0, retries, shoot, None).0 == Retry(attempt, retries, shoot, lastError).0
      invariant Retry(0, retries, shoot, None).1 == steps + Retry(attempt, retries, shoot, lastError).1
      decreases retries - attempt
    {
      var e := shoot(attempt);
      if e.None? {
        assert Retry(attempt, retries, shoot, lastError) == (Ok(()), [Attempt(attempt)]);
        return Ok(()), steps + [Attempt(attempt)];
      }
      ghost var rest := Retry(attempt + 1, retries, shoot, e);
      assert Retry(attempt, retries, shoot, lastError) ==
        (rest.0, [Attempt(attempt)] + (if attempt < retries - 1 then [Wait] else []) + rest.1);
      lastError := e;
      ghost var before := steps;
      steps := steps + [Attempt(attempt)];
      if attempt < retries - 1 {
        steps := steps + [Wait];
      }
      assert before + ([Attempt(attempt)] + (if attempt < retries - 1 then [Wait] else []) + rest.1) == steps + rest.1;
      attempt := attempt + 1;
    }
    assert Retry(attempt, retries, shoot, lastError) == (RetryFailure(retries, lastError), []);
    assert steps + [] == steps;
    r := RetryFailure(retries, lastError);
  }

  /** Attempts `a` to `b - 1` with a wait between each two. */
  function Attempts(a: nat, b: nat): seq<Step>
    decreases b - a
  {
    if a >= b then [] else if a + 1 == b then [Attempt(a)] else [Attempt(a), Wait] + Attempts(a + 1, b)
  }

  /**
   * When attempt `s` is the first to succeed, the loop makes attempts
   * `k..s` with a wait between each two, and returns.
   */
  lemma {:induction false} RetrySucceeds(k: nat, retries: int, shoot: nat -> Option<string>, lastError: Option<string>, s: nat)
    requires k <= s < retries && shoot(s).None? && forall j :: k <= j < s ==> shoot(j).Some?
    ensures Retry(k, retries, shoot, lastError) == (Ok(()), Attempts(k, s + 1))
    decreases s - k
  {
    if k < s {
      RetrySucceeds(k + 1, retries, shoot, shoot(k), s);
      var rest := Retry(k + 1, retries, shoot, shoot(k));
      assert Retry(k, retries, shoot, lastError) == (rest.0, [Attempt(k)] + [Wait] + rest.1);
      assert Attempts(k, s + 1) == [Attempt(k), Wait] + Attempts(k + 1, s + 1);
      assert [Attempt(k)] + [Wait] + rest.1 == [Attempt(k), Wait] + rest.1;
    } else {
      assert Retry(k, retries, shoot, lastError) == (Ok(()), [Attempt(k)]);
    }
  }

  /**
   * When every attempt fails, all `retries` attempts are made, with a wait
   * between each two and none after the last, and ScreenshotError carries
   * the last error.
   */
  lemma {:induction false} RetryExhausted(k: nat, retries: int, shoot: nat -> Option<string>, lastError: Option<string>)
    requires forall j :: k <= j < retries ==> shoot(j).Some?
    ensures Retry(k, retries, shoot, lastError) ==
      (RetryFailure(retries, if k < retries then shoot(retries - 1) else lastError), Attempts(k, if retries < 0 then 0 else retries))
    decreases retries - k
  {
    if k < retries {
      RetryExhausted(k + 1, retries, shoot, shoot(k));
      var rest := Retry(k + 1, retries, shoot, shoot(k));
      var wait := if k < retries - 1 then [Wait] else [];
      assert Retry(k, retries, shoot, lastError) == (rest.0, [Attempt(k)] + wait + rest.1);
      if k < retries - 1 {
        assert Attempts(k, retries) == [Attempt(k), Wait] + Attempts(k + 1, retries);
        assert [Attempt(k)] + wait + rest.1 == [Attempt(k), Wait] + rest.1;
      } else {
        assert Attempts(k, retries) == [Attempt(k)] && rest.1 == [];
        assert [Attempt(k)] + wait + rest.1 == [Attempt(k)];
      }
    }
  }

  /** At most `retries` attempts, and success iff one of them succeeds. */
  lemma RetrySpec(retries: int, shoot: nat -> Option<string>)
    ensures Retry(0, retries, shoot, None).0.Ok? <==> exists j: nat :: j < retries && shoot(j).None?
    ensures forall s: nat :: s < retries && shoot(s).None? && (forall j :: 0 <= j < s ==> shoot(j).Some?) ==>
      Retry(0, retries, shoot, None) == (Ok(()), Attempts(0, s + 1))
    ensures (forall j: nat :: j < retries ==> shoot(j).Some?) ==>
      Retry(0, retries, shoot, None) ==
        (RetryFailure(retries, if 0 < retries then shoot(retries - 1) else None), Attempts(0, if retries < 0 then 0 else retries))
  {
    forall s: nat | s < retries && shoot(s).None? && (forall j :: 0 <= j < s ==> shoot(j).Some?)
      ensures Retry(0, retries, shoot, None) == (Ok(()), Attempts(0, s + 1))
    {
      RetrySucceeds(0, retries, shoot, None, s);
    }
    if forall j: nat :: j < retries ==> shoot(j).Some? {
      RetryExhausted(0, retries, shoot, None);
    } else {
      var j: nat :| j < retries && shoot(j).None?;
      var s := FirstSuccess(j, shoot);
      RetrySucceeds(0, retries, shoot, None, s);
    }
  }

  /** The first successful attempt, given that attempt `j` succeeds. */
  lemma {:induction false} FirstSuccess(j: nat, shoot: nat -> Option<string>) returns (s: nat)
    requires shoot(j).None?
    ensures s <= j && shoot(s).None? && forall i :: 0 <= i < s ==> shoot(i).Some?
  {
    if forall i :: 0 <= i < j ==> shoot(i).Some? {
      s := j;
    } else {
      var i :| 0 <= i < j && shoot(i).None?;
      s := FirstSuccess(i, shoot);
    }
  }

  // ----- WorkflowScreenshot: start / stop --------------------------------------------

  /** The handles the browser session holds; the numbers stand for the Playwright objects. */
  class WorkflowScreenshot {
    const serverUrl: string
    const width: int
    const height: int
    var playwright: Option<nat>
    var browser: Option<nat>
    var page: Option<nat>
    var consoleLogs: seq<string>
    /** The handles `stop` has closed, in order. */
    var closed: seq<nat>

    constructor(serverUrl: string, width: int, height: int)
      ensures this.serverUrl == RStripChar(serverUrl, '/') && this.width == width && this.height == height
      ensures playwright.None? && browser.None? && page.None? && consoleLogs == [] && closed == []
    {
      this.serverUrl := RStripChar(serverUrl, '/');
      this.width := width;
      this.height := height;
      playwright := None;
      browser := None;
      page := None;
      consoleLogs := [];
      closed := [];
    }

    /**
     * `start`: nothing when a browser exists; otherwise Playwright, the
     * browser and a page are opened in turn. Each opening either gives its
     * handle or raises; one that raises ends `start` with the handles opened
     * before it kept.
     */
    method Start(newPlaywright: Outcome<nat>, newBrowser: Outcome<nat>, newPage: Outcome<nat>) returns (r: Outcome<()>)
      modifies this
      ensures old(browser).Some? ==> r == Ok(()) && playwright == old(playwright) && browser == old(browser) && page == old(page)
      ensures old(browser).None? ==>
        && (r.Ok? <==> newPlaywright.Ok? && newBrowser.Ok? && newPage.Ok?)
        && playwright == (if newPlaywright.Ok? then Some(newPlaywright.value) else old(playwright))
        && browser == (if newPlaywright.Ok? && newBrowser.Ok? then Some(newBrowser.value) else None)
        && page == (if r.Ok? then Some(newPage.value) else old(page))
        && (newPlaywright.Raised? ==> r == Raised(newPlaywright.exc))
        && (newPlaywright.Ok? && newBrowser.Raised? ==> r == Raised(newBrowser.exc))
        && (newPlaywright.Ok? && newBrowser.Ok? && newPage.Raised? ==> r == Raised(newPage.exc))
      ensures consoleLogs == old(consoleLogs) && closed == old(closed)
    {
      if browser.Some? {
        return Ok(());
      }
      if newPlaywright.Raised? {
        return Raised(newPlaywright.exc);
      }
      playwright := Some(newPlaywright.value);
      if newBrowser.Raised? {
        return Raised(newBrowser.exc);
      }
      browser := Some(newBrowser.value);
      if newPage.Raised? {
        return Raised(newPage.exc);
      }
      page := Some(newPage.value);
      return Ok(());
    }

    /** `stop`: the page, the browser and Playwright are closed, those that exist, in that order, and cleared. */
    method Stop()
      modifies this
      ensures page.None? && browser.None? && playwright.None?
      ensures closed == old(closed) + Present(old(page)) + Present(old(browser)) + Present(old(playwright))
      ensures consoleLogs == old(consoleLogs)
    {
      if page.Some? {
        closed := closed + [page.value];
        page := None;
      }
      if browser.Some? {
        closed := closed + [browser.value];
        browser := None;
      }
      if playwright.Some? {
        closed := closed + [playwright.value];
        playwright := None;
      }
    }
  }

  function Present(h: Option<nat>): seq<nat>
  {
    if h.None? then [] else [h.value]
  }

  // ----- _save_frame_if_new ----------------------------------------------------------

  /** `str(n)` padded with zeros to three characters, as `{n:03d}`. */
  function Pad3(n: nat): string
  {
    var s := NatToString(n);
    if |s| >= 3 then s else Repeat('0', 3 - |s|) + s
  }

  function FrameName(n: nat): string
  {
    "frame_" + Pad3(n) + ".jpg"
  }

  function FramePath(outputDir: Path, n: nat): Path
  {
    JoinPath(outputDir, FrameName(n))
  }

  /** The value of a run of decimal digits (leading zeros allowed). */
  function DecimalValue(s: string): nat
    requires forall c <- s :: IsDigitChar(c)
  {
    if s == [] then 0
    else
      assert forall c <- s[..|s| - 1] :: c in s;
      DecimalValue(s[..|s| - 1]) * 10 + DigitValue(s[|s| - 1])
  }

  lemma {:induction false} DecimalOfNat(n: nat)
    ensures DecimalValue(NatToString(n)) == n
  {
    var s := NatToString(n);
    if n >= 10 {
      DecimalOfNat(n / 10);
      assert s[..|s| - 1] == NatToString(n / 10);
    } else {
      assert s[..0] == [];
    }
  }

  lemma {:induction false} DecimalLeadingZeros(k: nat, s: string)
    requires forall c <- s :: IsDigitChar(c)
    ensures forall c <- Repeat('0', k) + s :: IsDigitChar(c)
    ensures DecimalValue(Repeat('0', k) + s) == DecimalValue(s)
    decreases |s|, k
  {
    var z := Repeat('0', k);
    if s == [] {
      assert z + s == z;
      if k > 0 {
        assert z[..k - 1] == Repeat('0', k - 1);
        DecimalLeadingZeros(k - 1, s);
        assert Repeat('0', k - 1) + s == Repeat('0', k - 1);
      }
    } else {
      var init := s[..|s| - 1];
      assert forall c <- init :: c in s;
      DecimalLeadingZeros(k, init);
      assert (z + s)[..|z + s| - 1] == z + init;
    }
  }

  lemma Pad3Value(n: nat)
    ensures forall c <- Pad3(n) :: IsDigitChar(c)
    ensures DecimalValue(Pad3(n)) == n
  {
    var s := NatToString(n);
    DecimalOfNat(n);
    if |s| < 3 {
      DecimalLeadingZeros(3 - |s|, s);
    }
  }

  /** Different frame numbers give different file names, so no frame overwrites another. */
  lemma FrameNameInjective(a: nat, b: nat)
    requires FrameName(a) == FrameName(b)
    ensures a == b
  {
    var pa, pb := Pad3(a), Pad3(b);
    assert |pa| == |pb|;
    assert pa == FrameName(a)[6..6 + |pa|];
    assert pb == FrameName(b)[6..6 + |pb|];
    Pad3Value(a);
    Pad3Value(b);
  }

  lemma FramePathInjective(outputDir: Path, a: nat, b: nat)
    requires FramePath(outputDir, a) == FramePath(outputDir, b)
    ensures a == b
  {
    var na, nb := FrameName(a), FrameName(b);
    assert na[0] == 'f' && nb[0] == 'f';
    if outputDir != "" {
      assert outputDir + "/" + na == outputDir + "/" + nb;
      assert na == (outputDir + "/" + na)[|outputDir| + 1..];
      assert nb == (outputDir + "/" + nb)[|outputDir| + 1..];
    }
    FrameNameInjective(a, b);
  }

  /** One row of the frame metadata. */
  datatype FrameMeta = FrameMeta(file: string, time: real, log: string)

  /** Path `i` is the path of frame `i`. */
  ghost predicate PathsNumbered(outputDir: Path, ps: seq<Path>)
  {
    forall i :: 0 <= i < |ps| ==> ps[i] == FramePath(outputDir, i)
  }

  /** Row `i` describes frame `i`. */
  ghost predicate MetaNumbered(ms: seq<FrameMeta>)
  {
    forall i :: 0 <= i < |ms| ==> ms[i].file == FrameName(i)
  }

  lemma PathsNumberedSnoc(outputDir: Path, ps: seq<Path>)
    requires PathsNumbered(outputDir, ps)
    ensures PathsNumbered(outputDir, ps + [FramePath(outputDir, |ps|)])
  {
    var qs := ps + [FramePath(outputDir, |ps|)];
    forall i | 0 <= i < |qs|
      ensures qs[i] == FramePath(outputDir, i)
    {
      if i < |ps| {
        assert qs[i] == ps[i];
      }
    }
  }

  lemma MetaNumberedSnoc(ms: seq<FrameMeta>, m: FrameMeta)
    requires MetaNumbered(ms) && m.file == FrameName(|ms|)
    ensures MetaNumbered(ms + [m])
  {
    var ns := ms + [m];
    forall i | 0 <= i < |ns|
      ensures ns[i].file == FrameName(i)
    {
      if i < |ms| {
        assert ns[i] == ms[i];
      }
    }
  }

  /** The state `_save_frame_if_new` shares with the capture loop. */
  class FrameRecorder {
    const outputDir: Path
    var lastHash: Option<string>
    var frameNum: nat
    var framePaths: seq<Path>
    var frameMetadata: seq<FrameMeta>

    /** Frame `i` is stored as `frame_iii.jpg` and described by row `i`. */
    ghost predicate Valid()
      reads this
    {
      && |framePaths| == frameNum && |frameMetadata| == frameNum
      && PathsNumbered(outputDir, framePaths)
      && MetaNumbered(frameMetadata)
    }

    constructor(outputDir: Path)
      ensures Valid()
      ensures this.outputDir == outputDir && lastHash.None? && frameNum == 0 && framePaths == [] && frameMetadata == []
    {
      this.outputDir := outputDir;
      lastHash := None;
      frameNum := 0;
      framePaths := [];
      frameMetadata := [];
    }

    /**
     * `_save_frame_if_new` for a screenshot whose hash is `h`: nothing when
     * it equals the last saved hash; otherwise the frame is stored under
     * the current number, which then goes up by one.
     */
    method SaveFrameIfNew(h: string, timestamp: real, logSnap: string) returns (saved: bool)
      requires Valid()
      modifies this
      ensures Valid()
      ensures saved <==> old(lastHash) != Some(h)
      ensures !saved ==> (lastHash == old(lastHash) && frameNum == old(frameNum)
        && framePaths == old(framePaths) && frameMetadata == old(frameMetadata))
      ensures saved ==> (lastHash == Some(h) && frameNum == old(frameNum) + 1
        && framePaths == old(framePaths) + [FramePath(outputDir, old(frameNum))]
        && frameMetadata == old(frameMetadata) + [FrameMeta(FrameName(old(frameNum)), timestamp, logSnap)])
    {
      if lastHash == Some(h) {
        return false;
      }
      lastHash := Some(h);
      var name := FrameName(frameNum);
      PathsNumberedSnoc(outputDir, framePaths);
      MetaNumberedSnoc(frameMetadata, FrameMeta(name, timestamp, logSnap));
      framePaths := framePaths + [JoinPath(outputDir, name)];
      frameMetadata := frameMetadata + [FrameMeta(name, timestamp, logSnap)];
      frameNum := frameNum + 1;
      return true;
    }
  }

  /** The frames recorded are stored under pairwise different paths. */
  lemma FramePathsDistinct(outputDir: Path, framePaths: seq<Path>)
    requires PathsNumbered(outputDir, framePaths)
    ensures forall i, j :: 0 <= i < j < |framePaths| ==> framePaths[i] != framePaths[j]
  {
    forall i, j | 0 <= i < j < |framePaths|
      ensures framePaths[i] != framePaths[j]
    {
      if framePaths[i] == framePaths[j] {
        FramePathInjective(outputDir, i, j);
      }
    }
  }

  // ----- the API-format test of _embed_workflow --------------------------------------

  /** The workflow looks like an API-format prompt: no "nodes" key and every key all digits. */
  predicate IsApiFormat(workflow: Items)
  {
    "nodes" !in DictKeys(workflow) && forall k <- DictKeys(workflow) :: IsDigits(k)
  }

  /** The PNG text chunks written: "workflow" always, "prompt" as well for an API-format workflow. */
  function EmbedChunks(workflow: Items, dumped: string): seq<(string, string)>
  {
    [("workflow", dumped)] + (if IsApiFormat(workflow) then [("prompt", dumped)] else [])
  }

  /**
   * "prompt" is added iff every key is all digits; the "nodes" test never
   * decides anything, since "nodes" is not all digits. An empty workflow
   * qualifies.
   */
  lemma EmbedChunksSpec(workflow: Items, dumped: string)
    ensures ("prompt", dumped) in EmbedChunks(workflow, dumped) <==> forall k <- DictKeys(workflow) :: IsDigits(k)
    ensures DictKeys(workflow) == [] ==> EmbedChunks(workflow, dumped) == [("workflow", dumped), ("prompt", dumped)]
    ensures EmbedChunks(workflow, dumped)[0] == ("workflow", dumped)
  {
    assert !IsDigitChar("nodes"[0]);
    assert !IsDigits("nodes");
  }

  // ----- capture_workflows -----------------------------------------------------------

  /** Where a workflow's screenshot goes: `output_dir / <stem>.png`, or beside the workflow (None). */
  function OutputPathFor(outputDir: Option<Path>, workflowPath: Path): Option<Path>
  {
    if outputDir.None? then None else Some(JoinPath(outputDir.value, Stem(workflowPath) + ".png"))
  }

  /** One workflow's capture, saved to the path `capture_workflows` chooses for it. */
  function AttemptOf(outputDir: Option<Path>, capture: (Path, Option<Path>) -> Outcome<Path>): Path -> Outcome<Path>
  {
    p => capture(p, OutputPathFor(outputDir, p))
  }

  /**
   * The capture loop over the workflows' attempts: a ScreenshotError is
   * logged and the loop goes on; any other exception ends it.
   */
  function CaptureLoop(paths: seq<Path>, attempt: Path -> Outcome<Path>): Outcome<seq<Path>>
  {
    if paths == [] then Ok([])
    else
      var results :- CaptureLoop(paths[..|paths| - 1], attempt);
      var r := attempt(paths[|paths| - 1]);
      if r.Ok? then Ok(results + [r.value])
      else if r.RaisedKind(ScreenshotErr) then Ok(results)
      else Raised(r.exc)
  }

  /** `capture_workflows`: `capture` gives the outcome of `ws.capture`. */
  function CaptureAll(paths: seq<Path>, outputDir: Option<Path>, capture: (Path, Option<Path>) -> Outcome<Path>): Outcome<seq<Path>>
  {
    CaptureLoop(paths, AttemptOf(outputDir, capture))
  }

  method CaptureWorkflows(paths: seq<Path>, outputDir: Option<Path>, capture: (Path, Option<Path>) -> Outcome<Path>)
    returns (r: Outcome<seq<Path>>)
    ensures r == CaptureAll(paths, outputDir, capture)
  {
    var attempt := AttemptOf(outputDir, capture);
    var results: seq<Path> := [];
    for i := 0 to |paths|
      invariant CaptureLoop(paths[..i], attempt) == Ok(results)
    {
      assert paths[..i + 1][..i] == paths[..i];
      var result := attempt(paths[i]);
      if result.Ok? {
        results := results + [result.value];
      } else if !result.RaisedKind(ScreenshotErr) {
        CaptureLoopStops(paths[..i + 1], paths[i + 1..], attempt);
        assert paths[..i + 1] + paths[i + 1..] == paths;
        return Raised(result.exc);
      }
    }
    assert paths[..|paths|] == paths;
    return Ok(results);
  }

  /** Once the loop has ended with an exception, later workflows change nothing. */
  lemma {:induction false} CaptureLoopStops(xs: seq<Path>, ys: seq<Path>, attempt: Path -> Outcome<Path>)
    requires CaptureLoop(xs, attempt).Raised?
    ensures CaptureLoop(xs + ys, attempt) == CaptureLoop(xs, attempt)
    decreases |ys|
  {
    if ys != [] {
      var init := ys[..|ys| - 1];
      CaptureLoopStops(xs, init, attempt);
      assert (xs + ys)[..|xs + ys| - 1] == xs + init;
    } else {
      assert xs + ys == xs;
    }
  }

  /** Once the capture loop has ended with an exception, later workflows change nothing. */
  lemma CaptureAllStops(xs: seq<Path>, ys: seq<Path>, outputDir: Option<Path>, capture: (Path, Option<Path>) -> Outcome<Path>)
    requires CaptureAll(xs, outputDir, capture).Raised?
    ensures CaptureAll(xs + ys, outputDir, capture) == CaptureAll(xs, outputDir, capture)
  {
    CaptureLoopStops(xs, ys, AttemptOf(outputDir, capture));
  }

  /** An attempt that raises ScreenshotError leaves the loop's result as if it were not there. */
  lemma {:induction false} CaptureLoopSkips(xs: seq<Path>, p: Path, ys: seq<Path>, attempt: Path -> Outcome<Path>)
    requires attempt(p).RaisedKind(ScreenshotErr)
    ensures CaptureLoop(xs + [p] + ys, attempt) == CaptureLoop(xs + ys, attempt)
    decreases |ys|
  {
    if ys == [] {
      assert (xs + [p])[..|xs|] == xs;
      assert xs + ys == xs;
      assert xs + [p] + ys == xs + [p];
    } else {
      var init := ys[..|ys| - 1];
      CaptureLoopSkips(xs, p, init, attempt);
      assert (xs + [p] + ys)[..|xs + [p] + ys| - 1] == xs + [p] + init;
      assert (xs + ys)[..|xs + ys| - 1] == xs + init;
      assert (xs + [p] + ys)[|xs + [p] + ys| - 1] == ys[|ys| - 1];
      assert (xs + ys)[|xs + ys| - 1] == ys[|ys| - 1];
    }
  }

  /**
   * A workflow whose capture raises ScreenshotError is passed over: the
   * result is as if it had not been in the list, so the others are still
   * captured and reported in order.
   */
  lemma CaptureSkipsFailure(xs: seq<Path>, p: Path, ys: seq<Path>, outputDir: Option<Path>, capture: (Path, Option<Path>) -> Outcome<Path>)
    requires capture(p, OutputPathFor(outputDir, p)).RaisedKind(ScreenshotErr)
    ensures CaptureAll(xs + [p] + ys, outputDir, capture) == CaptureAll(xs + ys, outputDir, capture)
  {
    CaptureLoopSkips(xs, p, ys, AttemptOf(outputDir, capture));
  }

  /**
   * When every capture succeeds or raises ScreenshotError, the result is
   * the saved paths: one per successful workflow, each a capture result,
   * never more than the workflows given.
   */
  lemma {:induction false} CaptureAllSpec(paths: seq<Path>, outputDir: Option<Path>, capture: (Path, Option<Path>) -> Outcome<Path>)
    requires forall p <- paths :: capture(p, OutputPathFor(outputDir, p)).Ok? || capture(p, OutputPathFor(outputDir, p)).RaisedKind(ScreenshotErr)
    ensures CaptureAll(paths, outputDir, capture).Ok?
    ensures |CaptureAll(paths, outputDir, capture).value| <= |paths|
    ensures forall x :: x in CaptureAll(paths, outputDir, capture).value <==>
      exists p <- paths :: capture(p, OutputPathFor(outputDir, p)) == Ok(x)
  {
    if paths != [] {
      var init := paths[..|paths| - 1];
      var last := paths[|paths| - 1];
      assert forall p :: p in paths <==> p in init || p == last;
      CaptureAllSpec(init, outputDir, capture);
    }
  }
}
