/**
 * The per-workflow VRAM monitor: it finds the server's process tree, reads
 * the per-process GPU memory that nvidia-smi reports, and keeps the peak of
 * the tree's total across samples, writing one CSV row per sample.
 *
 * `pgrep` and `nvidia-smi` are inputs: the process table says what
 * `pgrep -P pid` prints for each process (or that the query failed), and an
 * nvidia-smi query is given by how it ended. The sampling thread and its
 * interval are not modelled; a sample is taken by calling `Sample`.
 */
module VramMonitor {
  import opened Base
  import opened Strings
  import opened Paths

  // ----- the process tree --------------------------------------------------------------

  /** What `pgrep -P pid` gave: its output, or a timeout or OS error. */
  datatype PgrepEnd = Listed(stdout: string) | QueryFailed

  /** The pgrep answers by process; a process with no entry has no children (pgrep prints nothing). */
  type ProcessTable = map<int, PgrepEnd>

  /**
   * The children read from pgrep's output lines: blank lines are passed
   * over, and the first line that is not an integer (a ValueError) ends the
   * reading, keeping the children read before it.
   */
  function ChildLines(lines: seq<string>): (cs: seq<int>)
  {
    if lines == [] then []
    else if Strip(lines[0]) == "" then ChildLines(lines[1..])
    else
      match ParseInt(Strip(lines[0]))
      case None => []
      case Some(c) => [c] + ChildLines(lines[1..])
  }

  /** The children pgrep reported for each process it answered for. */
  type Graph = map<int, seq<int>>

  function ChildGraph(table: ProcessTable): (g: Graph)
    ensures forall p :: p in g <==> p in table && table[p].Listed?
  {
    map p | p in table && table[p].Listed? :: ChildLines(Split(Strip(table[p].stdout), '\n'))
  }

  /** The children the search learns for `pid`. */
  function Children(g: Graph, pid: int): seq<int>
  {
    if pid in g then g[pid] else []
  }

  /** Every reported child of `pid` is in `pids`. */
  predicate ChildrenIn(g: Graph, pid: int, pids: set<int>)
  {
    forall c <- Children(g, pid) :: c in pids
  }

  predicate ClosedUnder(g: Graph, pids: set<int>)
  {
    forall p <- pids :: ChildrenIn(g, p, pids)
  }

  /** Every process the search could ever meet: the root and every reported child. */
  function Universe(g: Graph, root: int): set<int>
  {
    {root} + set p, c | p in g && c in g[p] :: c
  }

  lemma ChildInUniverse(g: Graph, root: int, p: int, c: int)
    requires c in Children(g, p)
    ensures c in Universe(g, root)
  {
    assert p in g;
  }

  /** `pids` lies inside every set that holds the root and is closed under the reported children. */
  ghost predicate Minimal(g: Graph, root: int, pids: set<int>)
  {
    forall s: set<int> :: root in s && ClosedUnder(g, s) ==> pids <= s
  }

  /** `pids` is the root's tree: the smallest set holding the root and closed under the reported children. */
  ghost predicate IsTree(g: Graph, root: int, pids: set<int>)
  {
    root in pids && ClosedUnder(g, pids) && Minimal(g, root, pids)
  }

  predicate Distinct(xs: seq<int>)
  {
    forall i, j :: 0 <= i < j < |xs| ==> xs[i] != xs[j]
  }

  /** A child of a process in a minimal set may join it. */
  lemma MinimalAddChild(g: Graph, root: int, pids: set<int>, parent: int, c: int)
    requires Minimal(g, root, pids) && parent in pids && c in Children(g, parent)
    ensures Minimal(g, root, pids + {c})
  {
    forall s: set<int> | root in s && ClosedUnder(g, s)
      ensures pids + {c} <= s
    {
      assert parent in s && ChildrenIn(g, parent, s);
    }
  }

  /** `pgrep -P parent`: the children it lists, none when it timed out or failed. */
  method QueryChildren(table: ProcessTable, parent: int) returns (children: seq<int>)
    ensures children == Children(ChildGraph(table), parent)
  {
    children := [];
    if parent in table && table[parent].Listed? {
      children := ChildLines(Split(Strip(table[parent].stdout), '\n'));
    }
  }

  /**
   * The inner loop of the search: every child of `parent` that is not yet
   * known joins the set and is queued, in output order.
   */
  method EnqueueChildren(ghost g: Graph, ghost root: int, parent: int, children: seq<int>, pids: set<int>, queue: seq<int>)
    returns (pids': set<int>, queue': seq<int>)
    requires children == Children(g, parent)
    requires parent in pids && Minimal(g, root, pids)
    ensures forall c :: c in pids' <==> c in pids || c in Children(g, parent)
    ensures ChildrenIn(g, parent, pids') && Minimal(g, root, pids')
    ensures |queue'| >= |queue| && queue' == queue + queue'[|queue|..]
    ensures forall c <- queue'[|queue|..] :: c in pids' && c !in pids && c in Children(g, parent)
    ensures Distinct(queue'[|queue|..])
    ensures forall c <- pids' :: c in pids || c in queue'[|queue|..]
  {
    pids', queue' := pids, queue;
    var i := 0;
    while i < |children|
      invariant i <= |children|
      invariant forall c :: c in pids' <==> c in pids || c in children[..i]
      invariant Minimal(g, root, pids')
      invariant |queue'| >= |queue| && queue' == queue + queue'[|queue|..]
      invariant forall c <- queue'[|queue|..] :: c in pids' && c !in pids && c in children[..i]
      invariant Distinct(queue'[|queue|..])
      invariant forall c <- pids' :: c in pids || c in queue'[|queue|..]
    {
      assert children[..i + 1] == children[..i] + [children[i]];
      var child := children[i];
      if child !in pids' {
        MinimalAddChild(g, root, pids', parent, child);
        assert (queue' + [child])[|queue|..] == queue'[|queue|..] + [child];
        pids' := pids' + {child};
        queue' := queue' + [child];
      }
      i := i + 1;
    }
    assert children[..i] == children;
  }

  lemma SubsetCard(a: set<int>, b: set<int>)
    requires a <= b
    ensures |a| <= |b|
  {
    assert b == a + (b - a);
  }

  /** Appending fresh distinct elements keeps a sequence distinct. */
  lemma DistinctAppend(a: seq<int>, b: seq<int>)
    requires Distinct(a) && Distinct(b)
    requires forall x <- b :: x !in a
    ensures Distinct(a + b)
  {
    forall i, j | 0 <= i < j < |a + b|
      ensures (a + b)[i] != (a + b)[j]
    {
      if j < |a| {
        assert (a + b)[i] == a[i] && (a + b)[j] == a[j];
      } else if i < |a| {
        assert (a + b)[i] == a[i] && (a + b)[j] == b[j - |a|];
        assert b[j - |a|] in b;
      } else {
        assert (a + b)[i] == b[i - |a|] && (a + b)[j] == b[j - |a|];
      }
    }
  }

  /** A step that adds a process of the universe leaves fewer to add. */
  lemma StepShrinks(u: set<int>, pids0: set<int>, pids: set<int>, c: int)
    requires pids0 <= pids && c in pids && c !in pids0 && c in u
    ensures |u - pids| < |u - pids0|
  {
    var gone := (u - pids0) - (u - pids);
    assert c in gone;
    assert u - pids0 == (u - pids) + gone;
    assert |gone| >= 1;
  }

  /** What holds between steps of the search. */
  ghost predicate SearchInv(g: Graph, u: set<int>, root: int, pids: set<int>, queue: seq<int>, order: seq<int>)
  {
    && root in pids && pids <= u
    && (forall q <- queue :: q in pids)
    && Distinct(queue) && Distinct(order)
    && (forall p :: p in order <==> p in pids)
    && (forall p <- pids :: p in queue || ChildrenIn(g, p, pids))
    && Minimal(g, root, pids)
  }

  /** Popping `parent` and queueing its new children keeps the invariant and makes progress. */
  lemma StepKeeps(g: Graph, root: int, u: set<int>, pids0: set<int>, queueIn: seq<int>, order: seq<int>,
                  parent: int, pids: set<int>, queue0: seq<int>, queue: seq<int>)
    requires u == Universe(g, root)
    requires SearchInv(g, u, root, pids0, queueIn, order)
    requires queueIn != [] && parent == queueIn[|queueIn| - 1] && queue0 == queueIn[..|queueIn| - 1]
    requires forall c :: c in pids <==> c in pids0 || c in Children(g, parent)
    requires ChildrenIn(g, parent, pids) && Minimal(g, root, pids)
    requires |queue| >= |queue0| && queue == queue0 + queue[|queue0|..]
    requires forall c <- queue[|queue0|..] :: c in pids && c !in pids0 && c in Children(g, parent)
    requires Distinct(queue[|queue0|..])
    requires forall c <- pids :: c in pids0 || c in queue[|queue0|..]
    ensures SearchInv(g, u, root, pids, queue, order + queue[|queue0|..])
    ensures |u - pids| < |u - pids0| || (|u - pids| == |u - pids0| && |queue| < |queue0| + 1)
  {
    var added := queue[|queue0|..];
    PopFacts(queueIn, pids0);
    DistinctAppend(queue0, added);
    DistinctAppend(order, added);
    forall c | c in added ensures c in u {
      ChildInUniverse(g, root, parent, c);
    }
    CoverStep(g, pids0, pids, queueIn, parent, queue);
    if added != [] {
      StepShrinks(u, pids0, pids, added[0]);
    } else {
      assert pids == pids0;
    }
  }

  /** Taking the last process off a distinct queue of known processes leaves such a queue. */
  lemma PopFacts(queueIn: seq<int>, pids0: set<int>)
    requires queueIn != [] && Distinct(queueIn) && forall q <- queueIn :: q in pids0
    ensures var queue0 := queueIn[..|queueIn| - 1];
      queueIn == queue0 + [queueIn[|queueIn| - 1]] && Distinct(queue0) && forall q <- queue0 :: q in pids0
  {
    var queue0 := queueIn[..|queueIn| - 1];
    assert queueIn == queue0 + [queueIn[|queueIn| - 1]];
    forall i, j | 0 <= i < j < |queue0| ensures queue0[i] != queue0[j] {
      assert queueIn[i] == queue0[i] && queueIn[j] == queue0[j];
    }
    forall q <- queue0 ensures q in pids0 {
      assert q in queueIn;
    }
  }

  /** After the step every known process is queued or has all its children known. */
  lemma CoverStep(g: Graph, pids0: set<int>, pids: set<int>, queueIn: seq<int>, parent: int, queue: seq<int>)
    requires queueIn != [] && parent == queueIn[|queueIn| - 1]
    requires queueIn[..|queueIn| - 1] <= queue
    requires forall p <- pids0 :: p in queueIn || ChildrenIn(g, p, pids0)
    requires pids0 <= pids && ChildrenIn(g, parent, pids)
    requires forall c <- pids :: c in pids0 || c in queue
    ensures forall p <- pids :: p in queue || ChildrenIn(g, p, pids)
  {
    var queue0 := queueIn[..|queueIn| - 1];
    assert queueIn == queue0 + [parent];
    forall p <- pids ensures p in queue || ChildrenIn(g, p, pids) {
      if p == parent {
      } else if p in pids0 {
        if p !in queueIn {
          assert ChildrenIn(g, p, pids0);
        } else {
          assert p in queue0;
          assert queue[..|queue0|] == queue0;
          assert p in queue[..|queue0|];
        }
      }
    }
  }

  /**
   * `_get_descendant_pids`: the root and, transitively, every reported
   * child. `order` lists the processes in the order they were queued: each
   * is queued exactly once.
   */
  method DescendantPids(table: ProcessTable, root: int) returns (pids: set<int>, ghost order: seq<int>)
    ensures IsTree(ChildGraph(table), root, pids)
    ensures Distinct(order) && forall p :: p in order <==> p in pids
  {
    ghost var g := ChildGraph(table);
    ghost var u := Universe(g, root);
    pids := {root};
    var queue := [root];
    order := [root];
    while queue != []
      invariant SearchInv(g, u, root, pids, queue, order)
      decreases |u - pids|, |queue|
    {
      ghost var queueIn := queue;
      var parent := queue[|queue| - 1];
      queue := queue[..|queue| - 1];
      ghost var pids0, queue0 := pids, queue;
      var children := QueryChildren(table, parent);
      pids, queue := EnqueueChildren(g, root, parent, children, pids, queue);
      StepKeeps(g, root, u, pids0, queueIn, order, parent, pids, queue0, queue);
      order := order + queue[|queue0|..];
    }
  }

  // ----- nvidia-smi --------------------------------------------------------------------

  /** How an nvidia-smi query ended: its exit code and output, or a timeout or OS error. */
  datatype SmiEnd = SmiDone(returncode: int, stdout: string) | SmiFailed

  /** A `pid, MiB` line: both fields must be integers, and blank or short lines give nothing. */
  function LineEntry(line: string): Option<(int, int)>
  {
    if Strip(line) == "" then None else FieldsEntry(Split(line, ','))
  }

  /** The first two comma-separated fields, when both are integers. */
  function FieldsEntry(parts: seq<string>): Option<(int, int)>
  {
    if |parts| < 2 then None
    else
      var pid, mib := ParseInt(Strip(parts[0])), ParseInt(Strip(parts[1]));
      if pid.Some? && mib.Some? then Some((pid.value, mib.value)) else None
  }

  /** The entry of each output line, in order. */
  function LineEntries(lines: seq<string>): (es: seq<Option<(int, int)>>)
    ensures |es| == |lines| && forall k :: 0 <= k < |lines| ==> es[k] == LineEntry(lines[k])
  {
    seq(|lines|, k requires 0 <= k < |lines| => LineEntry(lines[k]))
  }

  /** The map the entries build: a later entry for the same process replaces an earlier one. */
  function Collect(es: seq<Option<(int, int)>>): map<int, int>
  {
    if es == [] then map[]
    else
      var m := Collect(es[..|es| - 1]);
      match es[|es| - 1]
      case None => m
      case Some(e) => m[e.0 := e.1]
  }

  /** `_get_gpu_vram_per_pid`: nothing for a failed query or a non-zero exit. */
  function VramPerPid(q: SmiEnd): map<int, int>
  {
    if q.SmiFailed? || q.returncode != 0 then map[] else Collect(LineEntries(Split(Strip(q.stdout), '\n')))
  }

  /**
   * A process is in the map iff some line reports it, and its memory is the
   * one the last such line gives.
   */
  lemma {:induction false} CollectLastEntry(es: seq<Option<(int, int)>>, pid: int)
    ensures pid in Collect(es) <==> exists i :: 0 <= i < |es| && es[i].Some? && es[i].value.0 == pid
    ensures forall i :: (0 <= i < |es| && es[i].Some? && es[i].value.0 == pid
                         && (forall j :: i < j < |es| ==> es[j].None? || es[j].value.0 != pid))
                        ==> pid in Collect(es) && Collect(es)[pid] == es[i].value.1
  {
    if es != [] {
      var init := es[..|es| - 1];
      CollectLastEntry(init, pid);
      assert forall i :: 0 <= i < |init| ==> init[i] == es[i];
    }
  }

  lemma CollectSnoc(es: seq<Option<(int, int)>>, i: int)
    requires 0 <= i < |es|
    ensures Collect(es[..i + 1]) == if es[i].None? then Collect(es[..i]) else Collect(es[..i])[es[i].value.0 := es[i].value.1]
  {
    assert es[..i + 1][..i] == es[..i];
  }

  /** The loop over nvidia-smi's output lines: each entry read overwrites the process's earlier one. */
  method CollectLines(lines: seq<string>) returns (vram: map<int, int>)
    ensures vram == Collect(LineEntries(lines))
  {
    ghost var es := LineEntries(lines);
    vram := map[];
    var i := 0;
    while i < |lines|
      invariant i <= |lines|
      invariant vram == Collect(es[..i])
    {
      CollectSnoc(es, i);
      var entry := LineEntry(lines[i]);
      if entry.Some? {
        vram := vram[entry.value.0 := entry.value.1];
      }
      i := i + 1;
    }
    assert es[..i] == es;
  }

  method GpuVramPerPid(q: SmiEnd) returns (vram: map<int, int>)
    ensures vram == VramPerPid(q)
  {
    if q.SmiFailed? || q.returncode != 0 {
      return map[];
    }
    vram := CollectLines(Split(Strip(q.stdout), '\n'));
  }

  /** `_get_gpu_total_vram`: the integer on the first output line, or 0 on any failure. */
  function TotalVram(q: SmiEnd): (mib: int)
    ensures q.SmiFailed? || q.returncode != 0 ==> mib == 0
    ensures q.SmiDone? && q.returncode == 0 && ParseInt(FirstLine(q.stdout)).Some? ==>
      mib == ParseInt(FirstLine(q.stdout)).value
    ensures q.SmiDone? && ParseInt(FirstLine(q.stdout)).None? ==> mib == 0
  {
    if q.SmiFailed? || q.returncode != 0 then 0
    else
      match ParseInt(FirstLine(q.stdout))
      case None => 0
      case Some(v) => v
  }

  /** The first line of the stripped output, stripped. */
  function FirstLine(stdout: string): string
  {
    Strip(Split(Strip(stdout), '\n')[0])
  }

  // ----- sums over the tree ------------------------------------------------------------

  /** `vram_map.get(p, 0)`. */
  function MibOf(vram: map<int, int>, p: int): int
  {
    if p in vram then vram[p] else 0
  }

  /** The memory of the processes in `pids`, a process the map lacks counting 0. */
  ghost function TreeMib(pids: set<int>, vram: map<int, int>): int
    decreases |pids|
  {
    if forall p :: p !in pids then 0
    else
      var p :| p in pids;
      MibOf(vram, p) + TreeMib(pids - {p}, vram)
  }

  /** The sum does not depend on which process is taken first. */
  lemma {:induction false} TreeMibRemove(pids: set<int>, vram: map<int, int>, q: int)
    requires q in pids
    ensures TreeMib(pids, vram) == MibOf(vram, q) + TreeMib(pids - {q}, vram)
    decreases |pids|
  {
    var p :| p in pids && TreeMib(pids, vram) == MibOf(vram, p) + TreeMib(pids - {p}, vram);
    if p != q {
      TreeMibRemove(pids - {p}, vram, q);
      TreeMibRemove(pids - {q}, vram, p);
      assert pids - {p} - {q} == pids - {q} - {p};
    }
  }

  /** Taking a process out of a set lowers the count of those the map lists by one iff the map lists it. */
  lemma InterRemove(rest: set<int>, keys: set<int>, p: int)
    requires p in rest
    ensures |rest * keys| == |(rest - {p}) * keys| + (if p in keys then 1 else 0)
  {
    if p in keys {
      assert rest * keys == (rest - {p}) * keys + {p};
    } else {
      assert rest * keys == (rest - {p}) * keys;
    }
  }

  /** The tree's memory and the number of its processes nvidia-smi lists. */
  method TreeUsage(pids: set<int>, vram: map<int, int>) returns (mib: int, procs: nat)
    ensures mib == TreeMib(pids, vram)
    ensures procs == |pids * vram.Keys|
  {
    mib, procs := 0, 0;
    var rest := pids;
    while exists p :: p in rest
      invariant rest <= pids
      invariant mib + TreeMib(rest, vram) == TreeMib(pids, vram)
      invariant procs + |rest * vram.Keys| == |pids * vram.Keys|
      decreases |rest|
    {
      var p :| p in rest;
      TreeMibRemove(rest, vram, p);
      InterRemove(rest, vram.Keys, p);
      if p in vram {
        procs := procs + 1;
      }
      mib := mib + MibOf(vram, p);
      rest := rest - {p};
    }
    assert rest == {};
  }

  // ----- the monitor -------------------------------------------------------------------

  /** The CSV header the log starts with. */
  const CsvHeader := "timestamp,tree_vram_mib,total_vram_mib,num_gpu_processes,peak_vram_mib"

  /** The workflow name as it appears in the log file name: separators become '_'. */
  function SafeName(workflow: string): (r: string)
    ensures |r| == |workflow| && '/' !in r && '\\' !in r
  {
    ReplaceChar(ReplaceChar(workflow, '/', '_'), '\\', '_')
  }

  /** One row of the log: time, tree total, GPU total, process count and peak. */
  function CsvRow(timestamp: string, tree: int, total: int, procs: nat, peak: int): string
  {
    timestamp + "," + IntToString(tree) + "," + IntToString(total) + "," + NatToString(procs) + "," + IntToString(peak)
  }

  class Monitor {
    const rootPid: Option<int>
    const nodeName: string
    const workflowName: string
    const totalMib: int
    var peakMib: int
    /** Whether the sampling thread was started. */
    var thread: bool
    var stopEvent: bool
    var logPath: Option<Path>
    /** Whether the log file is open. */
    var logOpen: bool
    /** The rows written to the log file. */
    var logRows: seq<string>
    /** Every tree total sampled so far. */
    ghost var samples: seq<int>
    /** The processes the last sample summed over. */
    ghost var lastTree: set<int>

    /** The peak is the largest sampled total, or 0 before any larger one. */
    ghost predicate Valid()
      reads this
    {
      && peakMib >= 0
      && (forall s <- samples :: s <= peakMib)
      && (peakMib == 0 || peakMib in samples)
      && (logOpen ==> logPath.Some?)
    }

    /** The monitor reads the GPU's total memory once, when it is created. */
    constructor(rootPid: Option<int>, nodeName: string, workflowName: string, total: SmiEnd)
      ensures Valid()
      ensures this.rootPid == rootPid && this.nodeName == nodeName && this.workflowName == workflowName
      ensures totalMib == TotalVram(total)
      ensures peakMib == 0 && !thread && !stopEvent && logPath.None? && !logOpen && logRows == [] && samples == []
    {
      lastTree := {};
      this.rootPid := rootPid;
      this.nodeName := nodeName;
      this.workflowName := workflowName;
      totalMib := TotalVram(total);
      peakMib := 0;
      thread := false;
      stopEvent := false;
      logPath := None;
      logOpen := false;
      logRows := [];
      samples := [];
    }

    /**
     * `start`: without a GPU (total 0) nothing happens; otherwise the log
     * file under `logDir`, named after the node, workflow and `timestamp`,
     * is opened with its header and the sampling thread starts.
     */
    method Start(logDir: Path, timestamp: string)
      modifies this
      requires Valid()
      ensures Valid()
      ensures totalMib == 0 ==> thread == old(thread) && logPath == old(logPath) && logOpen == old(logOpen)
      ensures totalMib == 0 ==> logRows == old(logRows)
      ensures totalMib != 0 ==> thread && logOpen && logRows == [CsvHeader]
      ensures totalMib != 0 ==> logPath == Some(JoinPath(logDir, nodeName + "_" + SafeName(workflowName) + "_" + timestamp + ".csv"))
      ensures peakMib == old(peakMib) && stopEvent == old(stopEvent) && samples == old(samples) && lastTree == old(lastTree)
    {
      if totalMib == 0 {
        return;
      }
      logPath := Some(JoinPath(logDir, nodeName + "_" + SafeName(workflowName) + "_" + timestamp + ".csv"));
      logOpen := true;
      logRows := [CsvHeader];
      thread := true;
    }

    /** `stop`: signals the thread, closes the log and returns the peak. */
    method Stop() returns (peak: int)
      modifies this
      requires Valid()
      ensures Valid()
      ensures peak == peakMib == old(peakMib)
      ensures forall s <- samples :: s <= peak
      ensures stopEvent && !logOpen
      ensures thread == old(thread) && logPath == old(logPath) && logRows == old(logRows)
      ensures samples == old(samples) && lastTree == old(lastTree)
    {
      stopEvent := true;
      logOpen := false;
      peak := peakMib;
    }

    /**
     * `_sample`: the tree's total (every GPU process when there is no root),
     * the peak raised to it if it is higher, and one CSV row when the log is
     * open.
     */
    method Sample(vramQuery: SmiEnd, table: ProcessTable, timestamp: string)
      modifies this
      requires Valid()
      ensures Valid()
      ensures |samples| == |old(samples)| + 1 && samples[..|old(samples)|] == old(samples)
      ensures var tree := samples[|samples| - 1];
        && peakMib == (if tree > old(peakMib) then tree else old(peakMib))
        && tree == TreeMib(lastTree, VramPerPid(vramQuery))
        && (rootPid.None? ==> lastTree == VramPerPid(vramQuery).Keys)
        && (rootPid.Some? ==> IsTree(ChildGraph(table), rootPid.value, lastTree))
      ensures peakMib >= old(peakMib)
      ensures old(logOpen) ==> |logRows| == |old(logRows)| + 1 && logRows[..|old(logRows)|] == old(logRows)
      ensures old(logOpen) ==>
        logRows == old(logRows) + [CsvRow(timestamp, samples[|samples| - 1], totalMib,
                                          |lastTree * VramPerPid(vramQuery).Keys|, peakMib)]
      ensures !old(logOpen) ==> logRows == old(logRows)
      ensures thread == old(thread) && stopEvent == old(stopEvent) && logPath == old(logPath) && logOpen == old(logOpen)
    {
      var vram := GpuVramPerPid(vramQuery);
      var tree: int, procs: nat;
      if rootPid.Some? {
        var pids, _ := DescendantPids(table, rootPid.value);
        tree, procs := TreeUsage(pids, vram);
        lastTree := pids;
      } else {
        tree, procs := TreeUsage(vram.Keys, vram);
        lastTree := vram.Keys;
      }
      RecordSample(tree);
      if logOpen {
        logRows := logRows + [CsvRow(timestamp, tree, totalMib, procs, peakMib)];
      }
    }

    /** A sampled total joins the samples and raises the peak when it is higher. */
    method RecordSample(tree: int)
      modifies this
      requires Valid()
      ensures Valid()
      ensures samples == old(samples) + [tree]
      ensures peakMib == if tree > old(peakMib) then tree else old(peakMib)
      ensures thread == old(thread) && stopEvent == old(stopEvent) && logPath == old(logPath)
      ensures logOpen == old(logOpen) && logRows == old(logRows) && lastTree == old(lastTree)
    {
      samples := samples + [tree];
      if tree > peakMib {
        peakMib := tree;
      }
    }
  }
}
