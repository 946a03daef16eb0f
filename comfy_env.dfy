/**
 * Reading the node's `comfy-env` configuration: the node dependencies of
 * `comfy-env-root.toml`, the `[env_vars]` table (CI only) and the CUDA package
 * names of every `comfy-env.toml` in the node tree. The TOML parser is not
 * modelled: a file is either absent, unparsable, or its parsed table.
 */
module ComfyEnv {
  import opened Base
  import opened Strings
  import opened Json

  /** What reading and parsing one TOML file gives. */
  datatype TomlFile = Missing | Unparsable | Parsed(doc: Items)

  // ----- get_node_reqs --------------------------------------------------------

  /** The repo named by one `node_reqs` entry: a string is the repo, a table has a `repo` key; anything else is skipped. */
  function RepoOf(value: Json): (r: Option<Json>)
    ensures r.Some? <==> value.JString? || value.JObject?
    ensures value.JString? ==> r == Some(value)
    ensures value.JObject? ==> r.value == (if DictLookup(value.fields, "repo").Some? then DictLookup(value.fields, "repo").value else JString(""))
  {
    if value.JString? then Some(value)
    else if value.JObject? then Some(Get(value, "repo", JString("")).value)
    else None
  }

  /** Whether an entry contributes: it names a repo and that repo is non-empty. */
  predicate Contributes(value: Json)
  {
    RepoOf(value).Some? && Truthy(RepoOf(value).value)
  }

  /** The `(name, repo)` pairs the loop appends for these entries, in order. */
  function NodeReqsOf(entries: Items): seq<(string, Json)>
  {
    if entries == [] then []
    else
      var e := entries[|entries| - 1];
      NodeReqsOf(entries[..|entries| - 1]) + (if Contributes(e.1) then [(e.0, RepoOf(e.1).value)] else [])
  }

  /** `get_node_reqs`, reading the already-parsed `comfy-env-root.toml`. */
  method GetNodeReqs(file: TomlFile) returns (r: Outcome<seq<(string, Json)>>)
    ensures file.Missing? || file.Unparsable? ==> r == Ok([])
    ensures file.Parsed? ==> r == NodeReqsSpec(file.doc)
  {
    if !file.Parsed? {
      return Ok([]);
    }
    var nodeReqs := Get(JObject(file.doc), "node_reqs", JObject([])).value;
    if !nodeReqs.JObject? {
      return AttributeError(nodeReqs, "items");
    }
    var entries := ItemsOf(nodeReqs.fields);
    var result: seq<(string, Json)> := [];
    var i := 0;
    while i < |entries|
      invariant 0 <= i <= |entries|
      invariant result == NodeReqsOf(entries[..i])
    {
      var (name, value) := entries[i];
      assert entries[..i + 1][..i] == entries[..i];
      var repo: Json;
      if value.JString? {
        repo := value;
      } else if value.JObject? {
        repo := Get(value, "repo", JString("")).value;
      } else {
        i := i + 1;
        continue;
      }
      if Truthy(repo) {
        result := result + [(name, repo)];
      }
      i := i + 1;
    }
    assert entries[..|entries|] == entries;
    return Ok(result);
  }

  /** What `get_node_reqs` returns for a parsed file: `node_reqs.items()` raises unless it is a table. */
  function NodeReqsSpec(doc: Items): Outcome<seq<(string, Json)>>
  {
    var nodeReqs := Get(JObject(doc), "node_reqs", JObject([])).value;
    if !nodeReqs.JObject? then AttributeError(nodeReqs, "items")
    else Ok(NodeReqsOf(ItemsOf(nodeReqs.fields)))
  }

  /** A pair is returned iff some entry of that name gives that non-empty repo. */
  lemma {:induction false} NodeReqsMembers(entries: Items, name: string, repo: Json)
    ensures (name, repo) in NodeReqsOf(entries) <==>
      exists v :: (name, v) in entries && Contributes(v) && RepoOf(v).value == repo
  {
    if entries != [] {
      var init := entries[..|entries| - 1];
      NodeReqsMembers(init, name, repo);
      assert entries == init + [entries[|entries| - 1]];
      var v := entries[|entries| - 1].1;
      if (name, repo) in NodeReqsOf(entries) && (name, repo) !in NodeReqsOf(init) {
        assert (name, v) in entries;
      }
      if exists w :: (name, w) in entries && Contributes(w) && RepoOf(w).value == repo {
        var w :| (name, w) in entries && Contributes(w) && RepoOf(w).value == repo;
        if (name, w) !in init {
          assert (name, w) == entries[|entries| - 1];
        }
      }
    }
  }

  /** The position of the entry the `k`-th returned pair comes from. */
  function SourceIndex(entries: Items, k: nat): nat
    requires k < |NodeReqsOf(entries)|
    decreases |entries|
  {
    var init := entries[..|entries| - 1];
    if k < |NodeReqsOf(init)| then SourceIndex(init, k) else |entries| - 1
  }

  /**
   * No more pairs than entries, and the pairs are a subsequence of the
   * entries: each comes from an entry of the same name, at strictly
   * increasing positions.
   */
  lemma {:induction false} NodeReqsOrdered(entries: Items)
    ensures |NodeReqsOf(entries)| <= |entries|
    ensures forall k :: 0 <= k < |NodeReqsOf(entries)| ==>
      SourceIndex(entries, k) < |entries| && entries[SourceIndex(entries, k)].0 == NodeReqsOf(entries)[k].0
    ensures forall k, l :: 0 <= k < l < |NodeReqsOf(entries)| ==> SourceIndex(entries, k) < SourceIndex(entries, l)
  {
    if entries != [] {
      var init := entries[..|entries| - 1];
      var last := entries[|entries| - 1];
      NodeReqsOrdered(init);
      var r := NodeReqsOf(entries);
      var ri := NodeReqsOf(init);
      assert r == ri + (if Contributes(last.1) then [(last.0, RepoOf(last.1).value)] else []);
      forall k | 0 <= k < |r|
        ensures SourceIndex(entries, k) < |entries| && entries[SourceIndex(entries, k)].0 == r[k].0
      {
        if k < |ri| {
          var s := SourceIndex(init, k);
          assert SourceIndex(entries, k) == s;
          assert entries[s] == init[s] && r[k] == ri[k];
        }
      }
      forall k, l | 0 <= k < l < |r|
        ensures SourceIndex(entries, k) < SourceIndex(entries, l)
      {
        assert SourceIndex(entries, k) == SourceIndex(init, k);
        if l < |ri| {
          assert SourceIndex(entries, l) == SourceIndex(init, l);
        }
      }
    }
  }

  // ----- get_env_vars ---------------------------------------------------------

  /** `os.environ.get(name)` is truthy: set, and not empty. */
  predicate EnvSet(env: map<string, string>, name: string)
  {
    name in env && env[name] != ""
  }

  /** `{str(k): str(v) for k, v in entries}`; the entries of a table have distinct keys. */
  function EnvMap(entries: Items): map<string, string>
  {
    if entries == [] then map[] else EnvMap(entries[1..])[entries[0].0 := Str(entries[0].1)]
  }

  /** `get_env_vars`: the stringified `[env_vars]` table of `comfy-env.toml`, only under CI. */
  function GetEnvVars(env: map<string, string>, file: TomlFile): (r: Outcome<map<string, string>>)
    ensures !EnvSet(env, "CI") && !EnvSet(env, "GITHUB_ACTIONS") ==> r == Ok(map[])
    ensures file.Missing? || file.Unparsable? ==> r == Ok(map[])
  {
    if !EnvSet(env, "CI") && !EnvSet(env, "GITHUB_ACTIONS") then Ok(map[])
    else if !file.Parsed? then Ok(map[])
    else
      var envVars := Get(JObject(file.doc), "env_vars", JObject([])).value;
      if !envVars.JObject? then AttributeError(envVars, "items")
      else Ok(EnvMap(ItemsOf(envVars.fields)))
  }

  /** The map has exactly the table's keys, each with the text of the table's value. */
  lemma {:induction false} EnvMapLookup(entries: Items, k: string)
    ensures k in EnvMap(entries) <==> Find(entries, k).Some?
    ensures k in EnvMap(entries) ==> EnvMap(entries)[k] == Str(Find(entries, k).value)
  {
    if entries != [] {
      EnvMapLookup(entries[1..], k);
    }
  }

  lemma EnvVarsAreTable(env: map<string, string>, doc: Items, k: string)
    requires GetEnvVars(env, Parsed(doc)).Ok? && (EnvSet(env, "CI") || EnvSet(env, "GITHUB_ACTIONS"))
    ensures var table := Get(JObject(doc), "env_vars", JObject([])).value;
      && table.JObject?
      && (k in GetEnvVars(env, Parsed(doc)).value <==> DictLookup(table.fields, k).Some?)
      && (k in GetEnvVars(env, Parsed(doc)).value ==>
            GetEnvVars(env, Parsed(doc)).value[k] == Str(DictLookup(table.fields, k).value))
  {
    var table := Get(JObject(doc), "env_vars", JObject([])).value;
    EnvMapLookup(ItemsOf(table.fields), k);
  }

  // ----- get_cuda_packages ----------------------------------------------------

  /** `pkg.replace("-", "_")` for each package, in order; a non-string package raises. */
  function NormaliseAll(pkgs: seq<Json>): (r: Outcome<seq<string>>)
  {
    if pkgs == [] then Ok([])
    else
      var init :- NormaliseAll(pkgs[..|pkgs| - 1]);
      var pkg := pkgs[|pkgs| - 1];
      if !pkg.JString? then AttributeError(pkg, "replace")
      else Ok(init + [ReplaceChar(pkg.s, '-', '_')])
  }

  /** The package list of one file's `[cuda]` table: none unless it is a table holding a list. */
  function PackagesOf(file: TomlFile): seq<Json>
  {
    if !file.Parsed? then []
    else
      var cuda := Get(JObject(file.doc), "cuda", JObject([])).value;
      if !cuda.JObject? then []
      else
        var packages := Get(cuda, "packages", JList([])).value;
        if packages.JList? then packages.items else []
  }

  /** The names the loop collects from these files, in order. */
  function CudaPackagesOf(files: seq<TomlFile>): Outcome<seq<string>>
  {
    if files == [] then Ok([])
    else
      var init :- CudaPackagesOf(files[..|files| - 1]);
      var names :- NormaliseAll(PackagesOf(files[|files| - 1]));
      Ok(init + names)
  }

  /** The inner loop of `get_cuda_packages`: one file's package names, normalised. */
  method NormalisePackages(packages: seq<Json>) returns (r: Outcome<seq<string>>)
    ensures r == NormaliseAll(packages)
  {
    var added: seq<string> := [];
    var j := 0;
    while j < |packages|
      invariant 0 <= j <= |packages|
      invariant NormaliseAll(packages[..j]) == Ok(added)
    {
      assert packages[..j + 1][..j] == packages[..j];
      var pkg := packages[j];
      if !pkg.JString? {
        r := AttributeError(pkg, "replace");
        NormaliseRaisesOnPrefix(packages, j + 1);
        return;
      }
      added := added + [ReplaceChar(pkg.s, '-', '_')];
      j := j + 1;
    }
    assert packages[..j] == packages;
    return Ok(added);
  }

  /** `get_cuda_packages`, given the `comfy-env.toml` files found under the node directory, in search order. */
  method GetCudaPackages(files: seq<TomlFile>) returns (r: Outcome<seq<string>>)
    ensures r == CudaPackagesOf(files)
  {
    var cudaPackages: seq<string> := [];
    var i := 0;
    while i < |files|
      invariant 0 <= i <= |files|
      invariant CudaPackagesOf(files[..i]) == Ok(cudaPackages)
    {
      assert files[..i + 1][..i] == files[..i];
      var names := NormalisePackages(PackagesOf(files[i]));
      if names.Raised? {
        r := names.PropagateFailure();
        CudaRaisesOnPrefix(files, i + 1);
        return;
      }
      cudaPackages := cudaPackages + names.value;
      i := i + 1;
    }
    assert files[..i] == files;
    return Ok(cudaPackages);
  }

  /** Once a prefix of the list raises, the whole list raises the same exception. */
  lemma {:induction false} NormaliseRaisesOnPrefix(pkgs: seq<Json>, n: nat)
    requires n <= |pkgs| && NormaliseAll(pkgs[..n]).Raised?
    ensures NormaliseAll(pkgs) == NormaliseAll(pkgs[..n])
    decreases |pkgs| - n
  {
    if n < |pkgs| {
      assert pkgs[..n + 1][..n] == pkgs[..n];
      NormaliseRaisesOnPrefix(pkgs, n + 1);
    } else {
      assert pkgs[..n] == pkgs;
    }
  }

  lemma {:induction false} CudaRaisesOnPrefix(files: seq<TomlFile>, n: nat)
    requires n <= |files| && CudaPackagesOf(files[..n]).Raised?
    ensures CudaPackagesOf(files) == CudaPackagesOf(files[..n])
    decreases |files| - n
  {
    if n < |files| {
      assert files[..n + 1][..n] == files[..n];
      CudaRaisesOnPrefix(files, n + 1);
    } else {
      assert files[..n] == files;
    }
  }

  /** Each normalised name is the package name with every '-' turned into '_'. */
  lemma {:induction false} NormalisedNames(pkgs: seq<Json>)
    requires NormaliseAll(pkgs).Ok?
    ensures |NormaliseAll(pkgs).value| == |pkgs|
    ensures forall k :: 0 <= k < |pkgs| ==>
      pkgs[k].JString? && NormaliseAll(pkgs).value[k] == ReplaceChar(pkgs[k].s, '-', '_')
  {
    if pkgs != [] {
      NormalisedNames(pkgs[..|pkgs| - 1]);
    }
  }

  /** No collected name contains '-'. */
  lemma {:induction false} CudaNamesHaveNoDash(files: seq<TomlFile>)
    requires CudaPackagesOf(files).Ok?
    ensures forall name <- CudaPackagesOf(files).value :: '-' !in name
  {
    if files != [] {
      CudaNamesHaveNoDash(files[..|files| - 1]);
      var pkgs := PackagesOf(files[|files| - 1]);
      NormalisedNames(pkgs);
      forall k | 0 <= k < |pkgs|
        ensures '-' !in NormaliseAll(pkgs).value[k]
      {
        var n := NormaliseAll(pkgs).value[k];
        assert forall c :: 0 <= c < |n| ==> n[c] != '-';
      }
    }
  }

  /** Files that are missing or unparsable, or whose `cuda` is not a table of a list, contribute nothing. */
  lemma IgnoredFilesContributeNothing(files: seq<TomlFile>, f: TomlFile)
    requires PackagesOf(f) == []
    ensures CudaPackagesOf(files + [f]) == CudaPackagesOf(files)
  {
    assert (files + [f])[..|files|] == files;
    assert NormaliseAll([]) == Ok([]);
    if CudaPackagesOf(files).Ok? {
      assert CudaPackagesOf(files).value + [] == CudaPackagesOf(files).value;
    }
  }
}
