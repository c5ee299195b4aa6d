/** The DeployBundles task: deploy every immediate sub-directory of a path as
    its own metadata bundle, or freeze the same walk into a list of plan steps. */
module DeployBundles {
  import opened Wrappers
  import opened Strings
  import opened Ordering

  /** What DeployBundles can see of the disk: each directory path maps to its
      entries, each entry name to whether that entry is itself a directory. */
  datatype FileSystem = FileSystem(dirs: map<string, map<string, bool>>)

  /** An entry name as `os.listdir` returns it: non-empty and without `/`. */
  predicate PlainName(n: string) {
    |n| > 0 && '/' !in n
  }

  /** A file system the disk could present: every entry name is plain, and an entry
      is marked as a directory exactly when its joined path is a listed directory. */
  predicate ValidFileSystem(fs: FileSystem) {
    forall d, n :: d in fs.dirs && n in fs.dirs[d] ==>
      PlainName(n) && (fs.dirs[d][n] <==> PathJoin(d, n) in fs.dirs)
  }

  /** The project's repository metadata, copied into every frozen step. */
  datatype ProjectConfig = ProjectConfig(repoOwner: string, repoName: string, repoCommit: string)

  /** The plan step being frozen: the new steps hang below it. */
  datatype ParentStep = ParentStep(path: string, stepNum: string)

  /** One entry of `task_config["options"]["dependencies"]`. */
  datatype Dependency = Dependency(repoOwner: string, repoName: string, tag: string, subfolder: string)

  /** The structured `task_config` of a frozen step (kept as a value, not as JSON text). */
  datatype TaskConfig = TaskConfig(dependencies: seq<Dependency>)

  datatype Step = Step(
    name: string,
    path: string,
    stepNum: string,
    kind: string,
    isRequired: bool,
    taskClass: string,
    taskConfig: TaskConfig)

  /** What `freeze` promises of the step it builds for the `k`-th (0-based) sorted entry `item`. */
  ghost predicate DescribesEntry(s: Step, path: string, project: ProjectConfig, parent: ParentStep, k: nat, item: string)
  {
    && s.name == "Deploy " + path + "/" + Basename(item)
    && s.path == parent.path + "." + Basename(item)
    && s.stepNum == parent.stepNum + "." + NatToString(k + 1)
    && s.kind == MetadataKind
    && s.isRequired
    && s.taskClass == UpdateDependenciesClass
    && s.taskConfig == TaskConfig([Dependency(project.repoOwner, project.repoName, project.repoCommit,
                                              path + "/" + item)])
  }

  /** The body of `freeze`'s loop: the step for the `k`-th (0-based) sorted entry `item`. */
  function FrozenStep(path: string, project: ProjectConfig, parent: ParentStep, k: nat, item: string): (s: Step)
    ensures DescribesEntry(s, path, project, parent, k, item)
    ensures PlainName(item) ==>
              s.name == "Deploy " + path + "/" + item && s.path == parent.path + "." + item
    ensures |s.stepNum| > |parent.stepNum| && s.stepNum[..|parent.stepNum| + 1] == parent.stepNum + "."
    ensures DecimalValue(s.stepNum[|parent.stepNum| + 1..]) == k + 1
  {
    var name := Basename(item);
    assert (parent.stepNum + "." + NatToString(k + 1))[|parent.stepNum| + 1..] == NatToString(k + 1);
    var config := TaskConfig([Dependency(project.repoOwner, project.repoName,
                                         project.repoCommit, Join("/", [path, item]))]);
    assert Join("/", [path, item]) == path + "/" + item;
    Step("Deploy " + path + "/" + name, parent.path + "." + name,
         parent.stepNum + "." + NatToString(k + 1), MetadataKind, true,
         UpdateDependenciesClass, config)
  }

  datatype RunOutcome = Completed | Failed(bundle: string)

  const MetadataKind: string := "metadata"
  const UpdateDependenciesClass: string := "cumulusci.tasks.salesforce.UpdateDependencies"

  /** `os.path.join(a, b)` on POSIX paths. */
  function PathJoin(a: string, b: string): (r: string)
    ensures |b| > 0 && b[0] == '/' ==> r == b
    ensures !(|b| > 0 && b[0] == '/') ==> r == a + b || r == a + "/" + b
    ensures !(|b| > 0 && b[0] == '/') && |a| > 0 && a[|a| - 1] != '/' ==> r == a + "/" + b
    ensures !(|b| > 0 && b[0] == '/') && (|a| == 0 || a[|a| - 1] == '/') ==> r == a + b
  {
    if |b| > 0 && b[0] == '/' then b
    else if |a| == 0 || a[|a| - 1] == '/' then a + b
    else a + "/" + b
  }

  /** The entries of `names` that the listing marks as directories, in the same order. */
  function DirectoryNames(names: seq<string>, listing: map<string, bool>): seq<string>
  {
    if |names| == 0 then []
    else (if names[0] in listing && listing[names[0]] then [names[0]] else [])
         + DirectoryNames(names[1..], listing)
  }

  predicate IsDirectory(listing: map<string, bool>, n: string) {
    n in listing && listing[n]
  }

  /** Exactly the directory entries survive the filter: files never reach a deploy. */
  lemma {:induction false} DirectoryNamesMembers(names: seq<string>, listing: map<string, bool>, n: string)
    ensures n in DirectoryNames(names, listing) <==> n in names && IsDirectory(listing, n)
  {
    if |names| > 0 {
      DirectoryNamesMembers(names[1..], listing, n);
      assert names == [names[0]] + names[1..];
    }
  }

  lemma {:induction false} DirectoryNamesAppend(a: seq<string>, b: seq<string>, listing: map<string, bool>)
    ensures DirectoryNames(a + b, listing) == DirectoryNames(a, listing) + DirectoryNames(b, listing)
  {
    if |a| > 0 {
      assert (a + b)[1..] == a[1..] + b;
      DirectoryNamesAppend(a[1..], b, listing);
    } else {
      assert a + b == b;
    }
  }

  /** Filtering keeps the sorted order, so each bundle is deployed once and in name order. */
  lemma {:induction false} DirectoryNamesStrictlySorted(names: seq<string>, listing: map<string, bool>)
    requires StrictlySorted(names)
    ensures StrictlySorted(DirectoryNames(names, listing))
  {
    if |names| > 0 {
      DirectoryNamesStrictlySorted(names[1..], listing);
      var rest := DirectoryNames(names[1..], listing);
      forall k | 0 <= k < |rest|
        ensures Less(names[0], rest[k])
      {
        DirectoryNamesMembers(names[1..], listing, rest[k]);
        var j :| 0 <= j < |names[1..]| && names[1..][j] == rest[k];
        assert names[j + 1] == rest[k];
      }
    }
  }

  /** When the listing holds only directories, deploying visits exactly the frozen steps' entries. */
  lemma {:induction false} DirectoryNamesAllDirectories(names: seq<string>, listing: map<string, bool>)
    requires forall k :: 0 <= k < |names| ==> IsDirectory(listing, names[k])
    ensures DirectoryNames(names, listing) == names
  {
    if |names| > 0 {
      DirectoryNamesAllDirectories(names[1..], listing);
      assert names == [names[0]] + names[1..];
    }
  }

  /** The full path of each bundle, as `_run_task` hands it to `_deploy_bundle`. */
  function BundlePaths(root: string, names: seq<string>): seq<string>
  {
    seq(|names|, k requires 0 <= k < |names| => PathJoin(root, names[k]))
  }

  /** Joining one directory to two different plain names gives two different paths. */
  lemma PathJoinInjective(root: string, a: string, b: string)
    requires PlainName(a) && PlainName(b) && a != b
    ensures PathJoin(root, a) != PathJoin(root, b)
  {
    var sep := if |root| == 0 || root[|root| - 1] == '/' then root else root + "/";
    assert PathJoin(root, a) == sep + a && PathJoin(root, b) == sep + b;
    assert (sep + a)[|sep|..] == a && (sep + b)[|sep|..] == b;
  }

  /** Different plain names give different bundle paths, so no bundle is deployed twice. */
  lemma BundlePathsDistinct(root: string, names: seq<string>)
    requires forall k :: 0 <= k < |names| ==> PlainName(names[k])
    requires Distinct(names)
    ensures |BundlePaths(root, names)| == |names|
    ensures Distinct(BundlePaths(root, names))
  {
    var r := BundlePaths(root, names);
    forall i, j | 0 <= i < j < |r|
      ensures r[i] != r[j]
    {
      PathJoinInjective(root, names[i], names[j]);
    }
  }

  lemma BundlePathsAppend(root: string, a: seq<string>, b: seq<string>)
    ensures BundlePaths(root, a + b) == BundlePaths(root, a) + BundlePaths(root, b)
  {
  }

  /** One more name adds its bundle path when it is a directory, and nothing otherwise. */
  lemma BundlesStep(root: string, names: seq<string>, i: nat, listing: map<string, bool>)
    requires i < |names|
    ensures BundlePaths(root, DirectoryNames(names[..i + 1], listing))
            == BundlePaths(root, DirectoryNames(names[..i], listing))
               + if IsDirectory(listing, names[i]) then [PathJoin(root, names[i])] else []
  {
    assert names[..i] + [names[i]] == names[..i + 1];
    DirectoryNamesAppend(names[..i], [names[i]], listing);
    assert [names[i]][1..] == [];
    BundlePathsAppend(root, DirectoryNames(names[..i], listing), DirectoryNames([names[i]], listing));
  }

  /** The bundles of a listing are those of a prefix followed by those of the rest. */
  lemma BundlesSplit(root: string, names: seq<string>, i: nat, listing: map<string, bool>)
    requires i <= |names|
    ensures BundlePaths(root, DirectoryNames(names, listing))
            == BundlePaths(root, DirectoryNames(names[..i], listing))
               + BundlePaths(root, DirectoryNames(names[i..], listing))
  {
    assert names[..i] + names[i..] == names;
    DirectoryNamesAppend(names[..i], names[i..], listing);
    BundlePathsAppend(root, DirectoryNames(names[..i], listing), DirectoryNames(names[i..], listing));
  }

  /** On a valid file system `_run_task` deploys every bundle path at most once:
      the sorted directory entries are distinct plain names, so their joined paths are too. */
  lemma EachBundleDeployedOnce(fs: FileSystem, full: string, failing: set<string>)
    requires ValidFileSystem(fs) && full in fs.dirs
    ensures var listing := fs.dirs[full];
            var bundles := BundlePaths(full, DirectoryNames(SortedSeq(listing.Keys), listing));
            Distinct(bundles) && Distinct(Attempts(bundles, failing))
  {
    var listing := fs.dirs[full];
    var names := SortedSeq(listing.Keys);
    var dirs := DirectoryNames(names, listing);
    DirectoryNamesStrictlySorted(names, listing);
    forall i, j | 0 <= i < j < |dirs|
      ensures dirs[i] != dirs[j]
    {
      LessIrreflexive(dirs[i]);
    }
    forall k | 0 <= k < |dirs|
      ensures PlainName(dirs[k])
    {
      DirectoryNamesMembers(names, listing, dirs[k]);
    }
    BundlePathsDistinct(full, dirs);
    var bundles := BundlePaths(full, dirs);
    AttemptsPrefix(bundles, failing);
    var a := Attempts(bundles, failing);
    forall i, j | 0 <= i < j < |a|
      ensures a[i] != a[j]
    {
      assert a[i] == bundles[i] && a[j] == bundles[j];
    }
  }

  /** The deploys attempted over `paths` when those in `failing` fail: all of them
      up to and including the first failure, none after it. */
  function Attempts(paths: seq<string>, failing: set<string>): seq<string>
  {
    if |paths| == 0 then []
    else if paths[0] in failing then [paths[0]]
    else [paths[0]] + Attempts(paths[1..], failing)
  }

  lemma {:induction false} AttemptsPassing(paths: seq<string>, rest: seq<string>, failing: set<string>)
    requires forall k :: 0 <= k < |paths| ==> paths[k] !in failing
    ensures Attempts(paths + rest, failing) == paths + Attempts(rest, failing)
  {
    if |paths| > 0 {
      assert (paths + rest)[1..] == paths[1..] + rest;
      AttemptsPassing(paths[1..], rest, failing);
    } else {
      assert paths + rest == rest;
    }
  }

  /** The first failing bundle is the last one attempted. */
  lemma AttemptsStopAtFailure(done: seq<string>, x: string, later: seq<string>, failing: set<string>)
    requires forall k :: 0 <= k < |done| ==> done[k] !in failing
    requires x in failing
    ensures Attempts(done + ([x] + later), failing) == done + [x]
    ensures (done + ([x] + later))[|done|] == x
  {
    AttemptsPassing(done, [x] + later, failing);
  }

  /** The walk over `names` ends at the `i`-th name when that is the first failing bundle. */
  lemma WalkStopsAt(root: string, names: seq<string>, i: nat, listing: map<string, bool>, failing: set<string>)
    requires i < |names| && IsDirectory(listing, names[i]) && PathJoin(root, names[i]) in failing
    requires var done := BundlePaths(root, DirectoryNames(names[..i], listing));
             forall k :: 0 <= k < |done| ==> done[k] !in failing
    ensures var bundles := BundlePaths(root, DirectoryNames(names, listing));
            && Attempts(bundles, failing)
               == BundlePaths(root, DirectoryNames(names[..i], listing)) + [PathJoin(root, names[i])]
            && PathJoin(root, names[i]) in bundles
            && !(forall k :: 0 <= k < |bundles| ==> bundles[k] !in failing)
  {
    var done := BundlePaths(root, DirectoryNames(names[..i], listing));
    var later := BundlePaths(root, DirectoryNames(names[i + 1..], listing));
    BundlesStep(root, names, i, listing);
    BundlesSplit(root, names, i + 1, listing);
    assert BundlePaths(root, DirectoryNames(names, listing)) == done + ([PathJoin(root, names[i])] + later);
    AttemptsStopAtFailure(done, PathJoin(root, names[i]), later, failing);
  }

  /** A walk in which no bundle fails attempts every bundle. */
  lemma WalkCompletes(root: string, names: seq<string>, listing: map<string, bool>, failing: set<string>)
    requires forall k :: 0 <= k < |DirectoryNames(names, listing)| ==>
               BundlePaths(root, DirectoryNames(names, listing))[k] !in failing
    ensures Attempts(BundlePaths(root, DirectoryNames(names, listing)), failing)
            == BundlePaths(root, DirectoryNames(names, listing))
  {
    var bundles := BundlePaths(root, DirectoryNames(names, listing));
    AttemptsPassing(bundles, [], failing);
    assert bundles + [] == bundles;
  }

  /** A failure halts the walk: the attempts are a prefix of the bundles, all of
      them when none fails, and otherwise they end at the first failing one. */
  lemma {:induction false} AttemptsPrefix(paths: seq<string>, failing: set<string>)
    ensures Attempts(paths, failing) <= paths
    ensures (forall k :: 0 <= k < |paths| ==> paths[k] !in failing) ==> Attempts(paths, failing) == paths
    ensures (exists k :: 0 <= k < |paths| && paths[k] in failing) ==>
              var a := Attempts(paths, failing);
              && |a| > 0 && a[|a| - 1] in failing
              && forall k :: 0 <= k < |a| - 1 ==> a[k] !in failing
  {
    if |paths| > 0 && paths[0] !in failing {
      AttemptsPrefix(paths[1..], failing);
      assert paths == [paths[0]] + paths[1..];
      if exists k :: 0 <= k < |paths| && paths[k] in failing {
        var k :| 0 <= k < |paths| && paths[k] in failing;
        assert paths[1..][k - 1] in failing;
      } else {
        assert forall k :: 0 <= k < |paths[1..]| ==> paths[1..][k] == paths[k + 1];
      }
    }
  }

  /** The metadata deploy service: it records every bundle it is asked to deploy,
      and the deploys of the bundles in `failing` fail. */
  class BundleApi {
    var deployed: seq<string>
    const failing: set<string>

    constructor (failing: set<string>)
      ensures deployed == [] && this.failing == failing
    {
      deployed := [];
      this.failing := failing;
    }

    method Deploy(bundlePath: string) returns (ok: bool)
      modifies this
      ensures deployed == old(deployed) + [bundlePath]
      ensures ok == (bundlePath !in failing)
    {
      deployed := deployed + [bundlePath];
      ok := bundlePath !in failing;
    }
  }

  class DeployBundlesTask {
    /** The `path` option: the parent directory of the bundles. */
    const path: string
    const project: ProjectConfig
    const api: BundleApi

    constructor (path: string, project: ProjectConfig, api: BundleApi)
      ensures this.path == path && this.project == project && this.api == api
    {
      this.path := path;
      this.project := project;
      this.api := api;
    }

    /** `_deploy_bundle`: one deploy of the bundle at `bundlePath`. */
    method DeployBundle(bundlePath: string) returns (ok: bool)
      modifies api
      ensures api.deployed == old(api.deployed) + [bundlePath]
      ensures ok == (bundlePath !in api.failing)
    {
      ok := api.Deploy(bundlePath);
    }

    /** `_run_task`: a missing parent directory is skipped; otherwise each directory
        entry is deployed in sorted name order until a deploy fails. */
    method RunTask(fs: FileSystem, pwd: string) returns (r: RunOutcome)
      modifies api
      ensures var full := PathJoin(pwd, path);
              full !in fs.dirs ==> r == Completed && api.deployed == old(api.deployed)
      ensures var full := PathJoin(pwd, path);
              full in fs.dirs ==>
                var listing := fs.dirs[full];
                var bundles := BundlePaths(full, DirectoryNames(SortedSeq(listing.Keys), listing));
                && api.deployed == old(api.deployed) + Attempts(bundles, api.failing)
                && (r == Completed <==> forall k :: 0 <= k < |bundles| ==> bundles[k] !in api.failing)
                && (r.Failed? ==> r.bundle in api.failing && r.bundle in bundles)
                && (r.Failed? ==> var tried := Attempts(bundles, api.failing);
                                  |tried| > 0 && r.bundle == tried[|tried| - 1])
    {
      var full := PathJoin(pwd, path);
      if full !in fs.dirs {
        return Completed;
      }
      var listing := fs.dirs[full];
      var names := SortedListing(listing);
      r := DeployEach(full, names, listing);
    }

    /** The loop of `_run_task` over the sorted listing: files are skipped with
        `continue`, a failing deploy ends the walk. */
    method DeployEach(full: string, names: seq<string>, listing: map<string, bool>) returns (r: RunOutcome)
      modifies api
      ensures var bundles := BundlePaths(full, DirectoryNames(names, listing));
              && api.deployed == old(api.deployed) + Attempts(bundles, api.failing)
              && (r == Completed <==> forall k :: 0 <= k < |bundles| ==> bundles[k] !in api.failing)
              && (r.Failed? ==> r.bundle in api.failing && r.bundle in bundles)
              && (r.Failed? ==> var tried := Attempts(bundles, api.failing);
                                |tried| > 0 && r.bundle == tried[|tried| - 1])
    {
      ghost var done: seq<string> := [];
      for i := 0 to |names|
        invariant done == BundlePaths(full, DirectoryNames(names[..i], listing))
        invariant api.deployed == old(api.deployed) + done
        invariant forall k :: 0 <= k < |done| ==> done[k] !in api.failing
      {
        BundlesStep(full, names, i, listing);
        if !IsDirectory(listing, names[i]) {
          continue;
        }
        var itemPath := PathJoin(full, names[i]);
        var ok := DeployBundle(itemPath);
        if !ok {
          WalkStopsAt(full, names, i, listing, api.failing);
          return Failed(itemPath);
        }
        done := done + [itemPath];
      }
      assert names[..|names|] == names;
      WalkCompletes(full, names, listing, api.failing);
      r := Completed;
    }

    /** `freeze`: one plan step per listed entry (files included), numbered from 1
        in sorted name order. An empty `path` option or a missing directory makes the
        listing fail. */
    method Freeze(fs: FileSystem, pwd: string, step: ParentStep) returns (r: Result<seq<Step>, string>)
      ensures r.Failure? <==> path == "" || PathJoin(pwd, path) !in fs.dirs
      ensures r.Failure? ==> r.error == path
      ensures r.Success? ==>
                var names := SortedSeq(fs.dirs[PathJoin(pwd, path)].Keys);
                && |r.value| == |names|
                && forall k :: 0 <= k < |names| ==> DescribesEntry(r.value[k], path, project, step, k, names[k])
    {
      var full := PathJoin(pwd, path);
      if path == "" || full !in fs.dirs {
        return Failure(path);
      }
      var names := SortedListing(fs.dirs[full]);
      var steps: seq<Step> := [];
      for i := 0 to |names|
        invariant |steps| == i
        invariant forall k :: 0 <= k < i ==> DescribesEntry(steps[k], path, project, step, k, names[k])
      {
        steps := steps + [FrozenStep(path, project, step, i, names[i])];
      }
      r := Success(steps);
    }
  }

  /** The dotted step numbers of a frozen plan are pairwise different: the k-th carries index k + 1. */
  lemma StepNumbersDistinct(parent: string, i: nat, j: nat)
    requires i != j
    ensures parent + "." + NatToString(i + 1) != parent + "." + NatToString(j + 1)
  {
    assert NatToString(i + 1) == (parent + "." + NatToString(i + 1))[|parent| + 1..];
    assert NatToString(j + 1) == (parent + "." + NatToString(j + 1))[|parent| + 1..];
  }

  /** Two entries of one listing never share a frozen step's plan path or step number. */
  lemma FrozenStepsDiffer(path: string, project: ProjectConfig, parent: ParentStep,
                          i: nat, j: nat, a: string, b: string)
    requires i != j && PlainName(a) && PlainName(b) && a != b
    ensures FrozenStep(path, project, parent, i, a).path != FrozenStep(path, project, parent, j, b).path
    ensures FrozenStep(path, project, parent, i, a).stepNum != FrozenStep(path, project, parent, j, b).stepNum
  {
    var n := |parent.path| + 1;
    assert (parent.path + "." + a)[n..] == a;
    assert (parent.path + "." + b)[n..] == b;
  }

  /** Deploy order and plan order agree: with only directories in the listing, the k-th
      bundle `_run_task` deploys is the entry of the k-th frozen step. */
  lemma DeployOrderMatchesFreeze(listing: map<string, bool>)
    requires forall n :: n in listing ==> listing[n]
    ensures DirectoryNames(SortedSeq(listing.Keys), listing) == SortedSeq(listing.Keys)
  {
    var names := SortedSeq(listing.Keys);
    assert forall k :: 0 <= k < |names| ==> names[k] in listing;
    DirectoryNamesAllDirectories(names, listing);
  }

  /** A file in the listing gets a plan step but no deploy, so the numbering diverges:
      with a file `a` and a directory `b`, step 1 is `a`, yet the first deploy is `b`. */
  lemma FreezeCountsFiles()
    ensures var listing := map["a" := false, "b" := true];
            SortedSeq(listing.Keys) == ["a", "b"]
            && DirectoryNames(SortedSeq(listing.Keys), listing) == ["b"]
  {
    var listing := map["a" := false, "b" := true];
    assert Less("a", "b");
    StrictlySortedUnique(["a", "b"], SortedSeq(listing.Keys));
    assert ["a", "b"][1..] == ["b"];
  }
}
