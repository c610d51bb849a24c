/** primecache.py: rebuild the pseudo cache of every project already in repoSpanner whose
    full name matches a pattern.  For each repository type in use, a fresh clone is made
    in a staging directory and then swapped into place, the old cache passing through
    "<cache>.old".  Its `runcmd` is the same function as migrate.py's (Process.RunCmd)
    and is never called. */
module Primecache {
  import opened Outcomes
  import opened Loops
  import opened Paths
  import opened FileSystems
  import opened Registry
  import opened Clone
  import Runner

  /** The swap up to the rename of the staging clone: an existing cache directory is moved
      aside to ".old", unless a left-over ".old" is in the way, which raises. */
  function PlaceStaged(e: Entries, cacheDir: string): (r: Run<Entries>)
  {
    var backup := BackupDir(cacheDir);
    var aside :=
      if cacheDir !in e then Run(e, Pass)
      else if backup in e then Run(e, Fail(OldCacheExists(backup)))
      else Renamed(e, cacheDir, backup);
    if aside.outcome.Fail? then aside else Renamed(aside.state, StagingDir(cacheDir), cacheDir)
  }

  /** The swap as written: ".old" is removed whether or not the swap made one. */
  function SwapAsWritten(e: Entries, cacheDir: string): (r: Run<Entries>)
  {
    var placed := PlaceStaged(e, cacheDir);
    if placed.outcome.Fail? then placed else RemovedTree(placed.state, BackupDir(cacheDir))
  }

  /** The swap as evidently intended: ".old" is removed when there is one. */
  function Swap(e: Entries, cacheDir: string): (r: Run<Entries>)
  {
    var placed := PlaceStaged(e, cacheDir);
    if placed.outcome.Fail? || BackupDir(cacheDir) !in placed.state then placed
    else RemovedTree(placed.state, BackupDir(cacheDir))
  }

  /** As written, installing the first cache of a repository (no cache directory, no
      ".old") puts the staged clone in place and then raises, because the unconditional
      removal of ".old" finds nothing to remove. */
  lemma FirstSwapAsWrittenRaises(e: Entries, cacheDir: string)
    requires StagingDir(cacheDir) in e && cacheDir !in e && BackupDir(cacheDir) !in e
    ensures SwapAsWritten(e, cacheDir).outcome == Fail(FileNotFound(BackupDir(cacheDir)))
    ensures SwapAsWritten(e, cacheDir).state == (e - {StagingDir(cacheDir)})[cacheDir := e[StagingDir(cacheDir)]]
  {
    SwapPathsDistinct(cacheDir);
  }

  /** The corrected swap returns normally exactly when a staged clone is there and the
      cache directory and a left-over ".old" are not both present; it then leaves the
      staged clone as the cache, no staging directory, no ".old", and every other path as
      it was. */
  lemma SwapSpec(e: Entries, cacheDir: string)
    ensures Swap(e, cacheDir).outcome.Pass? <==>
            StagingDir(cacheDir) in e && !(cacheDir in e && BackupDir(cacheDir) in e)
    ensures Swap(e, cacheDir).outcome.Pass? ==>
            Swap(e, cacheDir).state == (e - {StagingDir(cacheDir), BackupDir(cacheDir)})[cacheDir := e[StagingDir(cacheDir)]]
  {
    SwapPathsDistinct(cacheDir);
    var staging, backup := StagingDir(cacheDir), BackupDir(cacheDir);
    var r := Swap(e, cacheDir);
    if r.outcome.Pass? {
      if cacheDir in e {
        var aside := (e - {cacheDir})[backup := e[cacheDir]];
        assert r.state == ((aside - {staging})[cacheDir := e[staging]]) - {backup};
      } else if backup in e {
        assert r.state == ((e - {staging})[cacheDir := e[staging]]) - {backup};
      }
    }
  }

  /** Where a cache directory existed, the correction changes nothing. */
  lemma SwapAgreesOnExistingCache(e: Entries, cacheDir: string)
    requires cacheDir in e
    ensures Swap(e, cacheDir) == SwapAsWritten(e, cacheDir)
  {
    SwapPathsDistinct(cacheDir);
  }

  /** Either swap touches only the cache directory, its staging directory and its ".old". */
  lemma SwapFrame(e: Entries, cacheDir: string, q: string)
    requires q != cacheDir && q != StagingDir(cacheDir) && q != BackupDir(cacheDir)
    ensures Unchanged(e, Swap(e, cacheDir).state, q)
    ensures Unchanged(e, SwapAsWritten(e, cacheDir).state, q)
  {
  }

  /** `q` is present in `e2` exactly when it is in `e`, with the same content. */
  predicate Unchanged(e: Entries, e2: Entries, q: string)
  {
    (q in e <==> q in e2) && (q in e ==> e[q] == e2[q])
  }

  /** One repository type in use (primecache.py:49-60): `_repospanner_clone` into the
      staging directory with the config set, then the swap. */
  function Install(w: World, p: Project, region: string, t: string, e: Entries): (r: Run<Entries>)
  {
    var cacheDir := CacheDir(w.pseudoFolder, t, p.path);
    var c := CloneResult(w, p.fullname, t, region, true, StagingDir(cacheDir), e);
    if c.outcome.Fail? then c else Swap(c.state, cacheDir)
  }

  /** The clone comes before any look at the cache directory or ".old": when it raises,
      that is what the repository type raises, and nothing has changed. */
  lemma InstallClonesFirst(w: World, p: Project, region: string, t: string, e: Entries)
    requires var staging := StagingDir(CacheDir(w.pseudoFolder, t, p.path));
             staging in e || w.exitCode(CloneCall(w, p.fullname, t, region, staging)) != 0
    ensures var c := CloneResult(w, p.fullname, t, region, true, StagingDir(CacheDir(w.pseudoFolder, t, p.path)), e);
            c.outcome.Fail? && Install(w, p, region, t, e) == Run(e, c.outcome)
  {
  }

  /** With a cache directory and a left-over ".old" both present, the repository type
      raises after cloning: the cache and ".old" are untouched and the fresh clone stays
      in the staging directory. */
  lemma InstallRefusesOldCache(w: World, p: Project, region: string, t: string, e: Entries)
    requires var cacheDir := CacheDir(w.pseudoFolder, t, p.path);
             && cacheDir in e && BackupDir(cacheDir) in e && StagingDir(cacheDir) !in e
             && w.exitCode(CloneCall(w, p.fullname, t, region, StagingDir(cacheDir))) == 0
    ensures var cacheDir := CacheDir(w.pseudoFolder, t, p.path);
            var r := Install(w, p, region, t, e);
            && r.outcome == Fail(OldCacheExists(BackupDir(cacheDir)))
            && r.state == e[StagingDir(cacheDir) := ClonedTree(w, p.fullname, t, region)]
  {
    SwapPathsDistinct(CacheDir(w.pseudoFolder, t, p.path));
  }

  /** Without a left-over staging directory or ".old", the repository type returns
      normally with the fresh clone as its cache directory, no staging directory, no
      ".old", and nothing else changed, whether or not a cache existed. */
  lemma InstallReplacesCache(w: World, p: Project, region: string, t: string, e: Entries)
    requires var cacheDir := CacheDir(w.pseudoFolder, t, p.path);
             && BackupDir(cacheDir) !in e && StagingDir(cacheDir) !in e
             && w.exitCode(CloneCall(w, p.fullname, t, region, StagingDir(cacheDir))) == 0
    ensures var cacheDir := CacheDir(w.pseudoFolder, t, p.path);
            var r := Install(w, p, region, t, e);
            && r.outcome.Pass?
            && r.state == e[cacheDir := ClonedTree(w, p.fullname, t, region)]
            && StagingDir(cacheDir) !in r.state && BackupDir(cacheDir) !in r.state
  {
    var cacheDir := CacheDir(w.pseudoFolder, t, p.path);
    SwapPathsDistinct(cacheDir);
    var staged := e[StagingDir(cacheDir) := ClonedTree(w, p.fullname, t, region)];
    assert Install(w, p, region, t, e) == Swap(staged, cacheDir);
    SwapSpec(staged, cacheDir);
    StagedThenSwapped(e, cacheDir, ClonedTree(w, p.fullname, t, region));
  }

  lemma StagedThenSwapped(e: Entries, cacheDir: string, tree: Tree)
    requires StagingDir(cacheDir) !in e && BackupDir(cacheDir) !in e
    ensures var staged := e[StagingDir(cacheDir) := tree];
            (staged - {StagingDir(cacheDir), BackupDir(cacheDir)})[cacheDir := tree] == e[cacheDir := tree]
  {
    SwapPathsDistinct(cacheDir);
    var staged := e[StagingDir(cacheDir) := tree];
    var lhs := (staged - {StagingDir(cacheDir), BackupDir(cacheDir)})[cacheDir := tree];
    assert lhs.Keys == e[cacheDir := tree].Keys;
  }

  /** One iteration of the loop over REPOTYPES: a type not in use is skipped. */
  function PrimeOne(w: World, p: Project, region: string, e: Entries, t: string): (r: Run<Entries>)
  {
    if t !in p.repoPaths then Run(e, Pass) else Install(w, p, region, t, e)
  }

  function PrimeStep(w: World, p: Project, region: string): (step: (Entries, string) -> Run<Entries>)
  {
    (e: Entries, t: string) => PrimeOne(w, p, region, e, t)
  }

  /** The cache directories, staging directories and ".old" of the types in use among
      `types`. */
  function SwapPaths(w: World, p: Project, types: seq<string>): (paths: set<string>)
    ensures forall t :: t in types && t in p.repoPaths ==> CacheDir(w.pseudoFolder, t, p.path) in paths
    decreases |types|
  {
    if types == [] then {}
    else
      var last := types[|types| - 1];
      var cacheDir := CacheDir(w.pseudoFolder, last, p.path);
      SwapPaths(w, p, types[..|types| - 1]) +
        (if last in p.repoPaths then {cacheDir, StagingDir(cacheDir), BackupDir(cacheDir)} else {})
  }

  /** One repository type changes nothing outside its own three paths, and a type not in
      use changes nothing at all. */
  lemma PrimeOneFrame(w: World, p: Project, region: string, e: Entries, t: string, q: string)
    requires q !in SwapPaths(w, p, [t])
    ensures Unchanged(e, PrimeOne(w, p, region, e, t).state, q)
  {
    assert [t][..0] == [];
    if t in p.repoPaths {
      var cacheDir := CacheDir(w.pseudoFolder, t, p.path);
      var c := CloneResult(w, p.fullname, t, region, true, StagingDir(cacheDir), e);
      if c.outcome.Pass? {
        SwapFrame(c.state, cacheDir, q);
      }
    }
  }

  /** Priming a project changes nothing outside the cache, staging and ".old" paths of
      its repository types in use; in particular a project with no type in use is left
      alone. */
  lemma {:induction false} PrimeFrame(w: World, p: Project, region: string, e: Entries, types: seq<string>, q: string)
    requires q !in SwapPaths(w, p, types)
    ensures Unchanged(e, RunAll(PrimeStep(w, p, region), e, types).state, q)
    decreases |types|
  {
    if types != [] {
      var front, last := types[..|types| - 1], types[|types| - 1];
      PrimeFrame(w, p, region, e, front, q);
      var prev := RunAll(PrimeStep(w, p, region), e, front);
      if prev.outcome.Pass? {
        assert [last][..0] == [];
        assert SwapPaths(w, p, [last]) <= SwapPaths(w, p, types);
        PrimeOneFrame(w, p, region, prev.state, last, q);
        assert PrimeStep(w, p, region)(prev.state, last) == PrimeOne(w, p, region, prev.state, last);
      }
    }
  }

  /** One pass of the loop over REPOTYPES, with the project's region set. */
  method PrimeRepoType(w: World, project: Project, t: string, fs: FileSystem) returns (r: Outcome)
    requires project.repospannerRegion.Some?
    modifies fs
    ensures Run(fs.entries, r) == PrimeOne(w, project, project.repospannerRegion.value, old(fs.entries), t)
  {
    r := Pass;
    var currentdir := project.RepoPath(t);
    if currentdir.None? {
      return;
    }
    var cacheDir := CacheDir(w.pseudoFolder, t, project.path);
    var tempdir := StagingDir(cacheDir);
    var call;
    call, r := RepospannerClone(w, project, t, true, tempdir, fs);
    if r.Fail? {
      return;
    }
    r := SwapIn(cacheDir, fs);
  }

  /** The swap of lines 55-60, with the removal of ".old" guarded. */
  method SwapIn(cacheDir: string, fs: FileSystem) returns (r: Outcome)
    modifies fs
    ensures Run(fs.entries, r) == Swap(old(fs.entries), cacheDir)
  {
    var backup := BackupDir(cacheDir);
    if fs.Exists(cacheDir) {
      if fs.Exists(backup) {
        r := Fail(OldCacheExists(backup));
        return;
      }
      r := fs.Rename(cacheDir, backup);
      if r.Fail? {
        return;
      }
    }
    r := fs.Rename(StagingDir(cacheDir), cacheDir);
    if r.Fail? || !fs.Exists(backup) {
      return;
    }
    r := fs.RmTree(backup);
  }

  /** The loop of `prime_cache` after `i` passes that did not raise: one more pass. */
  method PrimeNext(w: World, project: Project, types: seq<string>, i: nat, ghost init: Entries, fs: FileSystem)
    returns (r: Outcome)
    requires i < |types| && project.repospannerRegion.Some?
    requires RunAll(PrimeStep(w, project, project.repospannerRegion.value), init, types[..i]) == Run(fs.entries, Pass)
    modifies fs
    ensures RunAll(PrimeStep(w, project, project.repospannerRegion.value), init, types[..i + 1]) == Run(fs.entries, r)
  {
    var region := project.repospannerRegion.value;
    PassingPrefix(PrimeStep(w, project, region), init, types, i);
    assert PrimeStep(w, project, region)(fs.entries, types[i]) == PrimeOne(w, project, region, fs.entries, types[i]);
    r := PrimeRepoType(w, project, types[i], fs);
  }

  /** `prime_cache(project)`: the repository types in REPOTYPES order, the first that
      raises abandoning the rest. */
  method PrimeProjectCache(w: World, project: Project, fs: FileSystem) returns (r: Outcome)
    requires project.repospannerRegion.Some?
    modifies fs
    ensures Run(fs.entries, r) ==
      RunAll(PrimeStep(w, project, project.repospannerRegion.value), old(fs.entries), w.repoTypes)
  {
    var types := w.repoTypes;
    ghost var init := fs.entries;
    r := Pass;
    var i := 0;
    while i < |types|
      invariant 0 <= i <= |types|
      invariant RunAll(PrimeStep(w, project, project.repospannerRegion.value), init, types[..i]) == Run(fs.entries, Pass)
    {
      r := PrimeNext(w, project, types, i, init, fs);
      if r.Fail? {
        StaysFailed(PrimeStep(w, project, project.repospannerRegion.value), init, types, i + 1);
        return;
      }
      i := i + 1;
    }
    assert types[..|types|] == types;
    r := Pass;
  }

  /** A project of the query with the region it was read with. */
  datatype Target = Target(project: Project, region: string)

  /** The query `repospanner_region != None`, in the order of the registry. */
  function InRepoSpanner(registry: seq<Project>): (query: seq<Target>)
    reads registry
    ensures forall k :: 0 <= k < |query| ==>
              query[k].project in registry && query[k].project.repospannerRegion == Some(query[k].region)
    ensures forall k :: 0 <= k < |registry| && registry[k].repospannerRegion.Some? ==>
              Target(registry[k], registry[k].repospannerRegion.value) in query
    decreases |registry|
  {
    if registry == [] then []
    else
      var last := registry[|registry| - 1];
      InRepoSpanner(registry[..|registry| - 1]) +
        (if last.repospannerRegion.Some? then [Target(last, last.repospannerRegion.value)] else [])
  }

  /** The full names the pattern selects among `query`, in order. */
  function Selected(query: seq<Target>, matches: string -> bool): (names: seq<string>)
    decreases |query|
  {
    if query == [] then []
    else
      var last := query[|query| - 1].project;
      Selected(query[..|query| - 1], matches) + (if matches(last.fullname) then [last.fullname] else [])
  }

  lemma {:induction false} SelectedNames(query: seq<Target>, matches: string -> bool, n: string)
    ensures n in Selected(query, matches) <==>
            matches(n) && exists k :: 0 <= k < |query| && query[k].project.fullname == n
    decreases |query|
  {
    if query != [] {
      var front := query[..|query| - 1];
      SelectedNames(front, matches, n);
      assert forall k :: 0 <= k < |front| ==> front[k] == query[k];
      if exists k :: 0 <= k < |query| && query[k].project.fullname == n {
        var k :| 0 <= k < |query| && query[k].project.fullname == n;
        if k < |front| {
          assert front[k].project.fullname == n;
        }
      }
    }
  }

  /** The caches reached and each attempted project with what it raised (Pass if nothing). */
  datatype Primed = Primed(entries: Entries, runs: seq<(string, Outcome)>)

  /** One iteration of the loop of `main`: a project whose name does not match is
      skipped; what `prime_cache` raises is printed and the loop goes on. */
  function MainOne(w: World, matches: string -> bool, s: Primed, target: Target): (r: Run<Primed>)
  {
    var p := target.project;
    if !matches(p.fullname) then Run(s, Pass)
    else
      var r := RunAll(PrimeStep(w, p, target.region), s.entries, w.repoTypes);
      Run(Primed(r.state, s.runs + [(p.fullname, r.outcome)]), Pass)
  }

  function MainStep(w: World, matches: string -> bool): (step: (Primed, Target) -> Run<Primed>)
  {
    (s: Primed, target: Target) => MainOne(w, matches, s, target)
  }

  /** No project stops the loop of `main`: every selected project is attempted, in
      order, whatever the earlier ones raised. */
  lemma {:induction false} MainAttemptsAll(w: World, matches: string -> bool, s: Primed, query: seq<Target>)
    ensures var r := RunAll(MainStep(w, matches), s, query);
            r.outcome.Pass? && Runner.Fullnames(r.state.runs) == Runner.Fullnames(s.runs) + Selected(query, matches)
    decreases |query|
  {
    if query != [] {
      var front, last := query[..|query| - 1], query[|query| - 1];
      MainAttemptsAll(w, matches, s, front);
      var prev := RunAll(MainStep(w, matches), s, front);
      assert MainStep(w, matches)(prev.state, last) == MainOne(w, matches, prev.state, last);
      if matches(last.project.fullname) {
        var r := RunAll(PrimeStep(w, last.project, last.region), prev.state.entries, w.repoTypes);
        Runner.FullnamesAppend(prev.state.runs, (last.project.fullname, r.outcome));
      }
    }
  }

  const UsagePrefix := "Usage: "
  const UsageSuffix := " <project-match>"

  /** The loop of `main` after `i` projects: one more. */
  method MainNext(w: World, matches: string -> bool, query: seq<Target>, i: nat, ghost init: Primed,
                  fs: FileSystem, runs: seq<(string, Outcome)>)
    returns (runs': seq<(string, Outcome)>)
    requires i < |query| && query[i].project.repospannerRegion == Some(query[i].region)
    requires RunAll(MainStep(w, matches), init, query[..i]) == Run(Primed(fs.entries, runs), Pass)
    modifies fs
    ensures RunAll(MainStep(w, matches), init, query[..i + 1]) == Run(Primed(fs.entries, runs'), Pass)
  {
    var target := query[i];
    PassingPrefix(MainStep(w, matches), init, query, i);
    assert MainStep(w, matches)(Primed(fs.entries, runs), target) == MainOne(w, matches, Primed(fs.entries, runs), target);
    runs' := runs;
    if !matches(target.project.fullname) {
      return;
    }
    var outcome := PrimeProjectCache(w, target.project, fs);
    runs' := runs + [(target.project.fullname, outcome)];
  }

  /** `main` with command line `argv`: exactly one argument, the pattern, whose
      compiled `match` on a full name is `matches`.  The query is evaluated once. */
  method PrimeMain(w: World, argv: seq<string>, registry: seq<Project>, matches: string -> bool, fs: FileSystem)
    returns (runs: seq<(string, Outcome)>, r: Outcome)
    requires |argv| >= 1
    modifies fs
    ensures |argv| != 2 ==>
              r == Fail(SystemExit(UsagePrefix + argv[0] + UsageSuffix)) && runs == [] && fs.entries == old(fs.entries)
    ensures |argv| == 2 ==>
              r.Pass? && Run(Primed(fs.entries, runs), r) ==
              RunAll(MainStep(w, matches), Primed(old(fs.entries), []), InRepoSpanner(registry))
    ensures |argv| == 2 ==> Runner.Fullnames(runs) == Selected(InRepoSpanner(registry), matches)
  {
    runs := [];
    if |argv| != 2 {
      r := Fail(SystemExit(UsagePrefix + argv[0] + UsageSuffix));
      return;
    }
    var query := InRepoSpanner(registry);
    ghost var init := Primed(fs.entries, []);
    var i := 0;
    while i < |query|
      invariant 0 <= i <= |query|
      invariant RunAll(MainStep(w, matches), init, query[..i]) == Run(Primed(fs.entries, runs), Pass)
    {
      runs := MainNext(w, matches, query, i, init, fs, runs);
      i := i + 1;
    }
    assert query[..i] == query;
    r := Pass;
    MainAttemptsAll(w, matches, init, query);
  }
}
