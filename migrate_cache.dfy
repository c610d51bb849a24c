/** `prime_cache` of migrate.py: for every repository type in use, update the pseudo
    cache directory with a tolerated `git pull` if it exists, and otherwise clone the
    repository from repoSpanner straight into it, with the project's region set only for
    the duration of the clone. */
module MigrateCache {
  import opened Outcomes
  import opened Loops
  import opened Process
  import opened Bridge
  import opened Paths
  import opened FileSystems
  import opened Registry
  import opened Clone

  /** The cache directories and the subprocess calls issued so far. */
  datatype Cache = Cache(entries: Entries, calls: seq<Invocation>)

  /** The pull of an existing cache directory, through `runcmd`. */
  function PullCall(w: World, loc: Location, cacheDir: string): (call: Invocation)
  {
    Invocation(["git", "pull"], Some(cacheDir), Some(w.environ + BridgeEnvironment(loc.info)))
  }

  /** One iteration of the loop over REPOTYPES.  The pull may fail and is not raised; a
      failing clone raises. */
  function PrimeOne(w: World, p: Project, region: string, s: Cache, t: string): (r: Run<Cache>)
  {
    if t !in p.repoPaths then Run(s, Pass)
    else
      var cacheDir := CacheDir(w.pseudoFolder, t, p.path);
      var loc := w.location(p.fullname, t, region);
      if cacheDir in s.entries then
        var call := PullCall(w, loc, cacheDir);
        var refs := w.remoteRefs(w.repoName(p.fullname, t));
        Run(Cache(Pulled(s.entries, cacheDir, w.exitCode(call), refs), s.calls + [call]), Pass)
      else
        var c := CloneResult(w, p.fullname, t, region, true, cacheDir, s.entries);
        Run(Cache(c.state, s.calls + [CloneCall(w, p.fullname, t, region, cacheDir)]), c.outcome)
  }

  function PrimeStep(w: World, p: Project, region: string): (step: (Cache, string) -> Run<Cache>)
  {
    (s: Cache, t: string) => PrimeOne(w, p, region, s, t)
  }

  /** The existing cache directory of `t` is updated with `git pull`, whose failure is
      tolerated. */
  method PullCache(w: World, project: Project, region: string, t: string, fs: FileSystem,
                   calls: seq<Invocation>)
    returns (calls': seq<Invocation>)
    requires t in project.repoPaths && CacheDir(w.pseudoFolder, t, project.path) in fs.entries
    modifies fs
    ensures Run(Cache(fs.entries, calls'), Pass) == PrimeOne(w, project, region, Cache(old(fs.entries), calls), t)
  {
    var cacheDir := CacheDir(w.pseudoFolder, t, project.path);
    var loc := w.location(project.fullname, t, region);
    var env := BridgeEnvironment(loc.info);
    assert "USER" in env;
    var call, pulled := RunCmd(w.environ, cacheDir, ["git", "pull"], Some(env), true, w.exitCode);
    assert call == PullCall(w, loc, cacheDir);
    fs.Pull(cacheDir, w.exitCode(call), w.remoteRefs(w.repoName(project.fullname, t)));
    calls' := calls + [call];
  }

  /** The missing cache directory of `t` is cloned from repoSpanner, with the project's
      region set for the clone and cleared afterwards, whether the clone raised or not. */
  method CloneCache(w: World, project: Project, region: string, t: string, fs: FileSystem,
                    calls: seq<Invocation>)
    returns (calls': seq<Invocation>, r: Outcome)
    requires t in project.repoPaths && CacheDir(w.pseudoFolder, t, project.path) !in fs.entries
    modifies project, fs
    ensures Run(Cache(fs.entries, calls'), r) == PrimeOne(w, project, region, Cache(old(fs.entries), calls), t)
    ensures project.repospannerRegion == None
  {
    var cacheDir := CacheDir(w.pseudoFolder, t, project.path);
    project.repospannerRegion := Some(region);
    var call;
    call, r := RepospannerClone(w, project, t, true, cacheDir, fs);
    project.repospannerRegion := None;
    calls' := calls + [call];
  }

  /** One pass of the loop of `prime_cache` over the repository type `t`, after the
      calls `calls`. */
  method PrimeRepoType(w: World, project: Project, region: string, t: string, fs: FileSystem,
                       calls: seq<Invocation>)
    returns (calls': seq<Invocation>, r: Outcome)
    modifies project, fs
    ensures Run(Cache(fs.entries, calls'), r) == PrimeOne(w, project, region, Cache(old(fs.entries), calls), t)
    ensures project.repospannerRegion == None || project.repospannerRegion == old(project.repospannerRegion)
  {
    calls', r := calls, Pass;
    var currentdir := project.RepoPath(t);
    if currentdir.None? {
      return;
    }
    var cacheDir := CacheDir(w.pseudoFolder, t, project.path);
    if fs.Exists(cacheDir) {
      calls' := PullCache(w, project, region, t, fs, calls);
    } else {
      calls', r := CloneCache(w, project, region, t, fs, calls);
    }
  }

  /** The loop of `prime_cache` after `i` passes that did not raise: one more pass. */
  method PrimeNext(w: World, project: Project, region: string, types: seq<string>, i: nat,
                   ghost init: Cache, fs: FileSystem, calls: seq<Invocation>)
    returns (calls': seq<Invocation>, r: Outcome)
    requires i < |types|
    requires RunAll(PrimeStep(w, project, region), init, types[..i]) == Run(Cache(fs.entries, calls), Pass)
    modifies project, fs
    ensures RunAll(PrimeStep(w, project, region), init, types[..i + 1]) == Run(Cache(fs.entries, calls'), r)
    ensures project.repospannerRegion == None || project.repospannerRegion == old(project.repospannerRegion)
  {
    PassingPrefix(PrimeStep(w, project, region), init, types, i);
    assert PrimeStep(w, project, region)(Cache(fs.entries, calls), types[i]) ==
      PrimeOne(w, project, region, Cache(fs.entries, calls), types[i]);
    calls', r := PrimeRepoType(w, project, region, types[i], fs, calls);
  }

  /** `prime_cache(args, project)` with `args.region == region`. */
  method PrimeCache(w: World, project: Project, region: string, fs: FileSystem)
    returns (calls: seq<Invocation>, r: Outcome)
    modifies project, fs
    ensures Run(Cache(fs.entries, calls), r) ==
      RunAll(PrimeStep(w, project, region), Cache(old(fs.entries), []), w.repoTypes)
    ensures project.repospannerRegion == None || project.repospannerRegion == old(project.repospannerRegion)
  {
    var types := w.repoTypes;
    ghost var init := Cache(fs.entries, []);
    calls := [];
    var i := 0;
    while i < |types|
      invariant 0 <= i <= |types|
      invariant RunAll(PrimeStep(w, project, region), init, types[..i]) == Run(Cache(fs.entries, calls), Pass)
      invariant project.repospannerRegion == None || project.repospannerRegion == old(project.repospannerRegion)
    {
      calls, r := PrimeNext(w, project, region, types, i, init, fs, calls);
      if r.Fail? {
        StaysFailed(PrimeStep(w, project, region), init, types, i + 1);
        return;
      }
      i := i + 1;
    }
    assert types[..|types|] == types;
    r := Pass;
  }

  /** Every directory of `e` is still in `e2`, holding at least the references it held. */
  predicate Grows(e: Entries, e2: Entries)
  {
    forall q :: q in e ==> q in e2 && e[q].refs <= e2[q].refs
  }

  lemma PrimeOneGrows(w: World, p: Project, region: string, s: Cache, t: string)
    ensures Grows(s.entries, PrimeOne(w, p, region, s, t).state.entries)
  {
    if t in p.repoPaths {
      var cacheDir := CacheDir(w.pseudoFolder, t, p.path);
      if cacheDir !in s.entries {
        var c := CloneResult(w, p.fullname, t, region, true, cacheDir, s.entries);
        assert PrimeOne(w, p, region, s, t).state.entries == c.state;
        if c.outcome.Pass? {
          assert c.state == s.entries[cacheDir := ClonedTree(w, p.fullname, t, region)];
        }
      }
    }
  }

  /** Priming never removes a directory and never loses a reference: a mirror that was
      cloned and later updated holds at least the references it was cloned with. */
  lemma {:induction false} PrimeGrows(w: World, p: Project, region: string, s: Cache, types: seq<string>)
    ensures Grows(s.entries, RunAll(PrimeStep(w, p, region), s, types).state.entries)
    decreases |types|
  {
    if types != [] {
      var front := types[..|types| - 1];
      PrimeGrows(w, p, region, s, front);
      var prev := RunAll(PrimeStep(w, p, region), s, front);
      if prev.outcome.Pass? {
        PrimeOneGrows(w, p, region, prev.state, types[|types| - 1]);
        assert PrimeStep(w, p, region)(prev.state, types[|types| - 1]) ==
          PrimeOne(w, p, region, prev.state, types[|types| - 1]);
      }
    }
  }

  /** When priming returns normally, every repository type in use has its cache
      directory. */
  lemma {:induction false} PrimeInstalls(w: World, p: Project, region: string, s: Cache, types: seq<string>)
    ensures var r := RunAll(PrimeStep(w, p, region), s, types);
            r.outcome.Pass? ==>
              forall t :: t in types && t in p.repoPaths ==> CacheDir(w.pseudoFolder, t, p.path) in r.state.entries
    decreases |types|
  {
    if types != [] {
      var front := types[..|types| - 1];
      var last := types[|types| - 1];
      PrimeInstalls(w, p, region, s, front);
      var prev := RunAll(PrimeStep(w, p, region), s, front);
      if prev.outcome.Pass? {
        var r := PrimeOne(w, p, region, prev.state, last);
        assert PrimeStep(w, p, region)(prev.state, last) == r;
        PrimeOneGrows(w, p, region, prev.state, last);
        forall t | t in types && t in p.repoPaths && r.outcome.Pass?
          ensures CacheDir(w.pseudoFolder, t, p.path) in r.state.entries
        {
          if t != last {
            assert t in front by { assert types == front + [last]; }
          }
        }
      }
    }
  }

  /** Priming a repository type whose cache directory is missing clones it. */
  lemma PrimeAbsentClones(w: World, p: Project, region: string, t: string, e: Entries)
    requires t in p.repoPaths
    requires CacheDir(w.pseudoFolder, t, p.path) !in e
    requires w.exitCode(CloneCall(w, p.fullname, t, region, CacheDir(w.pseudoFolder, t, p.path))) == 0
    ensures var cacheDir := CacheDir(w.pseudoFolder, t, p.path);
            var r := RunAll(PrimeStep(w, p, region), Cache(e, []), [t]);
            && r.outcome.Pass? && r.state.calls == [CloneCall(w, p.fullname, t, region, cacheDir)]
            && r.state.entries == e[cacheDir := ClonedTree(w, p.fullname, t, region)]
  {
    RunOne(PrimeStep(w, p, region), Cache(e, []), t);
  }

  /** Priming a repository type whose cache directory exists pulls into it, and the pull
      loses no reference. */
  lemma PrimePresentPulls(w: World, p: Project, region: string, t: string, e: Entries)
    requires t in p.repoPaths
    requires CacheDir(w.pseudoFolder, t, p.path) in e
    ensures var cacheDir := CacheDir(w.pseudoFolder, t, p.path);
            var r := RunAll(PrimeStep(w, p, region), Cache(e, []), [t]);
            && r.outcome.Pass? && r.state.calls == [PullCall(w, w.location(p.fullname, t, region), cacheDir)]
            && cacheDir in r.state.entries && e[cacheDir].refs <= r.state.entries[cacheDir].refs
  {
    RunOne(PrimeStep(w, p, region), Cache(e, []), t);
  }

  /** Priming an absent cache twice: the first run clones, the second pulls, and the
      mirror keeps every reference it was cloned with. */
  lemma PrimeThenUpdate(w: World, p: Project, region: string, t: string, e: Entries)
    requires t in p.repoPaths
    requires CacheDir(w.pseudoFolder, t, p.path) !in e
    requires w.exitCode(CloneCall(w, p.fullname, t, region, CacheDir(w.pseudoFolder, t, p.path))) == 0
    ensures var cacheDir := CacheDir(w.pseudoFolder, t, p.path);
            var first := RunAll(PrimeStep(w, p, region), Cache(e, []), [t]);
            var second := RunAll(PrimeStep(w, p, region), Cache(first.state.entries, []), [t]);
            && first.outcome.Pass? && second.outcome.Pass?
            && cacheDir in second.state.entries
            && first.state.entries[cacheDir].refs <= second.state.entries[cacheDir].refs
  {
    PrimeAbsentClones(w, p, region, t, e);
    var first := RunAll(PrimeStep(w, p, region), Cache(e, []), [t]);
    PrimePresentPulls(w, p, region, t, first.state.entries);
  }
}
