/** `match_and_run` and `main` of migrate.py: select the projects not yet in repoSpanner
    whose full name matches, run the pipeline on each, and with failfast stop at the
    first one that raises. */
module Runner {
  import opened Outcomes
  import opened Loops
  import opened FileSystems
  import opened Registry
  import opened Verbosity
  import opened Pipeline
  import opened MigratePush

  const FailfastMessage := "Project failed with failfast"
  const InvalidRegionMessage := "Invalid repoSpanner region name"

  /** The query `repospanner_region == None`, in the order of the registry. */
  function Unmigrated(registry: seq<Project>): (query: seq<Project>)
    reads registry
    ensures forall k :: 0 <= k < |query| ==> query[k] in registry && query[k].repospannerRegion == None
    ensures forall k :: 0 <= k < |registry| && registry[k].repospannerRegion == None ==> registry[k] in query
    decreases |registry|
  {
    if registry == [] then []
    else
      var last := registry[|registry| - 1];
      Unmigrated(registry[..|registry| - 1]) + (if last.repospannerRegion == None then [last] else [])
  }

  /** The full names the pattern selects among `query`, in order. */
  function MatchingNames(query: seq<Project>, matches: string -> bool): (names: seq<string>)
    decreases |query|
  {
    if query == [] then []
    else
      var last := query[|query| - 1];
      MatchingNames(query[..|query| - 1], matches) + (if matches(last.fullname) then [last.fullname] else [])
  }

  lemma {:induction false} MatchingNamesSelect(query: seq<Project>, matches: string -> bool, n: string)
    ensures n in MatchingNames(query, matches) <==>
            matches(n) && exists p :: p in query && p.fullname == n
    decreases |query|
  {
    if query != [] {
      var front := query[..|query| - 1];
      var last := query[|query| - 1];
      MatchingNamesSelect(front, matches, n);
      assert forall p :: p in query <==> p in front || p == last;
    }
  }

  /** Selecting from a prefix of the query gives a prefix of the selection. */
  lemma {:induction false} MatchingNamesPrefix(query: seq<Project>, matches: string -> bool, i: nat)
    requires i <= |query|
    ensures MatchingNames(query[..i], matches) <= MatchingNames(query, matches)
    decreases |query|
  {
    if i < |query| {
      var front := query[..|query| - 1];
      assert front[..i] == query[..i];
      MatchingNamesPrefix(front, matches, i);
    } else {
      assert query[..i] == query;
    }
  }

  /** The full names of the projects attempted, in order. */
  function Fullnames(runs: seq<(string, Outcome)>): (names: seq<string>)
    ensures |names| == |runs|
    decreases |runs|
  {
    if runs == [] then [] else Fullnames(runs[..|runs| - 1]) + [runs[|runs| - 1].0]
  }

  /** One pass of the loop over a selected project, after `run_one_project` gave
      `run.1`: the exception is reported, and with failfast it ends the run. */
  function MatchOne(failfast: bool, attempted: seq<string>, run: (string, Outcome)): (r: Run<seq<string>>)
  {
    if run.1.Fail? && failfast then Run(attempted + [run.0], Fail(SystemExit(FailfastMessage)))
    else Run(attempted + [run.0], Pass)
  }

  /** The loop body as a step function for `RunAll`. */
  function MatchStep(failfast: bool): (step: (seq<string>, (string, Outcome)) -> Run<seq<string>>)
  {
    (attempted: seq<string>, run: (string, Outcome)) => MatchOne(failfast, attempted, run)
  }

  lemma FullnamesAppend(runs: seq<(string, Outcome)>, run: (string, Outcome))
    ensures Fullnames(runs + [run]) == Fullnames(runs) + [run.0]
  {
    assert (runs + [run])[..|runs|] == runs;
  }

  /** Runs that do not stop the loop leave it passing, with every project attempted. */
  lemma {:induction false} UnstoppedRunsAllAttempted(failfast: bool, runs: seq<(string, Outcome)>)
    requires forall k :: 0 <= k < |runs| ==> !(failfast && runs[k].1.Fail?)
    ensures RunAll(MatchStep(failfast), [], runs) == Run(Fullnames(runs), Pass)
    decreases |runs|
  {
    if runs != [] {
      var front := runs[..|runs| - 1];
      UnstoppedRunsAllAttempted(failfast, front);
      FullnamesAppend(front, runs[|runs| - 1]);
      assert front + [runs[|runs| - 1]] == runs;
    }
  }

  /** Without failfast a raising project is only reported: every selected project is
      attempted and the loop passes. */
  lemma WithoutFailfastAllAttempted(runs: seq<(string, Outcome)>)
    ensures RunAll(MatchStep(false), [], runs) == Run(Fullnames(runs), Pass)
  {
    UnstoppedRunsAllAttempted(false, runs);
  }

  /** The run up to and including the first project that raises, with failfast. */
  lemma FirstFailureRun(runs: seq<(string, Outcome)>, k: nat)
    requires k < |runs| && runs[k].1.Fail?
    requires forall j :: 0 <= j < k ==> runs[j].1.Pass?
    ensures RunAll(MatchStep(true), [], runs[..k + 1]) ==
            Run(Fullnames(runs[..k + 1]), Fail(SystemExit(FailfastMessage)))
  {
    assert forall j :: 0 <= j < k ==> runs[..k][j] == runs[j];
    UnstoppedRunsAllAttempted(true, runs[..k]);
    PassingPrefix(MatchStep(true), [], runs, k);
    FullnamesAppend(runs[..k], runs[k]);
    assert runs[..k] + [runs[k]] == runs[..k + 1];
  }

  /** With failfast the first project that raises is the last one attempted, and the
      loop exits with its message. */
  lemma FailfastStopsAtFirstFailure(runs: seq<(string, Outcome)>, k: nat)
    requires k < |runs| && runs[k].1.Fail?
    requires forall j :: 0 <= j < k ==> runs[j].1.Pass?
    ensures RunAll(MatchStep(true), [], runs) ==
            Run(Fullnames(runs[..k + 1]), Fail(SystemExit(FailfastMessage)))
  {
    FirstFailureRun(runs, k);
    StaysFailed(MatchStep(true), [], runs, k + 1);
  }

  /** With failfast the loop passes exactly when no project raised. */
  lemma {:induction false} FailfastPassesIffNoneRaised(runs: seq<(string, Outcome)>)
    ensures RunAll(MatchStep(true), [], runs).outcome.Pass? <==>
            forall k :: 0 <= k < |runs| ==> runs[k].1.Pass?
    decreases |runs|
  {
    if runs != [] {
      var front := runs[..|runs| - 1];
      FailfastPassesIffNoneRaised(front);
      assert forall k :: 0 <= k < |front| ==> front[k] == runs[k];
    }
  }

  /** One more run after a passing loop. */
  lemma MatchNext(failfast: bool, runs: seq<(string, Outcome)>, run: (string, Outcome))
    requires RunAll(MatchStep(failfast), [], runs) == Run(Fullnames(runs), Pass)
    ensures RunAll(MatchStep(failfast), [], runs + [run]) ==
            Run(Fullnames(runs + [run]), if run.1.Fail? && failfast then Fail(SystemExit(FailfastMessage)) else Pass)
  {
    PassingPrefix(MatchStep(failfast), [], runs + [run], |runs|);
    assert (runs + [run])[..|runs|] == runs;
    assert (runs + [run])[..|runs| + 1] == runs + [run];
    FullnamesAppend(runs, run);
  }

  /** One more project of the query. */
  lemma MatchingNamesNext(query: seq<Project>, matches: string -> bool, i: nat)
    requires i < |query|
    ensures MatchingNames(query[..i + 1], matches) ==
            MatchingNames(query[..i], matches) + (if matches(query[i].fullname) then [query[i].fullname] else [])
  {
    assert query[..i + 1][..i] == query[..i];
  }

  /** What trying one project does, from the filesystem `e`: the filesystem it leaves and
      what it raises.  A project that cannot be found again raises before any step. */
  function Attempt(w: World, f: Flags, found: (string, Option<string>, Option<string>) -> bool,
                   p: Project, e: Entries, createOk: bool, commitOk: bool): (r: Run<Entries>)
  {
    if !found(p.name, p.user, p.namespace) then Run(e, Fail(ProjectNotFound))
    else
      var t := RunSteps(Enabled(f), ProjectOutcomes(w, f, p, e, createOk, commitOk));
      Run(EntriesAfter(w, f, p, e, t.executed), t.outcome)
  }

  /** A project whose push raises counts as failed and leaves the filesystem as it was:
      priming never started. */
  lemma FailedPushAttempt(w: World, f: Flags, found: (string, Option<string>, Option<string>) -> bool,
                          p: Project, e: Entries, createOk: bool, commitOk: bool)
    requires found(p.name, p.user, p.namespace)
    requires RunAll(PushStep(w, p, f.region), [], w.repoTypes).outcome.Fail?
    ensures Attempt(w, f, found, p, e, createOk, commitOk).outcome.Fail?
    ensures Attempt(w, f, found, p, e, createOk, commitOk).state == e
  {
    var o := ProjectOutcomes(w, f, p, e, createOk, commitOk);
    EnabledSteps(f);
    FailureSkipsLaterSteps(f, o, Step.Push);
    PushFailureSkipsReconfigure(f, o);
  }

  /** The `try` around `run_one_project` in the loop of `match_and_run`: the project is
      looked up again in a new session, and what it raises is caught and returned. */
  method TryProject(w: World, f: Flags, p: Project, found: (string, Option<string>, Option<string>) -> bool,
                    fs: FileSystem, createOk: bool, commitOk: bool)
    returns (outcome: Outcome)
    modifies p, fs
    ensures Run(fs.entries, outcome) == Attempt(w, f, found, p, old(fs.entries), createOk, commitOk)
    ensures !found(p.name, p.user, p.namespace) ==> p.repospannerRegion == old(p.repospannerRegion)
    ensures found(p.name, p.user, p.namespace) ==>
      var t := RunSteps(Enabled(f), ProjectOutcomes(w, f, p, old(fs.entries), createOk, commitOk));
      t.executed != [] && p.repospannerRegion == RegionAfter(t.executed[|t.executed| - 1], f.region, old(p.repospannerRegion))
  {
    var session := new Session();
    var lookup: Project? := if found(p.name, p.user, p.namespace) then p else null;
    var executed, times;
    executed, times, outcome := RunOneProject(w, f, lookup, session, fs, createOk, commitOk);
  }

  /** The filesystem reached and each attempted project with what it raised. */
  datatype Progress = Progress(entries: Entries, runs: seq<(string, Outcome)>)

  /** One iteration of the loop of `match_and_run`: a project whose name does not match
      is skipped; with failfast, a project that raised ends the loop with `SystemExit`. */
  function MigrateOne(w: World, f: Flags, matches: string -> bool,
                      found: (string, Option<string>, Option<string>) -> bool,
                      createOk: string -> bool, commitOk: string -> bool, s: Progress, p: Project): (r: Run<Progress>)
  {
    if !matches(p.fullname) then Run(s, Pass)
    else
      var a := Attempt(w, f, found, p, s.entries, createOk(p.fullname), commitOk(p.fullname));
      Run(Progress(a.state, s.runs + [(p.fullname, a.outcome)]),
          if a.outcome.Fail? && f.failfast then Fail(SystemExit(FailfastMessage)) else Pass)
  }

  function MigrateStep(w: World, f: Flags, matches: string -> bool,
                       found: (string, Option<string>, Option<string>) -> bool,
                       createOk: string -> bool, commitOk: string -> bool): (step: (Progress, Project) -> Run<Progress>)
  {
    (s: Progress, p: Project) => MigrateOne(w, f, matches, found, createOk, commitOk, s, p)
  }

  /** With failfast, a selected project whose push raises is the last one attempted: the
      loop ends there with `SystemExit`, and no later project of the query is tried. */
  lemma FailfastStopsAtFailedPush(w: World, f: Flags, matches: string -> bool,
                                  found: (string, Option<string>, Option<string>) -> bool,
                                  createOk: string -> bool, commitOk: string -> bool,
                                  init: Progress, query: seq<Project>, k: nat)
    requires f.failfast && k < |query|
    requires matches(query[k].fullname) && found(query[k].name, query[k].user, query[k].namespace)
    requires RunAll(PushStep(w, query[k], f.region), [], w.repoTypes).outcome.Fail?
    requires RunAll(MigrateStep(w, f, matches, found, createOk, commitOk), init, query[..k]).outcome.Pass?
    ensures var r := RunAll(MigrateStep(w, f, matches, found, createOk, commitOk), init, query);
            var prev := RunAll(MigrateStep(w, f, matches, found, createOk, commitOk), init, query[..k]).state;
            && r.outcome == Fail(SystemExit(FailfastMessage))
            && r.state.entries == prev.entries
            && |r.state.runs| == |prev.runs| + 1 && r.state.runs[..|prev.runs|] == prev.runs
            && r.state.runs[|prev.runs|].0 == query[k].fullname && r.state.runs[|prev.runs|].1.Fail?
  {
    var step := MigrateStep(w, f, matches, found, createOk, commitOk);
    var p := query[k];
    var prev := RunAll(step, init, query[..k]).state;
    PassingPrefix(step, init, query, k);
    assert step(prev, p) == MigrateOne(w, f, matches, found, createOk, commitOk, prev, p);
    FailedPushAttempt(w, f, found, p, prev.entries, createOk(p.fullname), commitOk(p.fullname));
    StaysFailed(step, init, query, k + 1);
  }

  /** The loop of `match_and_run` after `i` projects that did not stop it: one more. */
  method QueryNext(w: World, f: Flags, query: seq<Project>, i: nat, matches: string -> bool,
                   found: (string, Option<string>, Option<string>) -> bool, fs: FileSystem,
                   createOk: string -> bool, commitOk: string -> bool, ghost init: Progress, runs: seq<(string, Outcome)>)
    returns (runs': seq<(string, Outcome)>, r: Outcome)
    requires i < |query|
    requires RunAll(MigrateStep(w, f, matches, found, createOk, commitOk), init, query[..i]) == Run(Progress(fs.entries, runs), Pass)
    requires Fullnames(runs) == MatchingNames(query[..i], matches)
    requires RunAll(MatchStep(f.failfast), [], runs) == Run(Fullnames(runs), Pass)
    modifies query[i], fs
    ensures RunAll(MigrateStep(w, f, matches, found, createOk, commitOk), init, query[..i + 1]) == Run(Progress(fs.entries, runs'), r)
    ensures Fullnames(runs') == MatchingNames(query[..i + 1], matches)
    ensures RunAll(MatchStep(f.failfast), [], runs') == Run(Fullnames(runs'), r)
  {
    var p := query[i];
    MatchingNamesNext(query, matches, i);
    if !matches(p.fullname) {
      SkipNext(w, f, query, i, matches, found, createOk, commitOk, init, Progress(fs.entries, runs));
      return runs, Pass;
    }
    PassingPrefix(MigrateStep(w, f, matches, found, createOk, commitOk), init, query, i);
    assert MigrateStep(w, f, matches, found, createOk, commitOk)(Progress(fs.entries, runs), p) ==
           MigrateOne(w, f, matches, found, createOk, commitOk, Progress(fs.entries, runs), p);
    var outcome := TryProject(w, f, p, found, fs, createOk(p.fullname), commitOk(p.fullname));
    MatchNext(f.failfast, runs, (p.fullname, outcome));
    runs' := runs + [(p.fullname, outcome)];
    r := if outcome.Fail? && f.failfast then Fail(SystemExit(FailfastMessage)) else Pass;
  }

  /** A project the pattern does not select leaves the loop's state as it was. */
  lemma SkipNext(w: World, f: Flags, query: seq<Project>, i: nat, matches: string -> bool,
                 found: (string, Option<string>, Option<string>) -> bool,
                 createOk: string -> bool, commitOk: string -> bool, init: Progress, s: Progress)
    requires i < |query| && !matches(query[i].fullname)
    requires RunAll(MigrateStep(w, f, matches, found, createOk, commitOk), init, query[..i]) == Run(s, Pass)
    ensures RunAll(MigrateStep(w, f, matches, found, createOk, commitOk), init, query[..i + 1]) == Run(s, Pass)
  {
    PassingPrefix(MigrateStep(w, f, matches, found, createOk, commitOk), init, query, i);
    assert MigrateStep(w, f, matches, found, createOk, commitOk)(s, query[i]) ==
           MigrateOne(w, f, matches, found, createOk, commitOk, s, query[i]);
  }

  /** The loop of `match_and_run` over the projects of the query, in order. */
  method RunQuery(w: World, f: Flags, query: seq<Project>, matches: string -> bool,
                  found: (string, Option<string>, Option<string>) -> bool, fs: FileSystem,
                  createOk: string -> bool, commitOk: string -> bool)
    returns (runs: seq<(string, Outcome)>, r: Outcome)
    modifies query, fs
    ensures Run(Progress(fs.entries, runs), r) ==
      RunAll(MigrateStep(w, f, matches, found, createOk, commitOk), Progress(old(fs.entries), []), query)
    ensures Run(Fullnames(runs), r) == RunAll(MatchStep(f.failfast), [], runs)
    ensures Fullnames(runs) <= MatchingNames(query, matches)
    ensures r.Pass? ==> Fullnames(runs) == MatchingNames(query, matches)
  {
    ghost var init := Progress(fs.entries, []);
    runs, r := [], Pass;
    var i := 0;
    while i < |query|
      invariant 0 <= i <= |query|
      invariant RunAll(MigrateStep(w, f, matches, found, createOk, commitOk), init, query[..i]) ==
        Run(Progress(fs.entries, runs), Pass)
      invariant Fullnames(runs) == MatchingNames(query[..i], matches)
      invariant RunAll(MatchStep(f.failfast), [], runs) == Run(Fullnames(runs), Pass)
      invariant r == Pass
    {
      runs, r := QueryNext(w, f, query, i, matches, found, fs, createOk, commitOk, init, runs);
      if r.Fail? {
        MatchingNamesPrefix(query, matches, i + 1);
        StaysFailed(MigrateStep(w, f, matches, found, createOk, commitOk), init, query, i + 1);
        return;
      }
      i := i + 1;
    }
    assert query[..i] == query;
  }

  /** `match_and_run`.  `matches` is the compiled pattern's `match` on a full name, and
      `found` tells whether `pagure_get_session_and_project` finds the project again by
      (name, owner of a fork, namespace).  The script passes the owner as Pagure's user
      object; the model passes the owner's user name in its place, so `found` is the
      lookup as seen through that name.  `createOk` and `commitOk` stand for Pagure's
      repository creation and the database commit of each project.  The query is
      evaluated once, before any project is migrated. */
  method MatchAndRun(w: World, f: Flags, registry: seq<Project>, matches: string -> bool,
                     found: (string, Option<string>, Option<string>) -> bool, fs: FileSystem,
                     createOk: string -> bool, commitOk: string -> bool)
    returns (runs: seq<(string, Outcome)>, r: Outcome)
    modifies registry, fs
    ensures Run(Progress(fs.entries, runs), r) ==
      RunAll(MigrateStep(w, f, matches, found, createOk, commitOk), Progress(old(fs.entries), []), old(Unmigrated(registry)))
    ensures Run(Fullnames(runs), r) == RunAll(MatchStep(f.failfast), [], runs)
    ensures Fullnames(runs) <= MatchingNames(old(Unmigrated(registry)), matches)
    ensures r.Pass? ==> Fullnames(runs) == MatchingNames(old(Unmigrated(registry)), matches)
  {
    var query := Unmigrated(registry);
    runs, r := RunQuery(w, f, query, matches, found, fs, createOk, commitOk);
  }

  /** `main`: the logging level from the flag counts, then the region check, then the
      migration loop. */
  method RunMain(verbose: nat, quiet: nat, regions: set<string>, w: World, f: Flags,
                 registry: seq<Project>, matches: string -> bool,
                 found: (string, Option<string>, Option<string>) -> bool, fs: FileSystem,
                 createOk: string -> bool, commitOk: string -> bool)
    returns (level: Level, runs: seq<(string, Outcome)>, r: Outcome)
    modifies registry, fs
    ensures level == LevelForFlags(verbose, quiet)
    ensures f.region !in regions ==>
      runs == [] && r == Fail(SystemExit(InvalidRegionMessage)) && fs.entries == old(fs.entries)
    ensures f.region !in regions ==>
      forall q :: q in registry ==> q.repospannerRegion == old(q.repospannerRegion)
    ensures f.region in regions ==>
      Run(Progress(fs.entries, runs), r) ==
        RunAll(MigrateStep(w, f, matches, found, createOk, commitOk), Progress(old(fs.entries), []), old(Unmigrated(registry)))
    ensures f.region in regions ==> Run(Fullnames(runs), r) == RunAll(MatchStep(f.failfast), [], runs)
    ensures f.region in regions ==> Fullnames(runs) <= MatchingNames(old(Unmigrated(registry)), matches)
    ensures f.region in regions && r.Pass? ==> Fullnames(runs) == MatchingNames(old(Unmigrated(registry)), matches)
  {
    level := LevelForFlags(verbose, quiet);
    if f.region !in regions {
      runs, r := [], Fail(SystemExit(InvalidRegionMessage));
      return;
    }
    runs, r := MatchAndRun(w, f, registry, matches, found, fs, createOk, commitOk);
  }
}
