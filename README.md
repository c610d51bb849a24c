# Mass migration of Pagure projects to repoSpanner, in Dafny

This project models the two scripts that move the Git repositories of a Pagure forge
into repoSpanner:

- `migrate.py` selects the projects that are not yet in repoSpanner and whose full name
  matches a regular expression. For each one it runs a pipeline of up to four steps, in
  a fixed order:
  1. create the repoSpanner repositories;
  2. push every local repository through repoSpanner's bridge helper (`git push` over
     the `ext::` transport);
  3. prime Pagure's pseudo cache by cloning, or by pulling into an existing clone;
  4. reconfigure the project record to point at its region.

  Each step that finishes is timed. The first step that raises skips the rest. Once the
  project has been found again, the database session is removed whatever the steps
  raised; a project that cannot be found raises before that, and its session stays. With `--failfast` the first failing
  project ends the run; without it, the failure is reported and the next project runs.
- `primecache.py` rebuilds the pseudo cache of every project that is already in
  repoSpanner and matches a pattern. For each repository type in use, it clones into
  `<cache>.cacheprime` and moves the old cache aside to `<cache>.old`. It then moves the
  clone into place and removes `<cache>.old`.

Everything outside the scripts is an oracle held in `Registry.World`:

- the script's environment;
- Pagure's configuration;
- the region lookups;
- the reference lists of local and remote repositories;
- the exit status of every subprocess call.

The project records (`Registry.Project`) and the database session (`Registry.Session`)
are classes whose fields the scripts write. The host filesystem is a class
(`FileSystems.FileSystem`) holding a map from directory path to the clone it holds.

Each loop of the scripts is a method whose `while` loop is proved against `Loops.RunAll`.
`RunAll` is a fold that stops at the first step that raises. The properties of the
scripts are proved as lemmas about those folds.

`primecache.py` defines its own `runcmd` (primecache.py:20-34). It is identical to
migrate.py's, and `Process.RunCmd` models both. primecache.py never calls it.

## Model

| member | source | states |
|---|---|---|
| `Process.ChildEnvironment` | migrate.py:111-115 | the environment a child process starts with: the script's own when `env` is None, exactly `env` otherwise; `Process.MergedEnvironment` and `Process.EmptyEnvIsNotMerged` state what it is for each call |
| `Process.CopyAndUpdate` | migrate.py:107-110 | the merged environment has exactly the keys of both maps; a key of `env` takes its new value and every other key keeps its old one |
| `Process.RunCmd` | migrate.py:101-115 | the call runs `cmd` in `workdir`; a non-empty `env` is merged over the script's environment, and `None` or `{}` is passed through as is; the call raises `CalledProcessError(status)` exactly when the status is non-zero and `mayfail` is off |
| `Process.MergedEnvironment` | migrate.py:107-110 | after the merge, each variable has `env`'s value if `env` sets it, and the script's value otherwise |
| `Process.EmptyEnvIsNotMerged` | migrate.py:107-115 | `{}` is false in Python, so the child gets an empty environment; with `None` the child inherits the script's environment |
| `Bridge.BridgeEnvironment` | migrate.py:165-175 | the helper's variables are exactly USER, REPOBRIDGE_CONFIG, REPOBRIDGE_BASEURL, REPOBRIDGE_CA, REPOBRIDGE_CERT and REPOBRIDGE_KEY |
| `Bridge.ReadBridgeConfig` | migrate.py:165-175 | the helper's reading of its settings in ":environment:" mode, from the REPOBRIDGE_* variables; `Bridge.BridgeConfigRoundTrip` states that it recovers the region's settings |
| `Bridge.BridgeConfigRoundTrip` | migrate.py:165-175 | whatever the script's environment holds, the helper reads back exactly the region's URL, CA, certificate and key, and USER is "pagure" |
| `Bridge.ExtraArgs` | migrate.py:157-163 | `pushargs` has fifteen words |
| `Bridge.Triples` | migrate.py:157-163 | writing pairs as "--extra key value" gives three words per pair |
| `Bridge.TriplesRoundTrip` | migrate.py:157-163 | any list of pairs written as "--extra" triples is parsed back to the same list |
| `Bridge.ExtraArgsAreTriples` | migrate.py:157-163 | `pushargs` is the five metadata pairs (username, repotype, project_name, project_user, project_namespace), in that order, written as "--extra" triples |
| `Bridge.ExtraArgsRoundTrip` | migrate.py:157-163 | the helper parses `pushargs` back to exactly those pairs: the fork owner's name or "", and the namespace or "" |
| `Bridge.SplitWords` | migrate.py:184-189 | splitting at single spaces always gives at least one word |
| `Bridge.JoinWords` | migrate.py:184-189 | `" ".join(words)`; `Bridge.SplitJoin` and `Bridge.JoinAppend` state that splitting undoes it for space-free words |
| `Bridge.PushRemote` | migrate.py:184-189 | the `ext::%s %s %s` remote of a push; `Bridge.PushRemoteWords` and `Bridge.PushRemoteCarriesExtras` state what the helper reads back from it |
| `Bridge.SplitWord` | migrate.py:184-189 | a word without a space splits to itself |
| `Bridge.SplitWordThen` | migrate.py:184-189 | a space-free word followed by a space splits off as one word |
| `Bridge.SplitJoin` | migrate.py:184-189 | joining words with single spaces and splitting at spaces are inverse when no word holds a space |
| `Bridge.JoinAppend` | migrate.py:187 | joining one more word appends a space and that word |
| `Bridge.PushRemoteWords` | migrate.py:184-189 | the push remote starts with "ext::" and splits into the helper binary, every extra argument and the repository name, when none of them holds a space |
| `Bridge.PushRemoteCarriesExtras` | migrate.py:157-189 | when no field holds a space, the words of the push remote are the helper, fifteen extra arguments and the repository name, and the extras parse back to exactly the five (key, value) pairs `_run_git_push` sends |
| `Bridge.PushCommand` | migrate.py:179-194 | the push command is `git -c protocol.ext.allow=always push`, then the push remote built from the helper, the extras and the repository name, then every local reference, in listing order |
| `Bridge.CloneCommand` | migrate.py:207-218 | the clone command is `git -c protocol.ext.allow=always clone`, the remote `ext::<helper> <repository>`, then the target |
| `Bridge.CloneRemoteWords` | migrate.py:207-218 | the clone remote splits into the helper and the repository name when neither holds a space |
| `Bridge.CloneConfig` | migrate.py:236-241 | `set_config` writes exactly the five repospanner.* keys, and enabled is "true" |
| `Clone.CloneCall` | migrate.py:207-233 | the clone runs in no working directory, targets `target`, and has the helper's variables merged into the script's environment |
| `Clone.ClonedTree` | migrate.py:230-241 | the clone a successful `repospanner_clone` with `set_config` leaves: the remote's references and the repospanner config; `Clone.CloneResult` states where it goes |
| `Clone.CloneResult` | migrate.py:230-241 | the clone succeeds exactly when the target is absent and the status is zero; a failed clone changes nothing; a successful clone adds the target holding the remote's references, with the repospanner config when `set_config` is on and an empty config otherwise, and changes nothing else |
| `Clone.RepospannerClone` | migrate.py:200-242 | the method issues `CloneCall` for the project's current region, and its effect on the filesystem is `CloneResult` |
| `FileSystems.Renamed` | primecache.py:58-59 | `os.rename` succeeds exactly when the source exists and the target does not; on success the source's content moves to the target and no other path changes; on failure nothing changes |
| `FileSystems.RemovedTree` | primecache.py:60 | `shutil.rmtree` raises exactly when the path is missing, and the path is gone afterwards |
| `FileSystems.Cloned` | migrate.py:231-233 | `git clone` succeeds exactly when the target is absent and the status is zero; a failed clone leaves nothing |
| `FileSystems.Pulled` | migrate.py:271-273 | a pull never removes a directory and never changes a config; a successful pull adds the remote's references to the pulled directory, a failed one leaves it as it was, and every other directory is unchanged |
| `FileSystems.Configured` | migrate.py:236-241 | writing config keys changes no reference, the new keys override the old ones in that directory, and every other directory is unchanged |
| `FileSystems.FileSystem.Rename` | primecache.py:58-59 | the new filesystem and the outcome are those of `Renamed` |
| `FileSystems.FileSystem.RmTree` | primecache.py:60 | the new filesystem and the outcome are those of `RemovedTree` |
| `FileSystems.FileSystem.Clone` | migrate.py:231-235 | the new filesystem and the outcome are those of `Cloned` |
| `FileSystems.FileSystem.Pull` | migrate.py:273 | the new filesystem is that of `Pulled` |
| `FileSystems.FileSystem.SetConfig` | migrate.py:236-241 | the new filesystem is that of `Configured` |
| `Registry.Project.RepoPath` | migrate.py:147-150 | `repopath` is None exactly for a repository type not in use |
| `Loops.RunAll` | migrate.py:143-197 | a loop over a sequence whose first raising iteration abandons the rest, as a fold; `Loops.StaysFailed`, `Loops.PassingPrefix` and `Loops.RunOne` state its meaning |
| `Loops.StaysFailed` | migrate.py:143-197 | once an iteration raises, the later elements are never processed |
| `Loops.PassingPrefix` | migrate.py:143-197 | after iterations that all passed, the next element is one more step |
| `Loops.RunOne` | primecache.py:43-60 | a one-element loop is one step |
| `MigratePush.PushOne` | migrate.py:143-197 | one iteration of `_run_git_push`: a type not in use is skipped, otherwise one push whose non-zero status raises; `MigratePush.PushesFollowPlan` states what the whole loop does |
| `MigratePush.PushCall` | migrate.py:152-197 | each push runs in the repository's own directory and carries all of its references |
| `MigratePush.Present` | migrate.py:143-150 | every type kept is in use and is one of REPOTYPES |
| `MigratePush.Planned` | migrate.py:143-197 | the plan has one push per type in use, in REPOTYPES order, each the push of that type's repository |
| `MigratePush.PresentIsFilter` | migrate.py:143-150 | a type is pushed exactly when it is in REPOTYPES and in use, and with no repeats in REPOTYPES none is pushed twice |
| `MigratePush.FollowsLongerPlan` | migrate.py:143-197 | a run that stopped at a failure still follows any longer plan that extends its own |
| `MigratePush.FollowsExtendedPlan` | migrate.py:143-197 | after a plan that passed, one more push follows the extended plan |
| `MigratePush.PushesFollowPlan` | migrate.py:143-197 | the loop issues a prefix of the plan; it passes exactly when every planned push exits with 0, and then it has issued all of them; otherwise it stops right after the first failing push and raises that push's status |
| `MigratePush.PlannedGrows` | migrate.py:143-197 | the plan for a prefix of REPOTYPES is a prefix of the plan |
| `MigratePush.PushRepos` | migrate.py:137-197 | the pushes issued and the outcome are those of the loop fold over REPOTYPES |
| `MigratePush.RunGitPush` | migrate.py:125-134 | the pushes are made with the target region, and afterwards the region is None, whether or not a push raised |
| `MigratePush.PushEnvironment` | migrate.py:165-175 | every push runs with the script's environment plus the helper's variables for that type's region, and the helper reads back exactly that region |
| `MigrateCache.PullCall` | migrate.py:262-273 | the pull of an existing cache: `git pull` in the cache directory with the helper's variables; `MigrateCache.PrimePresentPulls` states its effect |
| `MigrateCache.PrimeOne` | migrate.py:252-282 | one iteration of `prime_cache`: skip a type not in use, pull an existing cache (never raising), clone a missing one (raising on failure); `MigrateCache.PrimeOneGrows`, `MigrateCache.PrimeAbsentClones` and `MigrateCache.PrimePresentPulls` state its meaning |
| `MigrateCache.PullCache` | migrate.py:262-273 | an existing cache is pulled with the helper's variables, the pull's failure is tolerated, and the call is recorded |
| `MigrateCache.CloneCache` | migrate.py:274-282 | a missing cache is cloned with the region set, and the region is None afterwards, whether or not the clone raised |
| `MigrateCache.PrimeRepoType` | migrate.py:252-282 | one iteration: a type not in use is skipped, an existing cache is pulled, and a missing one is cloned |
| `MigrateCache.PrimeNext` | migrate.py:252-282 | one more iteration after iterations that all passed |
| `MigrateCache.PrimeCache` | migrate.py:245-282 | the calls, the new caches and the outcome are those of the fold over REPOTYPES; the region ends None or unchanged |
| `MigrateCache.PrimeOneGrows` | migrate.py:252-282 | one iteration never removes a directory or loses a reference |
| `MigrateCache.PrimeGrows` | migrate.py:252-282 | priming never removes a directory or loses a reference |
| `MigrateCache.PrimeInstalls` | migrate.py:252-282 | when priming passes, every type in use has its cache directory |
| `MigrateCache.PrimeAbsentClones` | migrate.py:274-282 | a missing cache is cloned by exactly one clone call, and holds the remote's references and the repospanner config |
| `MigrateCache.PrimePresentPulls` | migrate.py:262-273 | an existing cache is updated by exactly one pull, which passes and keeps every reference |
| `MigrateCache.PrimeThenUpdate` | migrate.py:262-282 | priming twice clones and then pulls; both runs pass, and the cache keeps every reference it was cloned with |
| `Paths.Join` | migrate.py:258 | an absolute component replaces what came before |
| `Paths.JoinEndsWith` | migrate.py:258 | `os.path.join(a, b)` ends with `b` |
| `Paths.JoinComponent` | migrate.py:258 | joining a single component inserts at most one "/" and does not end in "/" |
| `Paths.JoinRelative` | migrate.py:258 | a relative path after a directory that does not end in "/" is joined with exactly one "/" |
| `Paths.CacheDirsDistinct` | migrate.py:252-258 | different repository types get different cache directories |
| `Paths.CacheDir` | migrate.py:258 | `os.path.join(pseudopath, repotype, project.path)`; `Paths.CacheDirsDistinct` states that types do not share a directory |
| `Paths.StagingDir` | primecache.py:52 | the staging directory is the cache directory followed by ".cacheprime" |
| `Paths.BackupDir` | primecache.py:56-58 | the backup is the cache directory followed by ".old" |
| `Paths.SwapPathsDistinct` | primecache.py:52-60 | the cache, staging and backup directories are three different paths |
| `Pipeline.Enabled` | migrate.py:302-316 | the steps the options enable, in their fixed order; `Pipeline.EnabledSteps` states it |
| `Pipeline.RunSteps` | migrate.py:299-317 | the body of the `try` of `run_one_project` as a run of the enabled steps; `Pipeline.RunStepsPasses`, `Pipeline.RunStepsFails` and `Pipeline.RunStepsWellFormed` state its meaning |
| `Pipeline.EnabledSteps` | migrate.py:302-316 | push always runs; create, prime and reconfigure run exactly when their flags are given; steps run in the order create, push, prime, reconfigure |
| `Pipeline.TimeKeys` | migrate.py:300-317 | one `times` key per step that finished, and never "total" |
| `Pipeline.RunStepsPrefix` | migrate.py:299-317 | the steps that ran are a prefix of the enabled steps |
| `Pipeline.AllPassCons` | migrate.py:299-317 | the steps all pass exactly when the first one and all the rest pass |
| `Pipeline.RunStepsPasses` | migrate.py:299-320 | a run passes exactly when every enabled step passes; it then ran and timed every step, with "total" last |
| `Pipeline.RunStepsFails` | migrate.py:299-322 | a failed run ends with the step that raised, whose error is the outcome; the steps before it passed and were timed, and the failing step was not |
| `Pipeline.RunStepsWellFormed` | migrate.py:299-322 | every run has the shape of the three lemmas above |
| `Pipeline.FailureStops` | migrate.py:299-317 | no step after one that raises runs, and "total" is not recorded |
| `Pipeline.FailureBoundsRanks` | migrate.py:299-317 | with the steps in rank order, no step ranked after one that raises runs |
| `Pipeline.FailureSkipsLaterSteps` | migrate.py:302-317 | an enabled step that raises stops the pipeline: no later step runs and "total" is never recorded |
| `Pipeline.PushFailureSkipsReconfigure` | migrate.py:306-316 | a failed push means neither prime nor reconfigure runs, so the region is never written |
| `Pipeline.RunStepsAppend` | migrate.py:299-317 | running steps that all pass and then the rest is running the rest after them |
| `Pipeline.NamesAppend` | migrate.py:305-316 | one more finished step adds its own key last |
| `Pipeline.Begin` | migrate.py:300-301 | before any step, nothing has run and nothing is timed |
| `Pipeline.RemainingFrom` | migrate.py:302-316 | the steps still to come from a rank are that step, when enabled, then the rest |
| `Pipeline.Skip` | migrate.py:302-316 | a disabled step is passed over |
| `Pipeline.AllPassAppend` | migrate.py:302-316 | the steps that passed, plus one more that passed, all passed |
| `Pipeline.Advance` | migrate.py:302-316 | an enabled step that passes is recorded under its own name |
| `Pipeline.Stop` | migrate.py:302-316 | an enabled step that raises ends the run with its error |
| `Pipeline.Finish` | migrate.py:317 | when every enabled step passed, "total" is recorded last |
| `Pipeline.StepAt` | migrate.py:302-316 | the step at each position has that rank |
| `Pipeline.FromOngoing` | migrate.py:302-317 | walking the remaining steps from any point of a run gives the run of the enabled list |
| `Pipeline.FromIsRunSteps` | migrate.py:302-317 | walking the four steps in turn, as the body of `run_one_project` does, is running the enabled list |
| `Pipeline.PrimeRun` | migrate.py:245-282 | the prime step's fold over REPOTYPES from a filesystem; `MigrateCache.PrimeCache` is proved equal to it |
| `Pipeline.ProjectOutcomes` | migrate.py:302-316 | what each step of one project raises: create and commit from their oracles, push and prime from their folds; `Pipeline.RunOneProject` runs the steps on it |
| `Pipeline.EntriesAfter` | migrate.py:309-311 | the filesystem after the steps that ran: changed only by priming; `Pipeline.RunOneProject` states it |
| `Pipeline.RegionAfter` | migrate.py:125-134 | the region left by the last step that ran: pushing and priming clear it in `finally` (migrate.py:132-134, 280-282), reconfiguring sets it (migrate.py:289); `Pipeline.RunOneProject` states it |
| `Pipeline.Reconfigure` | migrate.py:285-291 | the region is set, the project's name is added to the session, and one commit is counted when the commit succeeds, which is exactly when it passes |
| `Pipeline.CreateStage` | migrate.py:302-305 | the create step runs only on its flag and is timed only if it passes |
| `Pipeline.PushStage` | migrate.py:306-308 | the push step always runs; its pushes and outcome are the fold over the repository types, and it leaves the region None |
| `Pipeline.PrimeStage` | migrate.py:309-312 | the prime step runs only on its flag; then the filesystem is the one the priming fold reaches, otherwise it is unchanged; the region stays None |
| `Pipeline.ReconfigureStage` | migrate.py:313-316 | the reconfigure step runs only on its flag; then the region is set, the project is added to the session and committed when the commit succeeds; otherwise the session is unchanged |
| `Pipeline.PushOnwards` | migrate.py:306-317 | the steps from push on follow the run of the enabled steps; the region is the one the last step that ran leaves; the filesystem changes only if priming ran; the session gains the project (and a commit) exactly when reconfiguring ran |
| `Pipeline.MigrateProject` | migrate.py:299-317 | the body of the `try` runs the enabled steps in order; at least one step runs; the region is the one the last step that ran leaves; the filesystem changes only if priming ran; the session gains the project (and a commit) exactly when reconfiguring ran |
| `Pipeline.RunOneProject` | migrate.py:294-322 | a project that cannot be found raises before the `try`: nothing runs, the filesystem and the session are unchanged and the session is not removed; otherwise the trace is the run of the enabled steps, the region, filesystem and session are those the steps that ran leave, and the session is removed |
| `Runner.Unmigrated` | migrate.py:331 | the query holds exactly the projects whose region is None |
| `Runner.MatchingNamesSelect` | migrate.py:335-339 | a name is selected exactly when it matches and is the full name of a project in the query |
| `Runner.MatchingNamesPrefix` | migrate.py:335-339 | selecting from a prefix of the query gives a prefix of the selection |
| `Runner.MatchingNamesNext` | migrate.py:335-339 | one more project of the query adds its name when it matches |
| `Runner.Fullnames` | migrate.py:335-346 | one name per project attempted |
| `Runner.FullnamesAppend` | migrate.py:335-346 | one more attempt adds its name last |
| `Runner.UnstoppedRunsAllAttempted` | migrate.py:340-350 | when no run stops the loop, the loop passes and every project is attempted |
| `Runner.WithoutFailfastAllAttempted` | migrate.py:347-350 | without failfast, a raising project is only reported; every selected project is attempted and the loop passes |
| `Runner.FirstFailureRun` | migrate.py:347-350 | with failfast, the loop exits at the first project that raises |
| `Runner.FailfastStopsAtFirstFailure` | migrate.py:347-350 | with failfast, the first project that raises is the last one attempted, and the loop exits with "Project failed with failfast" |
| `Runner.FailfastPassesIffNoneRaised` | migrate.py:340-350 | with failfast, the loop passes exactly when no project raised |
| `Runner.MatchOne` | migrate.py:340-350 | one pass of the loop over a selected project: the exception is reported, and with failfast it ends the run; `Runner.FailfastStopsAtFirstFailure` and `Runner.WithoutFailfastAllAttempted` state its meaning |
| `Runner.MatchNext` | migrate.py:340-350 | one more project after a loop that passed |
| `Runner.Attempt` | migrate.py:340-348 | what trying one project does: ProjectNotFound when it cannot be found again, otherwise its pipeline's outcome and filesystem; `Runner.TryProject` is proved equal to it |
| `Runner.MigrateOne` | migrate.py:337-350 | one iteration of the loop of `match_and_run`: skip a project that does not match, record the attempt, and with failfast stop at a failure; `Runner.RunQuery` is proved equal to its fold |
| `Runner.TryProject` | migrate.py:340-348 | a project that cannot be found again raises ProjectNotFound and changes nothing; otherwise the outcome and the filesystem are those of the project's pipeline, and the region is the one its last step leaves |
| `Runner.FailedPushAttempt` | migrate.py:306-308 | a found project whose push raises fails, and leaves the filesystem as it was, because priming never starts |
| `Runner.QueryNext` | migrate.py:337-350 | one more project of the loop: the fold, the names attempted and the failfast outcome each advance by that project |
| `Runner.SkipNext` | migrate.py:338-341 | a project the pattern does not select leaves the loop's state as it was |
| `Runner.FailfastStopsAtFailedPush` | migrate.py:337-350 | with failfast, a selected project whose push raises is the last one attempted: it is recorded as failed, the loop exits with "Project failed with failfast", and the filesystem is the one the earlier projects left |
| `Runner.RunQuery` | migrate.py:335-350 | the filesystem and the recorded outcome of every attempted project are those of the loop's fold, in which each matching project's outcome is its own pipeline's, run on the filesystem the earlier projects left; the projects attempted are, in order, a prefix of the matching projects, and all of them when the loop passes; the outcome follows failfast |
| `Runner.MatchAndRun` | migrate.py:325-352 | the same, for the query of projects whose region is None, evaluated once |
| `Runner.RunMain` | migrate.py:355-377 | the log level comes from the flag counts; an unknown region exits with "Invalid repoSpanner region name", attempts nothing, changes no file and leaves every project's region as it was; otherwise the migration loop runs, with the per-project outcomes and filesystem of `Runner.RunQuery` |
| `Verbosity.LevelFor` | migrate.py:357-370 | each -v lowers the threshold by 10 from INFO and each -q raises it, clamped to NOTSET and CRITICAL |
| `Verbosity.LevelForFlags` | migrate.py:356-372 | equal counts give INFO; two or more -v and no -q give NOTSET |
| `Verbosity.MoreVerboseShowsMore` | migrate.py:357-370 | more verbosity never raises the threshold |
| `Verbosity.ValueIsInjective` | migrate.py:357-370 | the numeric value determines the level |
| `Primecache.PlaceStaged` | primecache.py:55-59 | the swap up to the rename of the staging clone: an existing cache moves aside to ".old" unless ".old" is in the way |
| `Primecache.SwapAsWritten` | primecache.py:55-60 | the swap as written, removing ".old" unconditionally; `Primecache.FirstSwapAsWrittenRaises` and `Primecache.SwapAgreesOnExistingCache` state what it does |
| `Primecache.Swap` | primecache.py:55-60 | the corrected swap, removing ".old" only when it exists; `Primecache.SwapSpec` and `Primecache.SwapFrame` state what it does |
| `Primecache.FirstSwapAsWrittenRaises` | primecache.py:55-60 | as written, a first install with no cache and no ".old" puts the staged clone in place, then raises FileNotFound for ".old" |
| `Primecache.SwapSpec` | primecache.py:55-60 | the corrected swap passes exactly when a staged clone is there and the cache and a left-over ".old" are not both present; it then leaves the clone as the cache, no staging directory, no ".old", and nothing else changed |
| `Primecache.SwapAgreesOnExistingCache` | primecache.py:55-60 | where a cache existed, the corrected swap and the one as written behave the same |
| `Primecache.SwapFrame` | primecache.py:55-60 | a swap touches only the cache, staging and ".old" paths |
| `Primecache.Install` | primecache.py:49-60 | one repository type in use: clone into staging, then the corrected swap; `Primecache.InstallClonesFirst`, `Primecache.InstallRefusesOldCache` and `Primecache.InstallReplacesCache` state what it does |
| `Primecache.InstallClonesFirst` | primecache.py:52-56 | the clone comes before any look at the cache or ".old": when the clone raises, that is the outcome and nothing has changed |
| `Primecache.InstallRefusesOldCache` | primecache.py:53-57 | with both the cache and ".old" present, the step raises after cloning; the cache and ".old" are untouched and the fresh clone stays in staging |
| `Primecache.InstallReplacesCache` | primecache.py:49-60 | with the corrected swap, and no left-over staging directory or ".old", a clone that succeeds makes the step pass whether or not a cache existed; the fresh clone becomes the cache, no staging directory or ".old" remains, and nothing else changed |
| `Primecache.StagedThenSwapped` | primecache.py:53-60 | staging a clone and then swapping it in with the corrected swap is installing it as the cache |
| `Primecache.PrimeOne` | primecache.py:43-60 | one iteration of `prime_cache`: a type not in use is skipped, otherwise `Primecache.Install` with the corrected swap; `Primecache.PrimeOneFrame` states what it touches |
| `Primecache.SwapPaths` | primecache.py:43-52 | the cache directory of every type in use is among the paths priming may touch |
| `Primecache.PrimeOneFrame` | primecache.py:43-60 | one repository type changes only its own three paths, and a type not in use changes nothing |
| `Primecache.PrimeFrame` | primecache.py:43-60 | priming a project changes nothing outside the cache, staging and ".old" paths of its types in use |
| `Primecache.SwapIn` | primecache.py:55-60 | the new filesystem and the outcome are those of the corrected swap |
| `Primecache.PrimeRepoType` | primecache.py:45-60 | one iteration over a type: the new filesystem and the outcome are the fold's step |
| `Primecache.PrimeNext` | primecache.py:43-60 | one more iteration after iterations that all passed |
| `Primecache.PrimeProjectCache` | primecache.py:37-60 | with the corrected swap, the new filesystem and the outcome are those of the fold over REPOTYPES, where the first raise abandons the remaining types |
| `Primecache.InRepoSpanner` | primecache.py:73 | the query holds exactly the projects whose region is set, each with that region |
| `Primecache.SelectedNames` | primecache.py:76-80 | a name is attempted exactly when it matches and is the full name of a project in the query |
| `Primecache.MainAttemptsAll` | primecache.py:76-84 | no project stops the loop; every selected project is attempted, in order, whatever the earlier ones raised |
| `Primecache.MainOne` | primecache.py:75-84 | one iteration of the loop of `main`: a project that does not match is skipped, otherwise it is primed with the corrected swap and what it raised is recorded; `Primecache.MainAttemptsAll` states that no project stops the loop |
| `Primecache.MainNext` | primecache.py:76-84 | one more project after a loop that passed, primed with the corrected swap |
| `Primecache.PrimeMain` | primecache.py:63-84 | a command line without exactly one argument exits with the usage message and changes nothing; otherwise every selected project is primed in query order, and each outcome is recorded |

## Left out

- Running subprocesses, git's `ext::` transport, the bridge helper's wire protocol and pygit2 are not modelled. A call's exit status comes from the oracle `World.exitCode`. A clone holds the remote's reference set (`World.remoteRefs`) and a config map. A push's references come from `World.localRefs`.
- A filesystem entry is a whole clone directory. An `os.rename` onto an existing directory is modelled as raising, because every directory here is a non-empty clone. A `git clone` into an existing directory is modelled as exit status 128.
- The Pagure database is not modelled: its queries, `_get_project`, `create_project_repos` and the commit are oracles. `found`, `createOk` and `commitOk` stand for them, and `Runner.TryProject` passes the project itself when it is found again. A live SQLAlchemy query is modelled as a sequence read once, before the loop. The loop passes `project.user`, Pagure's user object, for a fork; the model passes the owner's user name, so `found` sees the owner through that name.
- `Runner.RunQuery`, `Runner.MatchAndRun` and `Runner.RunMain` do not state the region each attempted project is left with; `Runner.TryProject` states it for one project, and the invalid-region exit of `Runner.RunMain` leaves every region as it was.
- `parse_args`, `get_pagure_config`, `get_pagure_session`, `get_pagure_project` and the `_PAGURE_GLOBALS` cache read configuration and are not modelled. Their results appear as `Pipeline.Flags` and as `World` fields. Setting `PAGURE_CONFIG` in the environment is not modelled.
- `Bridge.SplitWords` splits at single spaces only. Git's `ext::` transport also reads `%` as an escape (`%%`, `% `, `%s`, `%S`, `%G`), so a project name, namespace or owner holding `%` is not modelled, and `Bridge.PushRemoteCarriesExtras` speaks only for fields without `%`.
- Regular-expression matching is an oracle `matches` on full names. It stands for `re.compile(pattern).match`.
- Logging messages, `traceback.print_exc` and the durations in `times` are not modelled, because they are output and clock readings. The keys of `times`, and their order, are modelled.
- Exception messages are modelled as `Outcomes.Error` values carrying their data. A failed lookup is `ProjectNotFound`. primecache's "old cachedir already existed" is `OldCacheExists(path)`.
- primecache.py calls Pagure's own `Project._repospanner_clone`. That method is not part of this model. Its effect is taken to be that of migrate.py's `repospanner_clone`, with `set_config` on and the project's stored region.
- `Primecache.PrimeMain` requires at least one element in `argv`, because the interpreter always sets `sys.argv[0]`. The usage message is built from it.
- `Primecache.Install` installs a clone with the corrected swap.
- `Primecache.StagedThenSwapped` composes staging with the corrected swap.
- `Primecache.InstallReplacesCache` is stated for the corrected swap.
- `Primecache.PrimeOne` installs through `Primecache.Install`, so a first priming passes where primecache.py:60 raises FileNotFoundError.
- `Primecache.SwapIn` is the corrected swap.
- `Primecache.PrimeRepoType` steps the fold built on the corrected swap.
- `Primecache.PrimeNext` steps the fold built on the corrected swap.
- `Primecache.PrimeProjectCache` is proved equal to the fold built on the corrected swap, so a first priming of a type does not abandon the remaining types.
- `Primecache.MainOne` primes through `Primecache.PrimeStep`, so it records Pass on a first priming where the script reports FileNotFoundError.
- `Primecache.MainNext` steps the loop of `main` through `Primecache.MainOne`, with the same difference.
- `Primecache.PrimeMain` primes every selected project with the corrected swap.
- The swap as written is kept as `Primecache.SwapAsWritten`, and every member built on `Primecache.Install`, `Primecache.PrimeStep` or `Primecache.MainStep` uses the corrected swap, as the finding below explains.

## Findings

| source | as written | input that shows it | evidently intended | confidence | as-written member | corrected member |
|---|---|---|---|---|---|---|
| primecache.py:55-60 | `shutil.rmtree(cachedir + ".old")` runs whether or not the swap made a ".old" | a repository type in use whose cache directory does not exist yet (a first priming) and no left-over ".old": the clone is moved into place, and then `rmtree` raises FileNotFoundError; `main` reports it, and the project's remaining repository types are not primed | remove ".old" only when it exists, so that building a cache that does not exist yet succeeds, as "Build or update" promises | not executed; high | `Primecache.FirstSwapAsWrittenRaises` | `Primecache.SwapSpec` |
